/**
  The few pieces of Java semantics the rest of the model leans on: references
  that may be null, calls that may throw, the fixed integer widths, and the
  decimal rendering of integers done by `String.valueOf` and `%02d`.
 */
module JavaLang {

  /** A Java reference of type T: `Null`, or a real object. */
  datatype Nullable<+T> = Null | NonNull(value: T)

  /** The outcome of a Java call: a value, or an exception thrown out of it.
      Failure-compatible, so `var x :- f();` propagates the exception. */
  datatype Try<+T> = Ok(value: T) | Thrown {
    predicate IsFailure() {
      Thrown?
    }

    function PropagateFailure<U>(): Try<U>
      requires Thrown?
    {
      Thrown
    }

    function Extract(): T
      requires Ok?
    {
      value
    }
  }

  /** The text Java's string concatenation writes for a String operand:
      the characters themselves, or "null". */
  function Render(s: Nullable<string>): string {
    match s
    case Null => "null"
    case NonNull(t) => t
  }

  predicate IsInt32(n: int) {
    -0x8000_0000 <= n < 0x8000_0000
  }

  predicate IsInt64(n: int) {
    -0x8000_0000_0000_0000 <= n < 0x8000_0000_0000_0000
  }

  /** The narrowing conversion `(int) x` of an integral value: the low 32
      bits, read as two's complement. */
  function NarrowToInt(n: int): (r: int)
    ensures IsInt32(r)
    ensures (n - r) % 0x1_0000_0000 == 0
  {
    (n + 0x8000_0000) % 0x1_0000_0000 - 0x8000_0000
  }

  /** The narrowing conversion `(long) x`: the low 64 bits. */
  function NarrowToLong(n: int): (r: int)
    ensures IsInt64(r)
    ensures (n - r) % 0x1_0000_0000_0000_0000 == 0
  {
    (n + 0x8000_0000_0000_0000) % 0x1_0000_0000_0000_0000 - 0x8000_0000_0000_0000
  }

  /** Narrowing keeps every value the narrow type can hold, and values that
      differ by a whole multiple of 2^32 narrow to the same int. */
  lemma NarrowToIntKeepsAndWraps(n: int, k: int)
    ensures IsInt32(n) ==> NarrowToInt(n) == n
    ensures NarrowToInt(n + k * 0x1_0000_0000) == NarrowToInt(n)
  {
    var m := n + 0x8000_0000;
    assert (m + k * 0x1_0000_0000) % 0x1_0000_0000 == m % 0x1_0000_0000 by {
      var q := m / 0x1_0000_0000;
      var rem := m % 0x1_0000_0000;
      assert m + k * 0x1_0000_0000 == (q + k) * 0x1_0000_0000 + rem;
    }
  }

  /** The long counterpart of NarrowToIntKeepsAndWraps. */
  lemma NarrowToLongKeepsAndWraps(n: int, k: int)
    ensures IsInt64(n) ==> NarrowToLong(n) == n
    ensures NarrowToLong(n + k * 0x1_0000_0000_0000_0000) == NarrowToLong(n)
  {
    var m := n + 0x8000_0000_0000_0000;
    assert (m + k * 0x1_0000_0000_0000_0000) % 0x1_0000_0000_0000_0000 == m % 0x1_0000_0000_0000_0000 by {
      var q := m / 0x1_0000_0000_0000_0000;
      var rem := m % 0x1_0000_0000_0000_0000;
      assert m + k * 0x1_0000_0000_0000_0000 == (q + k) * 0x1_0000_0000_0000_0000 + rem;
    }
  }

  // ---------------------------------------------------------------------
  // Decimal digits
  // ---------------------------------------------------------------------

  predicate IsDigit(c: char) {
    '0' <= c <= '9'
  }

  predicate AllDigits(s: string) {
    forall i :: 0 <= i < |s| ==> IsDigit(s[i])
  }

  function DigitChar(d: int): (c: char)
    requires 0 <= d < 10
    ensures IsDigit(c)
  {
    "0123456789"[d]
  }

  function DigitValue(c: char): (d: nat)
    requires IsDigit(c)
    ensures d < 10
  {
    (c as int) - ('0' as int)
  }

  /** The shortest decimal rendering of a natural number (no leading zeros). */
  function NatToString(n: nat): (s: string)
    ensures 1 <= |s|
    ensures AllDigits(s)
    ensures n < 10 <==> |s| == 1
    ensures s[0] == '0' <==> n == 0
    ensures n == 0 ==> s == "0"
    decreases n
  {
    if n < 10 then [DigitChar(n)] else NatToString(n / 10) + [DigitChar(n % 10)]
  }

  /** The value of a string of decimal digits; the inverse of NatToString. */
  function ParseNat(s: string): nat
    requires AllDigits(s)
  {
    if |s| == 0 then 0 else ParseNat(s[..|s| - 1]) * 10 + DigitValue(s[|s| - 1])
  }

  lemma {:induction false} ParseNatOfNatToString(n: nat)
    ensures ParseNat(NatToString(n)) == n
    decreases n
  {
    var s := NatToString(n);
    if n >= 10 {
      assert s[..|s| - 1] == NatToString(n / 10);
      ParseNatOfNatToString(n / 10);
    }
  }

  /** A leading zero does not change the value of a digit string. */
  lemma {:induction false} ParseNatLeadingZero(s: string)
    requires AllDigits(s)
    ensures AllDigits("0" + s)
    ensures ParseNat("0" + s) == ParseNat(s)
    decreases |s|
  {
    var t := "0" + s;
    assert AllDigits(t) by {
      forall i | 0 <= i < |t| ensures IsDigit(t[i]) {
        if i > 0 { assert t[i] == s[i - 1]; }
      }
    }
    if |s| > 0 {
      assert t[..|t| - 1] == "0" + s[..|s| - 1];
      ParseNatLeadingZero(s[..|s| - 1]);
    }
  }

  /** `String.valueOf(n)` for a Java int or long: an optional minus sign
      followed by the shortest decimal rendering of the magnitude. */
  function ValueOf(n: int): (s: string)
    ensures 1 <= |s|
    ensures n >= 0 <==> AllDigits(s)
    ensures n < 0 <==> s[0] == '-'
    ensures s[0] == '0' <==> n == 0
    ensures n == 0 ==> s == "0"
    ensures n < 0 ==> |s| >= 2 && s[1] != '0'
  {
    if n < 0 then
      var s := "-" + NatToString(-n);
      assert !IsDigit(s[0]);
      s
    else NatToString(n)
  }

  /** Reads back what ValueOf writes: an optional '-' and at least one digit. */
  function ParseDecimal(s: string): Nullable<int> {
    if |s| >= 2 && s[0] == '-' && AllDigits(s[1..]) then
      var magnitude: int := ParseNat(s[1..]);
      NonNull(-magnitude)
    else if |s| >= 1 && AllDigits(s) then
      var value: int := ParseNat(s);
      NonNull(value)
    else Null
  }

  /** The text `Integer.parseInt` and `Long.parseLong` accept (ASCII digits
      only): what ParseDecimal reads, or a '+' followed by digits. The range
      check is the caller's. */
  function ParseJavaInteger(s: string): (r: Nullable<int>)
    ensures r.NonNull? ==> 1 <= |s|
    ensures |s| >= 1 && s[0] != '+' ==> r == ParseDecimal(s)
    ensures |s| >= 1 && s[0] == '+' ==>
      r == (if |s| >= 2 && AllDigits(s[1..]) then NonNull(ParseNat(s[1..]) as int) else Null)
  {
    if |s| >= 2 && s[0] == '+' && AllDigits(s[1..]) then
      var value: int := ParseNat(s[1..]);
      NonNull(value)
    else if |s| >= 1 && s[0] == '+' then Null
    else ParseDecimal(s)
  }

  lemma ValueOfRoundTrip(n: int)
    ensures ParseDecimal(ValueOf(n)) == NonNull(n)
  {
    var s := ValueOf(n);
    if n < 0 {
      var digits := NatToString(-n);
      assert s == "-" + digits;
      assert s[1..] == digits;
      ParseNatOfNatToString(-n);
      assert !AllDigits(s) by { assert !IsDigit(s[0]); }
    } else {
      ParseNatOfNatToString(n);
    }
  }

  /** `String.format("%02d", n)` for n >= 0 (ASCII digits): at least two
      digits, zero-padded on the left. */
  function Pad2(n: nat): (s: string)
    ensures 2 <= |s|
    ensures AllDigits(s)
    ensures n < 100 <==> |s| == 2
    ensures s[0] == '0' <==> n < 10
  {
    if n < 10 then "0" + NatToString(n) else NatToString(n)
  }

  lemma Pad2RoundTrip(n: nat)
    ensures ParseNat(Pad2(n)) == n
  {
    ParseNatOfNatToString(n);
    if n < 10 {
      ParseNatLeadingZero(NatToString(n));
    }
  }
}
