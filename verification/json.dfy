/**
  A JSON tree, as Gson hands it to the response parsers once the text has
  been read, and the typed accessors the parsers call on a JSON object.

  The accessors convert the way Gson's element classes do:
  - `getAsString` gives a string as it is, a number as the digits it was
    written with, a boolean as "true"/"false";
  - `getAsInt`/`getAsLong` on a number never throw: Gson keeps the literal
    text and narrows it to the Java type, wrapping out-of-range values;
    on a string they parse it with `Integer.parseInt`/`Long.parseLong`,
    which throws on anything out of range or not an integer;
  - an array of exactly one element answers for that element;
  - JSON null and objects have no scalar value, and a missing member is
    a null reference: every such read throws (`Thrown`), and the parsers
    catch it.
 */
module Json {
  import opened JavaLang

  /** Numbers are integers: no response field the parsers read is fractional. */
  datatype Json =
    | JNull
    | JBool(b: bool)
    | JNum(n: int)
    | JStr(s: string)
    | JArr(items: seq<Json>)
    | JObj(fields: map<string, Json>)

  type JsonObject = map<string, Json>

  // ---------------------------------------------------------------------
  // Scalar reads of one element
  // ---------------------------------------------------------------------

  /** `e.getAsString()`. */
  function AsString(j: Json): (r: Try<string>)
    ensures j.JStr? ==> r == Ok(j.s)
    ensures j.JNum? ==> r == Ok(ValueOf(j.n))
    ensures j.JBool? ==> r == Ok(if j.b then "true" else "false")
    ensures j.JArr? && |j.items| == 1 ==> r == AsString(j.items[0])
    ensures j.JArr? && |j.items| != 1 ==> r.Thrown?
    ensures j.JNull? || j.JObj? ==> r.Thrown?
  {
    match j
    case JStr(s) => Ok(s)
    case JNum(n) => Ok(ValueOf(n))
    case JBool(b) => Ok(if b then "true" else "false")
    case JArr(items) => if |items| == 1 then AsString(items[0]) else Thrown
    case _ => Thrown
  }

  /** `e.getAsInt()`. */
  function AsInt(j: Json): (r: Try<int>)
    ensures r.Ok? ==> IsInt32(r.value)
    ensures j.JNum? ==> r == Ok(NarrowToInt(j.n))
    ensures j.JStr? ==>
      var p := ParseJavaInteger(j.s);
      r == (if p.NonNull? && IsInt32(p.value) then Ok(p.value) else Thrown)
    ensures j.JArr? && |j.items| == 1 ==> r == AsInt(j.items[0])
    ensures j.JArr? && |j.items| != 1 ==> r.Thrown?
    ensures j.JNull? || j.JBool? || j.JObj? ==> r.Thrown?
  {
    match j
    case JNum(n) => Ok(NarrowToInt(n))
    case JStr(s) =>
      (match ParseJavaInteger(s)
       case NonNull(n) => if IsInt32(n) then Ok(n) else Thrown
       case Null => Thrown)
    case JArr(items) => if |items| == 1 then AsInt(items[0]) else Thrown
    case _ => Thrown
  }

  /** `e.getAsLong()`. */
  function AsLong(j: Json): (r: Try<int>)
    ensures r.Ok? ==> IsInt64(r.value)
    ensures j.JNum? ==> r == Ok(NarrowToLong(j.n))
    ensures j.JStr? ==>
      var p := ParseJavaInteger(j.s);
      r == (if p.NonNull? && IsInt64(p.value) then Ok(p.value) else Thrown)
    ensures j.JArr? && |j.items| == 1 ==> r == AsLong(j.items[0])
    ensures j.JArr? && |j.items| != 1 ==> r.Thrown?
    ensures j.JNull? || j.JBool? || j.JObj? ==> r.Thrown?
  {
    match j
    case JNum(n) => Ok(NarrowToLong(n))
    case JStr(s) =>
      (match ParseJavaInteger(s)
       case NonNull(n) => if IsInt64(n) then Ok(n) else Thrown
       case Null => Thrown)
    case JArr(items) => if |items| == 1 then AsLong(items[0]) else Thrown
    case _ => Thrown
  }

  /** The text of a number is what `parseInt`/`parseLong` accept, and
      denotes that number. */
  lemma ValueOfIsJavaInteger(n: int)
    ensures ParseJavaInteger(ValueOf(n)) == NonNull(n)
  {
    var s := ValueOf(n);
    assert s[0] != '+' by {
      if n >= 0 { assert IsDigit(s[0]); }
    }
    ValueOfRoundTrip(n);
  }

  /** An int read as text reads back as the same int, and reading the
      number itself gives it unchanged. */
  lemma IntTextReadsBack(n: int)
    requires IsInt32(n)
    ensures AsInt(JStr(ValueOf(n))) == Ok(n)
    ensures AsInt(JNum(n)) == Ok(n)
  {
    ValueOfIsJavaInteger(n);
    NarrowToIntKeepsAndWraps(n, 0);
  }

  /** The long counterpart of IntTextReadsBack. */
  lemma LongTextReadsBack(n: int)
    requires IsInt64(n)
    ensures AsLong(JStr(ValueOf(n))) == Ok(n)
    ensures AsLong(JNum(n)) == Ok(n)
  {
    ValueOfIsJavaInteger(n);
    NarrowToLongKeepsAndWraps(n, 0);
  }

  /** Reading a number as an int wraps around modulo 2^32: a JSON number
      past the int range never throws. */
  lemma IntReadWraps(n: int, k: int)
    ensures AsInt(JNum(n + k * 0x1_0000_0000)) == AsInt(JNum(n))
  {
    var m := n + k * 0x1_0000_0000;
    NarrowToIntKeepsAndWraps(n, k);
    assert AsInt(JNum(m)) == Ok(NarrowToInt(m));
  }

  /** Reading a number as a long wraps around modulo 2^64. */
  lemma LongReadWraps(n: int, k: int)
    ensures AsLong(JNum(n + k * 0x1_0000_0000_0000_0000)) == AsLong(JNum(n))
  {
    var m := n + k * 0x1_0000_0000_0000_0000;
    NarrowToLongKeepsAndWraps(n, k);
    assert AsLong(JNum(m)) == Ok(NarrowToLong(m));
  }

  // ---------------------------------------------------------------------
  // Reads of a member of an object
  // ---------------------------------------------------------------------

  // Readability of a member, and its value once readable: `o.get(k)` is
  // null for an absent key, and any call on it throws.

  predicate HasStr(o: JsonObject, k: string) {
    k in o && AsString(o[k]).Ok?
  }

  function StrAt(o: JsonObject, k: string): string
    requires HasStr(o, k)
  {
    AsString(o[k]).value
  }

  predicate HasInt(o: JsonObject, k: string) {
    k in o && AsInt(o[k]).Ok?
  }

  function IntAt(o: JsonObject, k: string): int
    requires HasInt(o, k)
  {
    AsInt(o[k]).value
  }

  predicate HasLong(o: JsonObject, k: string) {
    k in o && AsLong(o[k]).Ok?
  }

  function LongAt(o: JsonObject, k: string): int
    requires HasLong(o, k)
  {
    AsLong(o[k]).value
  }

  /** `o.get(k).getAsString()`. */
  function GetAsString(o: JsonObject, k: string): (r: Try<string>)
    ensures r.Ok? <==> HasStr(o, k)
    ensures r.Ok? ==> r.value == StrAt(o, k)
  {
    if k in o then AsString(o[k]) else Thrown
  }

  /** `o.get(k).getAsInt()`. */
  function GetAsInt(o: JsonObject, k: string): (r: Try<int>)
    ensures r.Ok? <==> HasInt(o, k)
    ensures r.Ok? ==> r.value == IntAt(o, k) && IsInt32(r.value)
  {
    if k in o then AsInt(o[k]) else Thrown
  }

  /** `o.get(k).getAsLong()`. */
  function GetAsLong(o: JsonObject, k: string): (r: Try<int>)
    ensures r.Ok? <==> HasLong(o, k)
    ensures r.Ok? ==> r.value == LongAt(o, k) && IsInt64(r.value)
  {
    if k in o then AsLong(o[k]) else Thrown
  }

  /** `o.getAsJsonObject(k)`: a cast of the member, so an absent key gives
      null and any member that is not an object (JSON null included) throws. */
  function GetAsJsonObject(o: JsonObject, k: string): (r: Try<Nullable<JsonObject>>)
    ensures r == Ok(Null) <==> k !in o
    ensures r.Thrown? <==> k in o && !o[k].JObj?
    ensures r.Ok? && r.value.NonNull? ==> k in o && o[k] == JObj(r.value.value)
  {
    if k !in o then Ok(Null)
    else if o[k].JObj? then Ok(NonNull(o[k].fields))
    else Thrown
  }

  /** `if (o.has(k)) x = o.get(k).getAsString();`: `has` is true even for a
      member bound to JSON null, and the read then throws. */
  function OptString(o: JsonObject, k: string): (r: Try<Nullable<string>>)
    ensures r == Ok(Null) <==> k !in o
    ensures r.Thrown? <==> k in o && !HasStr(o, k)
    ensures r.Ok? && r.value.NonNull? ==> HasStr(o, k) && r.value.value == StrAt(o, k)
  {
    if k !in o then Ok(Null)
    else
      var s :- GetAsString(o, k);
      Ok(NonNull(s))
  }

  /** `if (o.has(k)) x = o.get(k).getAsInt();` */
  function OptInt(o: JsonObject, k: string): (r: Try<Nullable<int>>)
    ensures r == Ok(Null) <==> k !in o
    ensures r.Thrown? <==> k in o && !HasInt(o, k)
    ensures r.Ok? && r.value.NonNull? ==> HasInt(o, k) && r.value.value == IntAt(o, k)
  {
    if k !in o then Ok(Null)
    else
      var n :- GetAsInt(o, k);
      Ok(NonNull(n))
  }

  /** `if (o.has(k)) x = o.get(k).getAsLong();` */
  function OptLong(o: JsonObject, k: string): (r: Try<Nullable<int>>)
    ensures r == Ok(Null) <==> k !in o
    ensures r.Thrown? <==> k in o && !HasLong(o, k)
    ensures r.Ok? && r.value.NonNull? ==> HasLong(o, k) && r.value.value == LongAt(o, k)
  {
    if k !in o then Ok(Null)
    else
      var n :- GetAsLong(o, k);
      Ok(NonNull(n))
  }

  /** `root.has("code") && root.get("code").getAsInt() == 0`, evaluated inside
      the parser's try block: absent means false, unreadable means thrown. */
  function CodeIsZero(o: JsonObject): (r: Try<bool>)
    ensures r == Ok(true) <==> HasInt(o, "code") && IntAt(o, "code") == 0
    ensures r.Thrown? <==> "code" in o && !HasInt(o, "code")
  {
    if "code" !in o then Ok(false)
    else
      var code :- GetAsInt(o, "code");
      Ok(code == 0)
  }

  /** The success test accepts the code written as a string. */
  lemma CodeIsZeroAcceptsText(o: JsonObject)
    ensures CodeIsZero(o["code" := JStr("0")]) == Ok(true)
  {
    assert ParseJavaInteger("0") == NonNull(0) by {
      assert AllDigits("0") && ParseNat("0") == 0 by {
        assert "0"[..0] == "";
      }
    }
  }

  /** Through the int narrowing, the success test also accepts a code that
      is a nonzero multiple of 2^32. */
  lemma CodeIsZeroAcceptsWrappedZero(o: JsonObject, k: int)
    ensures CodeIsZero(o["code" := JNum(k * 0x1_0000_0000)]) == Ok(true)
  {
    IntReadWraps(0, k);
    NarrowToIntKeepsAndWraps(0, 0);
  }
}
