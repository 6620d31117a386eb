/**
  The scrolling-comment overlay (DanmakuManager.java). The manager holds a
  comment buffer, the `isRunning` and `isPaused` flags, and the container
  whose children are the comments in flight. Each child is an Element: the
  TextView's text, the lane and margins it was laid out with, and the
  animation it runs, from the right edge of the screen to minus its width.

  Randomness (`random.nextInt`) and text measurement are inputs: a Draw holds
  what the two `nextInt` calls returned and the measured width.
 */
module Danmaku {
  import opened JavaLang

  const DANMAKU_HEIGHT: int := 48
  const DANMAKU_PADDING: int := 8
  const DANMAKU_SPEED_BASE: int := 10000
  const DANMAKU_SPEED_VARIANCE: int := 5000

  /** One comment view in the container. `view` stands for the view object's
      identity: two comments with the same text are still two views. */
  datatype Element = Element(
    view: nat,
    text: string,
    row: int,
    topMargin: int,
    leftMargin: int,
    duration: int,
    animateTo: int)

  datatype Manager = Manager(
    screenWidth: int,
    screenHeight: int,
    buffer: Nullable<seq<string>>,
    isRunning: bool,
    isPaused: bool,
    container: multiset<Element>,
    nextView: nat)

  /** What `addDanmaku` gets from its environment: the lane from
      `random.nextInt(maxRow)`, the speed jitter from
      `random.nextInt(DANMAKU_SPEED_VARIANCE)`, and the measured text width. */
  datatype Draw = Draw(row: int, jitter: int, width: int)

  /** `(int) ((screenHeight * 0.6) / DANMAKU_HEIGHT)`, computed exactly: the
      cast truncates toward zero, and 0.6 / 48 is 1 / 80. */
  function MaxRow(screenHeight: int): (n: int)
    ensures screenHeight >= 0 ==> n * 80 <= screenHeight < (n + 1) * 80
    ensures n >= 1 <==> screenHeight >= 80
  {
    if screenHeight >= 0 then screenHeight / 80 else -((-screenHeight) / 80)
  }

  /** The contract of `java.util.Random.nextInt(bound)` for the two draws:
      a value in `[0, bound)` whenever the bound is positive. */
  predicate DrawFits(m: Manager, d: Draw) {
    && (MaxRow(m.screenHeight) >= 1 ==> 0 <= d.row < MaxRow(m.screenHeight))
    && 0 <= d.jitter < DANMAKU_SPEED_VARIANCE
  }

  /** The guard of `addDanmaku`: text present, non-empty, and not paused.
      `isRunning` plays no part. */
  predicate Admits(m: Manager, text: Nullable<string>) {
    !m.isPaused && text.NonNull? && |text.value| > 0
  }

  /** The container never holds a view twice, and every view was handed out
      by this manager. */
  predicate WellFormed(m: Manager) {
    forall e :: e in m.container ==> m.container[e] == 1 && e.view < m.nextView
  }

  // ---------------------------------------------------------------------
  // Construction and the comment buffer
  // ---------------------------------------------------------------------

  /** The constructor: running, not paused, empty buffer, empty container. */
  function New(screenWidth: int, screenHeight: int): (m: Manager)
    ensures m.isRunning && !m.isPaused
    ensures m.buffer == NonNull([])
    ensures |m.container| == 0
    ensures m.screenWidth == screenWidth && m.screenHeight == screenHeight
    ensures WellFormed(m)
  {
    Manager(screenWidth, screenHeight, NonNull([]), true, false, multiset{}, 0)
  }

  /** The 26 demo comments `loadDemoDanmaku` appends. */
  const DEMO_DANMAKU: seq<string> := [
    "前面的区域以后再来探索吧", "23333333", "好耶！", "这个太棒了", "666666",
    "UP主太强了", "这也太帅了吧", "期待下一期", "画质真不错", "收藏了",
    "已投币", "三连支持", "这技术可以啊", "学到了", "这就是专业",
    "太强了", "大佬大佬", "爱了爱了", "绝了", "yyds",
    "前方高能", "火钳刘明", "弹幕护体", "前方高能预警", "见证历史",
    "高能预警"]

  lemma DemoDanmakuShape()
    ensures |DEMO_DANMAKU| == 26
    ensures forall i :: 0 <= i < |DEMO_DANMAKU| ==> |DEMO_DANMAKU[i]| > 0
  {
  }

  /** `loadDanmaku(url)`: the url is only logged; the demo comments are
      appended to the buffer, which throws once `release` has nulled it. */
  function LoadDanmaku(m: Manager, url: Nullable<string>): (r: Try<Manager>)
    ensures m.buffer.Null? <==> r.Thrown?
    ensures r.Ok? ==> r.value.buffer == NonNull(m.buffer.value + DEMO_DANMAKU)
    ensures r.Ok? ==> r.value.container == m.container
    ensures r.Ok? ==> r.value.isPaused == m.isPaused && r.value.isRunning == m.isRunning
    ensures r.Ok? ==> r.value.screenWidth == m.screenWidth && r.value.screenHeight == m.screenHeight
    ensures r.Ok? ==> r.value.nextView == m.nextView
  {
    match m.buffer
    case Null => Thrown
    case NonNull(list) => Ok(m.(buffer := NonNull(list + DEMO_DANMAKU)))
  }

  // ---------------------------------------------------------------------
  // addDanmaku and the animation
  // ---------------------------------------------------------------------

  /** The view `addDanmaku` lays out: lane `row`, top margin `row * 48 + 8`,
      left margin at the right edge, and an animation of 10 to 15 seconds
      towards minus the measured width. */
  function NewElement(m: Manager, text: string, d: Draw): (e: Element)
    requires DrawFits(m, d) && MaxRow(m.screenHeight) >= 1
    ensures e.text == text && e.view == m.nextView
    ensures e.row == d.row && e.duration == DANMAKU_SPEED_BASE + d.jitter
    ensures 0 <= e.row < MaxRow(m.screenHeight)
    ensures e.topMargin == e.row * DANMAKU_HEIGHT + DANMAKU_PADDING
    ensures DANMAKU_PADDING <= e.topMargin < MaxRow(m.screenHeight) * DANMAKU_HEIGHT + DANMAKU_PADDING
    ensures DANMAKU_SPEED_BASE <= e.duration < DANMAKU_SPEED_BASE + DANMAKU_SPEED_VARIANCE
    ensures e.leftMargin == m.screenWidth && e.animateTo == -d.width
  {
    Element(m.nextView, text, d.row, d.row * DANMAKU_HEIGHT + DANMAKU_PADDING,
            m.screenWidth, DANMAKU_SPEED_BASE + d.jitter, -d.width)
  }

  /** `addDanmaku(text)`. A rejected comment changes nothing. An admitted one
      adds exactly one view and keeps every view already there; when no lane
      fits (`maxRow < 1`) `nextInt` throws before anything is added. */
  function AddDanmaku(m: Manager, text: Nullable<string>, d: Draw): (r: Try<Manager>)
    requires DrawFits(m, d)
    ensures !Admits(m, text) ==> r == Ok(m)
    ensures Admits(m, text) && MaxRow(m.screenHeight) < 1 ==> r.Thrown?
    ensures Admits(m, text) && MaxRow(m.screenHeight) >= 1 ==>
      && r.Ok?
      && r.value.container == m.container + multiset{NewElement(m, text.value, d)}
      && |r.value.container| == |m.container| + 1
      && m.container <= r.value.container
      && r.value.isPaused == m.isPaused && r.value.isRunning == m.isRunning
      && r.value.buffer == m.buffer
      && r.value.screenWidth == m.screenWidth && r.value.screenHeight == m.screenHeight
      && r.value.nextView == m.nextView + 1
    ensures WellFormed(m) && r.Ok? ==> WellFormed(r.value)
  {
    if m.isPaused || text.Null? || |text.value| == 0 then Ok(m)
    else if MaxRow(m.screenHeight) < 1 then Thrown
    else
      var e := NewElement(m, text.value, d);
      var r := m.(container := m.container + multiset{e}, nextView := m.nextView + 1);
      assert WellFormed(m) ==> WellFormed(r) by {
        if WellFormed(m) {
          assert m.container[e] == 0;
        }
      }
      Ok(r)
  }

  /** The animation's end listener: `container.removeView(view)`. It removes
      that one view and leaves every other view where it was; for a view that
      is no longer a child (after `clear`) it does nothing. */
  function AnimationEnd(m: Manager, e: Element): (r: Manager)
    ensures forall x :: x != e ==> r.container[x] == m.container[x]
    ensures WellFormed(m) ==> e !in r.container
    ensures e !in m.container ==> r == m
    ensures e in m.container && WellFormed(m) ==> |r.container| == |m.container| - 1
    ensures r.isPaused == m.isPaused && r.isRunning == m.isRunning && r.buffer == m.buffer
    ensures r.screenWidth == m.screenWidth && r.screenHeight == m.screenHeight && r.nextView == m.nextView
    ensures WellFormed(m) ==> WellFormed(r)
  {
    var r := m.(container := m.container - multiset{e});
    assert e !in m.container ==> r.container == m.container;
    r
  }

  // ---------------------------------------------------------------------
  // Lifecycle
  // ---------------------------------------------------------------------

  /** `start()`: unpaused and running; nothing else changes. */
  function Start(m: Manager): (r: Manager)
    ensures !r.isPaused && r.isRunning
    ensures r.container == m.container && r.buffer == m.buffer && r.nextView == m.nextView
    ensures r.screenWidth == m.screenWidth && r.screenHeight == m.screenHeight
  {
    m.(isPaused := false, isRunning := true)
  }

  /** `pause()`: only the paused flag changes; views in flight stay. */
  function Pause(m: Manager): (r: Manager)
    ensures r.isPaused && r.isRunning == m.isRunning
    ensures r.container == m.container && r.buffer == m.buffer && r.nextView == m.nextView
    ensures r.screenWidth == m.screenWidth && r.screenHeight == m.screenHeight
  {
    m.(isPaused := true)
  }

  /** `stop()`: not running, and not paused either, so comments are admitted
      again; views in flight stay. */
  function Stop(m: Manager): (r: Manager)
    ensures !r.isPaused && !r.isRunning
    ensures r.container == m.container && r.buffer == m.buffer && r.nextView == m.nextView
    ensures r.screenWidth == m.screenWidth && r.screenHeight == m.screenHeight
  {
    m.(isRunning := false, isPaused := false)
  }

  /** `clear()`: every view leaves the container; the flags and the buffer
      are untouched. The animators are not cancelled. */
  function Clear(m: Manager): (r: Manager)
    ensures |r.container| == 0
    ensures r.isPaused == m.isPaused && r.isRunning == m.isRunning && r.buffer == m.buffer
    ensures r.screenWidth == m.screenWidth && r.screenHeight == m.screenHeight && r.nextView == m.nextView
    ensures WellFormed(r)
  {
    m.(container := multiset{})
  }

  /** `release()`: clear, stop running, and drop the buffer. The paused flag
      is left as it was. */
  function Release(m: Manager): (r: Manager)
    ensures |r.container| == 0
    ensures !r.isRunning && r.isPaused == m.isPaused
    ensures r.buffer == Null
    ensures r.screenWidth == m.screenWidth && r.screenHeight == m.screenHeight && r.nextView == m.nextView
    ensures WellFormed(r)
  {
    var r := Clear(m).(isRunning := false);
    match r.buffer
    case NonNull(_) => r.(buffer := Null)
    case Null => r
  }

  // ---------------------------------------------------------------------
  // Properties across calls
  // ---------------------------------------------------------------------

  /** A second `release()` is a no-op thanks to the null check on the buffer. */
  lemma ReleaseIdempotent(m: Manager)
    ensures Release(Release(m)) == Release(m)
  {
  }

  /** `release()` does not stop admission: an unpaused manager still accepts
      a comment afterwards, and the comment is then the only view. */
  lemma ReleaseStillAdmits(m: Manager, text: string, d: Draw)
    requires !m.isPaused && |text| > 0
    requires MaxRow(m.screenHeight) >= 1 && DrawFits(m, d)
    ensures DrawFits(Release(m), d)
    ensures AddDanmaku(Release(m), NonNull(text), d).Ok?
    ensures |AddDanmaku(Release(m), NonNull(text), d).value.container| == 1
  {
  }

  /** After `release()` the buffer is gone and `loadDanmaku` throws. */
  lemma LoadAfterReleaseThrows(m: Manager, url: Nullable<string>)
    ensures LoadDanmaku(Release(m), url).Thrown?
  {
  }

  /** Every load appends the same 26 comments again. */
  lemma LoadTwiceAppendsTwice(m: Manager, url: Nullable<string>)
    requires m.buffer.NonNull?
    ensures LoadDanmaku(m, url).Ok?
    ensures LoadDanmaku(LoadDanmaku(m, url).value, url).Ok?
    ensures LoadDanmaku(LoadDanmaku(m, url).value, url).value.buffer
            == NonNull(m.buffer.value + DEMO_DANMAKU + DEMO_DANMAKU)
  {
    assert m.buffer.value + DEMO_DANMAKU + DEMO_DANMAKU == (m.buffer.value + DEMO_DANMAKU) + DEMO_DANMAKU;
  }

  /** While paused every comment is rejected; `start()` and `stop()` both
      re-enable admission. */
  lemma PauseBlocksUntilStartOrStop(m: Manager, text: string, d: Draw)
    requires |text| > 0 && MaxRow(m.screenHeight) >= 1 && DrawFits(m, d)
    ensures AddDanmaku(Pause(m), NonNull(text), d) == Ok(Pause(m))
    ensures AddDanmaku(Start(Pause(m)), NonNull(text), d).Ok?
    ensures |AddDanmaku(Start(Pause(m)), NonNull(text), d).value.container| == |m.container| + 1
    ensures AddDanmaku(Stop(Pause(m)), NonNull(text), d).Ok?
    ensures |AddDanmaku(Stop(Pause(m)), NonNull(text), d).value.container| == |m.container| + 1
  {
  }

  /** An animation that ends after `clear()` finds nothing to remove. */
  lemma LateAnimationEndIsNoOp(m: Manager, e: Element)
    ensures AnimationEnd(Clear(m), e) == Clear(m)
  {
  }

  /** The scenario of the overlay's own test: on a 1920x1080 surface, "Test"
      is admitted, the empty and the absent text are not, and `clear()`
      empties the container. */
  lemma AdmissionScenario(d: Draw)
    requires DrawFits(New(1920, 1080), d)
    ensures MaxRow(1080) == 13
    ensures var m1 := AddDanmaku(New(1920, 1080), NonNull("Test"), d);
      && m1.Ok? && |m1.value.container| == 1
      && DrawFits(m1.value, d)
      && var m2 := AddDanmaku(m1.value, NonNull(""), d);
      && m2 == m1
      && var m3 := AddDanmaku(m2.value, Null, d);
      && m3 == m1
      && |Clear(m3.value).container| == 0
  {
  }

  // ---------------------------------------------------------------------
  // Any sequence of calls
  // ---------------------------------------------------------------------

  /** A call into the manager, as a playback screen would make it. */
  datatype Call =
    | CallAdd(text: Nullable<string>, draw: Draw)
    | CallEnd(element: Element)
    | CallLoad(url: Nullable<string>)
    | CallStart | CallPause | CallStop | CallClear | CallRelease

  /** Every draw in the calls respects `nextInt`'s contract for a surface of
      the given height. */
  predicate CallsFit(screenHeight: int, calls: seq<Call>) {
    forall i :: 0 <= i < |calls| && calls[i].CallAdd? ==>
      var d := calls[i].draw;
      && (MaxRow(screenHeight) >= 1 ==> 0 <= d.row < MaxRow(screenHeight))
      && 0 <= d.jitter < DANMAKU_SPEED_VARIANCE
  }

  function Step(m: Manager, c: Call): (r: Try<Manager>)
    requires c.CallAdd? ==> DrawFits(m, c.draw)
    ensures r.Ok? ==> r.value.screenHeight == m.screenHeight
  {
    match c
    case CallAdd(text, d) => AddDanmaku(m, text, d)
    case CallEnd(e) => Ok(AnimationEnd(m, e))
    case CallLoad(url) => LoadDanmaku(m, url)
    case CallStart => Ok(Start(m))
    case CallPause => Ok(Pause(m))
    case CallStop => Ok(Stop(m))
    case CallClear => Ok(Clear(m))
    case CallRelease => Ok(Release(m))
  }

  /** Runs the calls in order; an exception ends the run. */
  function Run(m: Manager, calls: seq<Call>): (r: Try<Manager>)
    requires CallsFit(m.screenHeight, calls)
    ensures r.Ok? ==> r.value.screenHeight == m.screenHeight
    decreases |calls|
  {
    if |calls| == 0 then Ok(m)
    else
      var next :- Step(m, calls[0]);
      assert CallsFit(next.screenHeight, calls[1..]) by {
        forall i | 0 <= i < |calls[1..]| && calls[1..][i].CallAdd?
          ensures var d := calls[1..][i].draw;
            && (MaxRow(next.screenHeight) >= 1 ==> 0 <= d.row < MaxRow(next.screenHeight))
            && 0 <= d.jitter < DANMAKU_SPEED_VARIANCE
        {
          assert calls[1..][i] == calls[i + 1];
        }
      }
      Run(next, calls[1..])
  }

  /** No sequence of calls ever puts the same view into the container twice. */
  lemma {:induction false} RunPreservesWellFormed(m: Manager, calls: seq<Call>)
    requires WellFormed(m) && CallsFit(m.screenHeight, calls)
    ensures Run(m, calls).Ok? ==> WellFormed(Run(m, calls).value)
    decreases |calls|
  {
    if |calls| > 0 {
      var s := Step(m, calls[0]);
      if s.Ok? {
        assert WellFormed(s.value);
        assert CallsFit(s.value.screenHeight, calls[1..]) by {
          forall i | 0 <= i < |calls[1..]| && calls[1..][i].CallAdd?
            ensures var d := calls[1..][i].draw;
              && (MaxRow(s.value.screenHeight) >= 1 ==> 0 <= d.row < MaxRow(s.value.screenHeight))
              && 0 <= d.jitter < DANMAKU_SPEED_VARIANCE
          {
            assert calls[1..][i] == calls[i + 1];
          }
        }
        RunPreservesWellFormed(s.value, calls[1..]);
      }
    }
  }
}
