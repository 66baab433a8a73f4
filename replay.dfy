/** The chart replay of Data_analysis.py: a cursor into an immutable,
    time-sorted candle series, moved once per pass of the page script. The
    widgets are not modelled; each pass receives their values (the window
    size chosen on the slider and the auto-play toggle) as parameters. */
module Replay {
  import opened Candles

  /** The smallest window the "Visible candles" slider offers; its largest is
      the length of the series. */
  const MIN_WINDOW := 20

  datatype Option<T> = None | Some(value: T)

  /** The widget values one pass of the script reads. */
  datatype Controls = Controls(window: int, autoPlay: bool)

  // ---------------------------------------------------------------------
  // The cursor, as a function of the state before a pass and its controls
  // ---------------------------------------------------------------------

  /** The cursor once a pass has made sure it exists: an existing cursor is
      kept, a missing one starts at the window size. */
  function StartCursor(initialised: bool, cursor: int, window: int): (c: int)
    ensures initialised ==> c == cursor
    ensures !initialised ==> c == window
  {
    if initialised then cursor else window
  }

  /** One candle more, unless the whole series is already visible. */
  function Advance(c: int, n: int): (a: int) {
    if c < n then c + 1 else c
  }

  /** The cursor after one pass over a series of length `n`: playing
      advances it by at most one candle and never past the end, paused
      resets it to the window size. */
  function StepCursor(initialised: bool, cursor: int, window: int, autoPlay: bool, n: int): (c: int)
    ensures !autoPlay ==> c == window
    ensures autoPlay ==> StartCursor(initialised, cursor, window) <= c <= StartCursor(initialised, cursor, window) + 1
    ensures autoPlay && StartCursor(initialised, cursor, window) <= n ==> c <= n
  {
    var c := StartCursor(initialised, cursor, window);
    if autoPlay then Advance(c, n) else window
  }

  /** Whether the pass ends by scheduling another pass of the script: exactly
      when it has just moved the cursor one candle further. */
  predicate Reruns(initialised: bool, cursor: int, window: int, autoPlay: bool, n: int)
    ensures Reruns(initialised, cursor, window, autoPlay, n) <==>
      autoPlay && StepCursor(initialised, cursor, window, autoPlay, n) == StartCursor(initialised, cursor, window) + 1
  {
    autoPlay && StartCursor(initialised, cursor, window) < n
  }

  /** The cursor after a sequence of passes from the state `(initialised,
      c0)`, where the first pass creates a missing cursor. With windows the
      slider allows, once the cursor exists it never leaves the slider's
      range. */
  function CursorAfter(initialised: bool, c0: int, passes: seq<Controls>, n: int): (c: int)
    ensures (initialised ==> MIN_WINDOW <= c0 <= n) && WindowsInRange(passes, n) && (initialised || |passes| > 0)
      ==> MIN_WINDOW <= c <= n
    decreases |passes|
  {
    if passes == [] then c0
    else
      var front, last := passes[..|passes| - 1], passes[|passes| - 1];
      assert WindowsInRange(passes, n) ==> WindowsInRange(front, n) by {
        if WindowsInRange(passes, n) {
          forall i | 0 <= i < |front| ensures MIN_WINDOW <= front[i].window <= n {
            assert front[i] == passes[i];
          }
        }
      }
      StepCursor(initialised || |front| > 0, CursorAfter(initialised, c0, front, n), last.window, last.autoPlay, n)
  }

  /** Every pass offers a window the slider allows. */
  predicate WindowsInRange(passes: seq<Controls>, n: int) {
    forall i :: 0 <= i < |passes| ==> MIN_WINDOW <= passes[i].window <= n
  }

  /** Auto-play stays on throughout. */
  predicate AllPlaying(passes: seq<Controls>) {
    forall i :: 0 <= i < |passes| ==> passes[i].autoPlay
  }

  function Min(a: int, b: int): (m: int) {
    if a <= b then a else b
  }

  // ---------------------------------------------------------------------
  // Properties of one pass
  // ---------------------------------------------------------------------

  /** Playing below the end moves the cursor by exactly one and reruns. */
  lemma PlayingStepAdvancesByOne(initialised: bool, cursor: int, window: int, n: int)
    requires StartCursor(initialised, cursor, window) < n
    ensures StepCursor(initialised, cursor, window, true, n) == StartCursor(initialised, cursor, window) + 1
    ensures Reruns(initialised, cursor, window, true, n)
  {
  }

  /** A replay that has shown the whole series stays there and stops rerunning. */
  lemma ExhaustedReplayIsFixedPoint(window: int, n: int)
    ensures StepCursor(true, n, window, true, n) == n
    ensures !Reruns(true, n, window, true, n)
  {
  }

  /** Pausing is a reset to the window size, whatever the cursor was, and a
      second paused pass changes nothing. */
  lemma PauseResetsToWindow(initialised: bool, cursor: int, window: int, n: int)
    ensures StepCursor(initialised, cursor, window, false, n) == window
    ensures !Reruns(initialised, cursor, window, false, n)
    ensures StepCursor(true, StepCursor(initialised, cursor, window, false, n), window, false, n)
         == StepCursor(initialised, cursor, window, false, n)
  {
  }

  /** A pass with a window the slider allows keeps the cursor in range. */
  lemma StepStaysInRange(initialised: bool, cursor: int, window: int, autoPlay: bool, n: int)
    requires initialised ==> MIN_WINDOW <= cursor <= n
    requires MIN_WINDOW <= window <= n
    ensures MIN_WINDOW <= StepCursor(initialised, cursor, window, autoPlay, n) <= n
  {
  }

  // ---------------------------------------------------------------------
  // Properties of a sequence of passes
  // ---------------------------------------------------------------------

  /** While auto-play stays on, k passes show k more candles, up to the
      whole series. */
  lemma {:induction false} PlayingCursorAfter(c: int, passes: seq<Controls>, n: int)
    requires c <= n
    requires AllPlaying(passes)
    ensures CursorAfter(true, c, passes, n) == Min(c + |passes|, n)
    decreases |passes|
  {
    if passes != [] {
      var front := passes[..|passes| - 1];
      assert AllPlaying(front) by {
        forall i | 0 <= i < |front| ensures front[i].autoPlay {
          assert front[i] == passes[i];
        }
      }
      PlayingCursorAfter(c, front, n);
    }
  }

  /** While auto-play stays on the cursor never goes back. */
  lemma PlayingNeverRewinds(c: int, passes: seq<Controls>, n: int, i: nat, j: nat)
    requires c <= n
    requires AllPlaying(passes)
    requires i <= j <= |passes|
    ensures c <= CursorAfter(true, c, passes[..i], n) <= CursorAfter(true, c, passes[..j], n) <= n
  {
    assert AllPlaying(passes[..i]) by {
      forall k | 0 <= k < i ensures passes[..i][k].autoPlay {
        assert passes[..i][k] == passes[k];
      }
    }
    assert AllPlaying(passes[..j]) by {
      forall k | 0 <= k < j ensures passes[..j][k].autoPlay {
        assert passes[..j][k] == passes[k];
      }
    }
    PlayingCursorAfter(c, passes[..i], n);
    PlayingCursorAfter(c, passes[..j], n);
  }

  /** A paused pass forgets everything the replay did before it. */
  lemma PauseForgetsHistory(initialised: bool, c: int, passes: seq<Controls>, window: int, n: int)
    ensures CursorAfter(initialised, c, passes + [Controls(window, false)], n) == window
  {
    assert (passes + [Controls(window, false)])[..|passes|] == passes;
  }

  // ---------------------------------------------------------------------
  // What a pass draws
  // ---------------------------------------------------------------------

  /** What the chart and the info panel show: the first `c` candles, and the
      last of them as the current candle. */
  datatype Frame = Frame(visible: seq<Candle>, current: Candle)

  /** The visible slice is the prefix of length `c`; the current candle is
      its last. */
  function FrameAt(series: seq<Candle>, c: int): (f: Frame)
    requires 1 <= c <= |series|
    ensures |f.visible| == c && f.visible <= series
    ensures f.current == series[c - 1] && f.current == f.visible[c - 1]
  {
    var visible := series[..c];
    Frame(visible, visible[|visible| - 1])
  }

  /** In a sorted series no visible candle is later than the current one. */
  lemma CurrentCandleIsLatest(series: seq<Candle>, c: int)
    requires 1 <= c <= |series|
    requires SortedByTime(series)
    ensures forall i :: 0 <= i < |FrameAt(series, c).visible| ==>
      FrameAt(series, c).visible[i].time <= FrameAt(series, c).current.time
  {
    var f := FrameAt(series, c);
    forall i | 0 <= i < |f.visible|
      ensures f.visible[i].time <= f.current.time
    {
      if i < c - 1 {
        assert f.visible[i] == series[i];
      }
    }
  }

  /** The frames drawn by the chain of auto-play passes that starts from an
      existing cursor `c`, as the script is written: a pass that advances
      the cursor reruns the script before it reaches the chart, so it draws
      nothing, and only the pass that finds the series exhausted draws. */
  function DrawnWhilePlaying(series: seq<Candle>, window: int, c: int): (frames: seq<Frame>)
    requires 1 <= c <= |series|
    decreases |series| - c
  {
    if Reruns(true, c, window, true, |series|) then DrawnWhilePlaying(series, window, c + 1)
    else [FrameAt(series, c)]
  }

  /** As written, a playing replay draws one chart only: the whole series. */
  lemma {:induction false} OnlyFullChartIsDrawn(series: seq<Candle>, window: int, c: int)
    requires 1 <= c <= |series|
    ensures DrawnWhilePlaying(series, window, c) == [FrameAt(series, |series|)]
    decreases |series| - c
  {
    if c < |series| {
      OnlyFullChartIsDrawn(series, window, c + 1);
    }
  }

  /** For a series of 500 candles replayed from a window of 100, no chart
      with 150 candles is drawn. */
  lemma MidReplayChartIsNeverDrawn(series: seq<Candle>, window: int)
    requires |series| == 500
    ensures forall f :: f in DrawnWhilePlaying(series, window, 100) ==> |f.visible| != 150
  {
    OnlyFullChartIsDrawn(series, window, 100);
  }

  /** The same chain when each pass draws before it sleeps and reruns. */
  function DrawnWhilePlayingCorrected(series: seq<Candle>, window: int, c: int): (frames: seq<Frame>)
    requires 1 <= c <= |series|
    decreases |series| - c
  {
    if Reruns(true, c, window, true, |series|)
    then [FrameAt(series, c + 1)] + DrawnWhilePlayingCorrected(series, window, c + 1)
    else [FrameAt(series, c)]
  }

  /** Drawing before rerunning draws one frame per pass, `n - c + 1` in all,
      frame i showing `min(c + 1 + i, n)` candles. When `c < n` these are the
      prefixes of `c + 1`, `c + 2`, ... up to `n` candles, the full chart
      drawn twice (by the pass that reaches the end and by the pass that
      finds it exhausted); when `c == n` it is the full chart alone. */
  lemma {:induction false} EveryCountIsDrawn(series: seq<Candle>, window: int, c: int)
    requires 1 <= c <= |series|
    ensures |DrawnWhilePlayingCorrected(series, window, c)| == |series| - c + 1
    ensures forall i :: 0 <= i < |DrawnWhilePlayingCorrected(series, window, c)| ==>
      DrawnWhilePlayingCorrected(series, window, c)[i] == FrameAt(series, Min(c + 1 + i, |series|))
    decreases |series| - c
  {
    var n := |series|;
    var frames := DrawnWhilePlayingCorrected(series, window, c);
    if c < n {
      var rest := DrawnWhilePlayingCorrected(series, window, c + 1);
      EveryCountIsDrawn(series, window, c + 1);
      forall i | 0 <= i < |frames|
        ensures frames[i] == FrameAt(series, Min(c + 1 + i, n))
      {
        if i > 0 {
          assert frames[i] == rest[i - 1] == FrameAt(series, Min(c + 1 + 1 + (i - 1), n));
        }
      }
    }
  }

  // ---------------------------------------------------------------------
  // The session
  // ---------------------------------------------------------------------

  /** One user's replay: the loaded series and the cursor kept in the
      session state, which is missing until the first pass creates it. */
  class ReplaySession {
    const series: seq<Candle>
    var initialised: bool
    var cursor: int

    /** Every reachable state: the series is sorted by time, as loading
        leaves it, and once it exists the cursor lies within the slider's
        bounds. */
    ghost predicate Valid()
      reads this
    {
      SortedByTime(series) &&
      (initialised ==> MIN_WINDOW <= cursor <= |series|)
    }

    /** A new session over a loaded series, without a cursor yet. */
    constructor (series: seq<Candle>)
      requires SortedByTime(series)
      ensures this.series == series
      ensures !initialised && Valid()
    {
      this.series := series;
      initialised := false;
      cursor := 0;
    }

    /** The replay part of one pass: create the cursor if missing, then
        advance it (and ask for a rerun) while playing, or reset it to the
        window size while paused. */
    method Step(window: int, autoPlay: bool) returns (rerun: bool)
      requires Valid()
      requires MIN_WINDOW <= window <= |series|
      modifies this
      ensures Valid() && initialised
      ensures cursor == StepCursor(old(initialised), old(cursor), window, autoPlay, |series|)
      ensures rerun == Reruns(old(initialised), old(cursor), window, autoPlay, |series|)
    {
      if !initialised {
        cursor := window;
        initialised := true;
      }
      rerun := false;
      if autoPlay {
        if cursor < |series| {
          cursor := cursor + 1;
          rerun := true;
        }
      } else {
        cursor := window;
      }
    }

    /** A whole pass as written: the replay step, then, unless the pass
        reruns first, the chart and the current candle. */
    method Pass(window: int, autoPlay: bool) returns (drawn: Option<Frame>)
      requires Valid()
      requires MIN_WINDOW <= window <= |series|
      modifies this
      ensures Valid() && initialised
      ensures cursor == StepCursor(old(initialised), old(cursor), window, autoPlay, |series|)
      ensures drawn.None? <==> Reruns(old(initialised), old(cursor), window, autoPlay, |series|)
      ensures drawn.Some? ==> drawn.value == FrameAt(series, cursor)
      ensures drawn.Some? ==> forall i :: 0 <= i < |drawn.value.visible| ==>
        drawn.value.visible[i].time <= drawn.value.current.time
    {
      var rerun := Step(window, autoPlay);
      if rerun {
        drawn := None;
      } else {
        drawn := Some(FrameAt(series, cursor));
        CurrentCandleIsLatest(series, cursor);
      }
    }

    /** The self-rerunning chain of passes while auto-play stays on: it ends
        with the whole series visible after exactly as many reruns as there
        were hidden candles, and of all its passes only the last draws, and
        it draws the full chart. */
    method AutoReplay(window: int) returns (reruns: nat, frames: seq<Frame>)
      requires Valid()
      requires MIN_WINDOW <= window <= |series|
      modifies this
      ensures Valid() && initialised
      ensures cursor == |series|
      ensures reruns == |series| - StartCursor(old(initialised), old(cursor), window)
      ensures frames == DrawnWhilePlaying(series, window, StartCursor(old(initialised), old(cursor), window))
      ensures frames == [FrameAt(series, |series|)]
    {
      ghost var start := StartCursor(initialised, cursor, window);
      reruns := 0;
      frames := [];
      var frame := Pass(window, true);
      if frame.Some? {
        frames := frames + [frame.value];
      }
      while frame.None?
        invariant Valid() && initialised
        invariant frame.None? ==> cursor == start + reruns + 1 <= |series|
        invariant frame.None? ==> frames + DrawnWhilePlaying(series, window, cursor) == DrawnWhilePlaying(series, window, start)
        invariant frame.Some? ==> cursor == start + reruns == |series|
        invariant frame.Some? ==> frames == DrawnWhilePlaying(series, window, start)
        decreases |series| - cursor + (if frame.None? then 1 else 0)
      {
        reruns := reruns + 1;
        frame := Pass(window, true);
        if frame.Some? {
          frames := frames + [frame.value];
        }
      }
      OnlyFullChartIsDrawn(series, window, start);
    }

    /** A whole pass with the drawing moved before the rerun: the replay
        step, then the chart and the current candle, whether or not the pass
        goes on to rerun. */
    method PassDrawingFirst(window: int, autoPlay: bool) returns (rerun: bool, drawn: Frame)
      requires Valid()
      requires MIN_WINDOW <= window <= |series|
      modifies this
      ensures Valid() && initialised
      ensures cursor == StepCursor(old(initialised), old(cursor), window, autoPlay, |series|)
      ensures rerun == Reruns(old(initialised), old(cursor), window, autoPlay, |series|)
      ensures drawn == FrameAt(series, cursor)
    {
      rerun := Step(window, autoPlay);
      drawn := FrameAt(series, cursor);
    }

    /** The chain of auto-play passes built from PassDrawingFirst: when the
        start is below the end it draws every prefix from one candle past the
        start to the whole series, which it draws twice; from the end it
        draws the whole series once. */
    method AutoReplayDrawingEachPass(window: int) returns (frames: seq<Frame>)
      requires Valid()
      requires MIN_WINDOW <= window <= |series|
      modifies this
      ensures Valid() && initialised
      ensures cursor == |series|
      ensures frames == DrawnWhilePlayingCorrected(series, window, StartCursor(old(initialised), old(cursor), window))
      ensures |frames| == |series| - StartCursor(old(initialised), old(cursor), window) + 1
      ensures forall i :: 0 <= i < |frames| ==>
        frames[i] == FrameAt(series, Min(StartCursor(old(initialised), old(cursor), window) + 1 + i, |series|))
    {
      ghost var start := StartCursor(initialised, cursor, window);
      ghost var n := |series|;
      var rerun, frame := PassDrawingFirst(window, true);
      frames := [frame];
      while rerun
        invariant Valid() && initialised
        invariant rerun ==> start < cursor <= n && |frames| == cursor - start
        invariant !rerun ==> cursor == n && |frames| == n - start + 1
        invariant forall i :: 0 <= i < |frames| ==> frames[i] == FrameAt(series, Min(start + 1 + i, n))
        decreases n - cursor + (if rerun then 1 else 0)
      {
        rerun, frame := PassDrawingFirst(window, true);
        frames := frames + [frame];
      }
      EveryCountIsDrawn(series, window, start);
      assert frames == DrawnWhilePlayingCorrected(series, window, start);
    }

    /** Passes driven by any sequence of widget values, from any state of
        the session, a new one included: the cursor follows CursorAfter, so
        once it exists it stays within the slider's range. */
    method RunPasses(passes: seq<Controls>)
      requires Valid()
      requires WindowsInRange(passes, |series|)
      modifies this
      ensures Valid()
      ensures initialised == (old(initialised) || |passes| > 0)
      ensures cursor == CursorAfter(old(initialised), old(cursor), passes, |series|)
    {
      ghost var i0, c0 := initialised, cursor;
      var i := 0;
      while i < |passes|
        invariant 0 <= i <= |passes|
        invariant Valid()
        invariant initialised == (i0 || i > 0)
        invariant cursor == CursorAfter(i0, c0, passes[..i], |series|)
      {
        var rerun := Step(passes[i].window, passes[i].autoPlay);
        assert passes[..i + 1][..i] == passes[..i];
        i := i + 1;
      }
      assert passes[..|passes|] == passes;
    }
  }
}
