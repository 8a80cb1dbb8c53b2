/** The frame throttle of `startAnimation`: the state its `animate` closure
    captures, one tick of it as a function, and what a run of ticks does.
    Wall times are integer milliseconds (`Date.getTime()`); the interval and
    the simulation time are exact reals standing for the JavaScript doubles. */
module FrameClock {

  /** The rate `init` asks for. */
  const TargetFps: nat := 60

  /** prev: wall time (ms) of the last rendered tick, or of the start;
      time: accumulated simulation time (s); targetMs: the fixed interval. */
  datatype Clock = Clock(prev: int, time: real, targetMs: real)

  /** `1000 / fps`. */
  function TargetInterval(fps: nat): (ms: real)
    requires fps > 0
    ensures ms > 0.0 && ms * fps as real == 1000.0
  {
    1000.0 / fps as real
  }

  /** The clock right after `startAnimation(fps)` read the wall time. */
  function Start(fps: nat, startMs: int): Clock
    requires fps > 0
  {
    Clock(startMs, 0.0, TargetInterval(fps))
  }

  /** Simulation seconds one rendered frame adds: `targetMs / 1000`. */
  function Increment(c: Clock): real
  {
    c.targetMs / 1000.0
  }

  /** A tick at `now` renders when strictly more than the interval has passed. */
  predicate Due(c: Clock, now: int)
  {
    (now - c.prev) as real > c.targetMs
  }

  /** The clock after one tick at wall time `now`. */
  function Step(c: Clock, now: int): Clock
  {
    if Due(c, now) then Clock(now, c.time + Increment(c), c.targetMs) else c
  }

  /** The clock after ticks at the given wall times, in order. */
  function Run(c: Clock, ticks: seq<int>): Clock
    decreases |ticks|
  {
    if ticks == [] then c else Run(Step(c, ticks[0]), ticks[1..])
  }

  /** The wall times of the ticks that render, in order. */
  function Rendered(c: Clock, ticks: seq<int>): seq<int>
    decreases |ticks|
  {
    if ticks == [] then []
    else (if Due(c, ticks[0]) then [ticks[0]] else []) + Rendered(Step(c, ticks[0]), ticks[1..])
  }

  /** The first render comes more than `gap` after `prev`, and each later one
      more than `gap` after the one before. */
  ghost predicate Spaced(prev: int, instants: seq<int>, gap: real)
  {
    && (|instants| > 0 ==> (instants[0] - prev) as real > gap)
    && (forall i :: 0 < i < |instants| ==> (instants[i] - instants[i - 1]) as real > gap)
  }

  /** With 60 fps and integer milliseconds, a tick renders iff at least 17 ms
      have passed since the last render. */
  lemma DueAt60(c: Clock, now: int)
    requires c.targetMs == TargetInterval(TargetFps)
    ensures Due(c, now) <==> now - c.prev >= 17
  {
    var d := now - c.prev;
    assert c.targetMs == 1000.0 / 60.0;
    if d >= 17 {
      assert d as real >= 17.0;
    } else {
      assert d as real <= 16.0;
    }
  }

  lemma ScaleSucc(n: nat, x: real)
    ensures (n + 1) as real * x == n as real * x + x
  {
  }

  lemma ScaleNonNegative(n: nat, x: real)
    requires x >= 0.0
    ensures n as real * x >= 0.0
  {
  }

  lemma {:induction false} RunKeepsInterval(c: Clock, ticks: seq<int>)
    ensures Run(c, ticks).targetMs == c.targetMs
    decreases |ticks|
  {
    if ticks != [] {
      RunKeepsInterval(Step(c, ticks[0]), ticks[1..]);
    }
  }

  /** At most one render per tick: no batched or catch-up frames. */
  lemma {:induction false} AtMostOneRenderPerTick(c: Clock, ticks: seq<int>)
    ensures |Rendered(c, ticks)| <= |ticks|
    decreases |ticks|
  {
    if ticks != [] {
      AtMostOneRenderPerTick(Step(c, ticks[0]), ticks[1..]);
    }
  }

  /** `x` added up `n` times. */
  function Times(n: nat, x: real): real
  {
    if n == 0 then 0.0 else Times(n - 1, x) + x
  }

  lemma {:induction false} TimesIsProduct(n: nat, x: real)
    ensures Times(n, x) == n as real * x
  {
    if n > 0 {
      TimesIsProduct(n - 1, x);
      ScaleSucc(n - 1, x);
    }
  }

  /** Each rendered frame adds one increment to the simulation time, and a
      skipped tick adds nothing. */
  lemma {:induction false} RunAddsIncrements(c: Clock, ticks: seq<int>)
    ensures Run(c, ticks).time == c.time + Times(|Rendered(c, ticks)|, Increment(c))
    decreases |ticks|
  {
    if ticks != [] {
      RunAddsIncrements(Step(c, ticks[0]), ticks[1..]);
    }
  }

  /** Simulation time grows by exactly one increment per rendered frame,
      however much wall time passed. */
  lemma RunTime(c: Clock, ticks: seq<int>)
    ensures Run(c, ticks).time == c.time + |Rendered(c, ticks)| as real * Increment(c)
  {
    RunAddsIncrements(c, ticks);
    TimesIsProduct(|Rendered(c, ticks)|, Increment(c));
  }

  /** A run never lowers the simulation time. */
  lemma RunTimeAtLeast(c: Clock, ticks: seq<int>)
    requires c.targetMs >= 0.0
    ensures Run(c, ticks).time >= c.time
  {
    RunTime(c, ticks);
    ScaleNonNegative(|Rendered(c, ticks)|, Increment(c));
  }

  /** Started with `time = 0`, the simulation time after a run is the number
      of rendered frames times `targetMs / 1000`. */
  lemma TimeFromStart(fps: nat, startMs: int, ticks: seq<int>)
    requires fps > 0
    ensures Run(Start(fps, startMs), ticks).time
         == |Rendered(Start(fps, startMs), ticks)| as real * (TargetInterval(fps) / 1000.0)
  {
    RunTime(Start(fps, startMs), ticks);
  }

  /** The last wall time stored is that of the last rendered tick. */
  lemma {:induction false} RunPrev(c: Clock, ticks: seq<int>)
    ensures var r := Rendered(c, ticks);
      Run(c, ticks).prev == if r == [] then c.prev else r[|r| - 1]
    decreases |ticks|
  {
    if ticks != [] {
      RunPrev(Step(c, ticks[0]), ticks[1..]);
    }
  }

  /** Every render needs more than `targetMs` since the previous one. */
  lemma {:induction false} RenderSpacing(c: Clock, ticks: seq<int>)
    ensures Spaced(c.prev, Rendered(c, ticks), c.targetMs)
    decreases |ticks|
  {
    if ticks != [] {
      var c' := Step(c, ticks[0]);
      RenderSpacing(c', ticks[1..]);
      var rest := Rendered(c', ticks[1..]);
      if Due(c, ticks[0]) {
        var r := [ticks[0]] + rest;
        assert Rendered(c, ticks) == r;
        forall i | 0 < i < |r|
          ensures (r[i] - r[i - 1]) as real > c.targetMs
        {
          if i > 1 {
            assert r[i] == rest[i - 1] && r[i - 1] == rest[i - 2];
          }
        }
      } else {
        assert Rendered(c, ticks) == rest;
      }
    }
  }

  lemma {:induction false} SpacedSpan(prev: int, s: seq<int>, gap: real)
    requires Spaced(prev, s, gap)
    requires |s| > 0
    ensures (s[|s| - 1] - prev) as real > |s| as real * gap
    decreases |s|
  {
    if |s| > 1 {
      var s' := s[..|s| - 1];
      assert Spaced(prev, s', gap);
      SpacedSpan(prev, s', gap);
      ScaleSucc(|s'|, gap);
    }
  }

  /** Rendering n frames takes more than n intervals of wall time after the
      clock's last render: renders never exceed one per `targetMs`. */
  lemma RenderBudget(c: Clock, ticks: seq<int>)
    ensures var r := Rendered(c, ticks);
      |r| > 0 ==> (r[|r| - 1] - c.prev) as real > |r| as real * c.targetMs
  {
    RenderSpacing(c, ticks);
    var r := Rendered(c, ticks);
    if |r| > 0 {
      SpacedSpan(c.prev, r, c.targetMs);
    }
  }

  lemma {:induction false} RunAppend(c: Clock, a: seq<int>, b: seq<int>)
    ensures Run(c, a + b) == Run(Run(c, a), b)
    decreases |a|
  {
    if a != [] {
      var c' := Step(c, a[0]);
      assert (a + b)[0] == a[0];
      assert (a + b)[1..] == a[1..] + b;
      RunAppend(c', a[1..], b);
      calc {
        Run(c, a + b);
        Run(c', a[1..] + b);
        Run(Run(c', a[1..]), b);
        Run(Run(c, a), b);
      }
    } else {
      assert a + b == b;
    }
  }

  /** One more tick after a run: the clock steps once more, and the tick's
      wall time joins the renders iff it was due. */
  lemma RunSnoc(c: Clock, ticks: seq<int>, now: int)
    ensures Run(c, ticks + [now]) == Step(Run(c, ticks), now)
    ensures Rendered(c, ticks + [now])
         == Rendered(c, ticks) + (if Due(Run(c, ticks), now) then [now] else [])
  {
    RunAppend(c, ticks, [now]);
    RenderedAppend(c, ticks, [now]);
    assert [now][1..] == [];
  }

  lemma {:induction false} RenderedAppend(c: Clock, a: seq<int>, b: seq<int>)
    ensures Rendered(c, a + b) == Rendered(c, a) + Rendered(Run(c, a), b)
    decreases |a|
  {
    if a != [] {
      var c' := Step(c, a[0]);
      assert (a + b)[0] == a[0];
      assert (a + b)[1..] == a[1..] + b;
      RenderedAppend(c', a[1..], b);
    } else {
      assert a + b == b;
    }
  }

  /** Simulation time never decreases along a run: after further ticks it
      is at least what it was. */
  lemma TimeNonDecreasing(c: Clock, earlier: seq<int>, later: seq<int>)
    requires c.targetMs >= 0.0
    ensures Run(c, earlier).time <= Run(c, earlier + later).time
  {
    var m := Run(c, earlier);
    RunKeepsInterval(c, earlier);
    RunTimeAtLeast(m, later);
    RunAppend(c, earlier, later);
  }

  /** Ticks 5 ms apart from a fresh 60 fps clock: only the fourth (20 ms after
      the start) renders, and simulation time moves from 0 to 1/60 s. */
  lemma FiveMillisecondTicks(startMs: int)
    ensures var c := Start(TargetFps, startMs);
      var ticks := [startMs + 5, startMs + 10, startMs + 15, startMs + 20];
      Rendered(c, ticks) == [startMs + 20] && Run(c, ticks).time == 1.0 / 60.0
  {
    var c := Start(TargetFps, startMs);
    var ticks := [startMs + 5, startMs + 10, startMs + 15, startMs + 20];
    DueAt60(c, startMs + 5);
    DueAt60(c, startMs + 10);
    DueAt60(c, startMs + 15);
    DueAt60(c, startMs + 20);
    var last := Step(c, startMs + 20);
    assert last == Clock(startMs + 20, 1.0 / 60.0, c.targetMs);
    assert Rendered(last, []) == [] && Run(last, []) == last;
    assert Rendered(c, ticks[3..]) == [startMs + 20] && Run(c, ticks[3..]) == last;
    assert Rendered(c, ticks[2..]) == [startMs + 20] && Run(c, ticks[2..]) == last;
    assert Rendered(c, ticks[1..]) == [startMs + 20] && Run(c, ticks[1..]) == last;
  }
}
