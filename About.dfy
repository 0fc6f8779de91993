/**
 * The about section's animated stat counters: once a counter scrolls into
 * view it counts from 0 up to its target over 1500 ms, following an
 * ease-out cubic curve, and shows the floor of the eased value.
 *
 * The section's three counters count to 4, 15 and 10.
 *
 * `performance.now()` and the animation-frame timestamps are parameters;
 * each animation frame is an explicit `RunFrame` event. The first frame's
 * timestamp may precede the start time taken in the effect, so elapsed
 * time can be slightly negative there.
 */
module About {
  import opened RealFacts

  /** Length of the count-up animation, in milliseconds. */
  const Duration: real := 1500.0

  /** `Math.min(elapsed / duration, 1)`. */
  function CounterProgress(elapsed: real): (p: real)
    ensures p <= 1.0
    ensures elapsed >= Duration ==> p == 1.0
    ensures elapsed < Duration ==> p * Duration == elapsed
    ensures p < 1.0 <==> elapsed < Duration
    ensures 0.0 <= elapsed ==> 0.0 <= p
  {
    if elapsed / Duration < 1.0 then elapsed / Duration else 1.0
  }

  /** Progress never falls back as the elapsed time grows. */
  lemma ProgressMonotone(e1: real, e2: real)
    requires e1 <= e2
    ensures CounterProgress(e1) <= CounterProgress(e2)
  {
    assert e1 / Duration <= e2 / Duration;
  }

  /** Scaling by a target keeps a share below 1 below the target, and a non-negative share non-negative. */
  lemma ScaledByTarget(e: real, target: nat)
    ensures e <= 1.0 ==> e * target as real <= target as real
    ensures 0.0 <= e ==> 0.0 <= e * target as real
  {
    if e <= 1.0 {
      MulNonNegative(1.0 - e, target as real);
    }
    if 0.0 <= e {
      MulNonNegative(e, target as real);
    }
  }

  /** The cube of a non-negative number is non-negative, at most 1 when the number is, and 0 only for 0. */
  lemma CubeFacts(q: real)
    ensures 0.0 <= q ==> 0.0 <= q * q * q
    ensures 0.0 <= q <= 1.0 ==> q * q * q <= 1.0
    ensures 0.0 <= q ==> (q * q * q == 0.0 <==> q == 0.0)
  {
    if 0.0 <= q {
      MulMonotone(0.0, q, 0.0, q);
      MulMonotone(0.0, q * q, 0.0, q);
      if q <= 1.0 {
        MulMonotone(q, 1.0, q, 1.0);
        MulMonotone(q * q, 1.0, q, 1.0);
      }
      if q > 0.0 {
        assert q * q > 0.0;
        assert q * q * q > 0.0;
      }
    }
  }

  /**
   * Ease-out cubic, `1 - (1 - p)^3`: never above 1 up to the end of the
   * animation, within 0..1 on 0..1, 0 at the start, and 1 exactly at the
   * end.
   */
  function Eased(p: real): (e: real)
    ensures p <= 1.0 ==> e <= 1.0
    ensures 0.0 <= p <= 1.0 ==> 0.0 <= e
    ensures p <= 1.0 ==> (e == 1.0 <==> p == 1.0)
    ensures p == 0.0 ==> e == 0.0
  {
    var q := 1.0 - p;
    CubeFacts(q);
    1.0 - q * q * q
  }

  /** The easing curve never goes back, also before the start (negative progress). */
  lemma EasedMonotone(p1: real, p2: real)
    requires p1 <= p2 <= 1.0
    ensures Eased(p1) <= Eased(p2)
  {
    var q1, q2 := 1.0 - p1, 1.0 - p2;
    MulMonotone(q2, q1, q2, q1);
    MulMonotone(q2 * q2, q1 * q1, q2, q1);
  }

  /**
   * `Math.floor(eased * target)`: the number on screen at progress `p`. It
   * never exceeds the target, is 0 at the start, the target at the end, and
   * within `[0, target]` for progress in 0..1.
   */
  function DisplayedCount(p: real, target: nat): (c: int)
    ensures p <= 1.0 ==> c <= target
    ensures 0.0 <= p <= 1.0 ==> 0 <= c
    ensures p == 0.0 ==> c == 0
    ensures p == 1.0 ==> c == target
  {
    var e := Eased(p);
    ScaledByTarget(e, target);
    (e * target as real).Floor
  }

  /** A frame slightly before the start shows -1: progress -0.01 gives `floor(-0.030301 * 4)`. */
  lemma NegativeElapsedShowsMinusOne()
    ensures CounterProgress(-15.0) == -0.01
    ensures DisplayedCount(CounterProgress(-15.0), 4) == -1
  {
    assert Eased(-0.01) == -0.030301;
  }

  /** The displayed number never decreases while the elapsed time grows, whatever the start. */
  lemma CountMonotone(e1: real, e2: real, target: nat)
    requires e1 <= e2
    ensures DisplayedCount(CounterProgress(e1), target) <= DisplayedCount(CounterProgress(e2), target)
  {
    var p1, p2 := CounterProgress(e1), CounterProgress(e2);
    ProgressMonotone(e1, e2);
    EasedMonotone(p1, p2);
    var x1, x2 := Eased(p1) * target as real, Eased(p2) * target as real;
    MulNonNegative(Eased(p2) - Eased(p1), target as real);
    assert x2 - x1 == (Eased(p2) - Eased(p1)) * target as real;
    FloorMonotone(x1, x2);
  }

  /** A positive target is shown exactly when the progress has reached 1. */
  lemma CountReachesTarget(p: real, target: nat)
    requires 0.0 <= p <= 1.0 && target > 0
    ensures DisplayedCount(p, target) == target <==> p == 1.0
  {
    var e := Eased(p);
    if p < 1.0 {
      assert e < 1.0;
      assert e * target as real < target as real by {
        assert (1.0 - e) * target as real > 0.0;
      }
    }
  }

  /** One stat counter: its target, the number shown, and its animation. */
  class AnimatedCounter {
    const target: nat
    var count: int
    /** `useInView` with `triggerOnce`: once true, it stays true. */
    var inView: bool
    var startTime: real
    /** An animation frame is requested and not yet run. */
    var framePending: bool
    /** A frame has run since the animation started. */
    ghost var framed: bool
    /** The timestamp of the last frame run. */
    ghost var lastFrameTime: real

    /**
     * The counter starts only once in view; until its first frame it shows
     * 0 with a frame requested; afterwards the number shown is the eased
     * count at the last frame's elapsed time, and a frame stays requested
     * exactly until progress reaches 1.
     */
    ghost predicate Valid()
      reads this
    {
      && (!inView ==> count == 0 && !framePending && !framed)
      && (inView && !framed ==> count == 0 && framePending)
      && (framed ==> count == DisplayedCount(CounterProgress(lastFrameTime - startTime), target))
      && (framed ==> (framePending <==> CounterProgress(lastFrameTime - startTime) < 1.0))
    }

    /** Mount: 0 shown, not in view, no frame requested. */
    constructor (target: nat)
      ensures Valid()
      ensures this.target == target && count == 0 && !inView && !framePending
    {
      this.target := target;
      count := 0;
      inView := false;
      startTime := 0.0;
      framePending := false;
      framed := false;
      lastFrameTime := 0.0;
    }

    /**
     * The observer reports whether half the counter is visible. The first
     * time it is, the effect records the start time and requests the first
     * frame; afterwards the observer is disconnected and reports nothing.
     */
    method ObserveInView(visible: bool, now: real)
      requires Valid()
      modifies this
      ensures Valid()
      ensures inView == (old(inView) || visible)
      ensures !old(inView) && visible ==> startTime == now && framePending && count == 0
      ensures !old(inView) && visible ==> !framed && lastFrameTime == now
      ensures old(inView) || !visible ==>
        startTime == old(startTime) && framePending == old(framePending) && count == old(count)
      ensures old(inView) || !visible ==> framed == old(framed) && lastFrameTime == old(lastFrameTime)
    {
      if inView || !visible {
        return;
      }
      inView := true;
      startTime := now;
      count := 0;
      framePending := true;
      framed := false;
      lastFrameTime := now;
    }

    /**
     * The requested frame runs at `currentTime`; with none requested
     * nothing happens. Frame timestamps after the first never go back;
     * the first may precede the start time.
     */
    method RunFrame(currentTime: real)
      requires Valid()
      requires framed && framePending ==> lastFrameTime <= currentTime
      modifies this
      ensures Valid()
      ensures inView == old(inView) && startTime == old(startTime)
      ensures !old(framePending) ==> count == old(count) && !framePending
      ensures !old(framePending) ==> framed == old(framed) && lastFrameTime == old(lastFrameTime)
      ensures old(framePending) ==> framed && lastFrameTime == currentTime
      ensures old(framePending) ==> count == DisplayedCount(CounterProgress(currentTime - startTime), target)
      ensures old(framePending) ==> (framePending <==> currentTime - startTime < Duration)
      ensures count <= target
      ensures old(framePending) && startTime <= currentTime ==> 0 <= count
      ensures old(framed) || startTime <= currentTime ==> old(count) <= count
    {
      if !framePending {
        return;
      }
      var elapsed := currentTime - startTime;
      var progress := CounterProgress(elapsed);
      var start := DisplayedCount(progress, target);
      if framed {
        CountMonotone(lastFrameTime - startTime, elapsed, target);
      }
      count := start;
      framed := true;
      lastFrameTime := currentTime;
      framePending := progress < 1.0;
    }
  }

  /**
   * A counter that comes into view at time 100 and then receives frames at
   * 90 (before the recorded start), 116, 700 and 1700. The numbers shown
   * after the second frame never go down, and the last frame shows the
   * target and requests no further frame.
   */
  method CountUpRun(target: nat) returns (shown: seq<int>, pending: bool)
    ensures |shown| == 4
    ensures shown[1] <= shown[2] <= shown[3] == target
    ensures !pending
  {
    var counter := new AnimatedCounter(target);
    counter.ObserveInView(true, 100.0);
    counter.RunFrame(90.0);
    shown := [counter.count];
    counter.RunFrame(116.0);
    shown := shown + [counter.count];
    counter.RunFrame(700.0);
    shown := shown + [counter.count];
    counter.RunFrame(1700.0);
    shown := shown + [counter.count];
    pending := counter.framePending;
  }
}
