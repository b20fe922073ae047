/**
 * The two-colour countdown: the time left runs down by each frame's length,
 * never below zero, and when it reaches zero the timer stops and raises its
 * end event. The rings show the remaining and elapsed fractions, the text the
 * whole seconds left, rounded up.
 */
module Countdown {
  import opened Coroutines

  function Max(a: real, b: real): (m: real)
    ensures m >= a && m >= b && (m == a || m == b)
  {
    if a >= b then a else b
  }

  /** Mathf.CeilToInt: the least whole number not below x. */
  function Ceil(x: real): (n: int)
    ensures (n - 1) as real < x <= n as real
  {
    -((-x).Floor)
  }

  /** The time left after a frame of dt: decreased by dt and clamped at zero. */
  function Tick(remaining: real, dt: real): (r: real)
    ensures r >= 0.0
    ensures r == 0.0 <==> remaining - dt <= 0.0
    ensures r > 0.0 ==> r == remaining - dt
  {
    Max(remaining - dt, 0.0)
  }

  /** The time left after a run of frames, ticking on past zero. */
  function Left(remaining: real, dts: seq<real>): real
    decreases |dts|
  {
    if dts == [] then remaining else Left(Tick(remaining, dts[0]), dts[1..])
  }

  /**
   * Over any run of frames the clamped countdown loses exactly the time that
   * passed, down to zero: it reaches zero exactly when the frames add up to
   * the time that was left.
   */
  lemma {:induction false} LeftIsClampedDifference(remaining: real, dts: seq<real>)
    requires remaining >= 0.0
    requires forall i :: 0 <= i < |dts| ==> dts[i] >= 0.0
    ensures Left(remaining, dts) == Max(remaining - Sum(dts), 0.0)
    ensures Left(remaining, dts) == 0.0 <==> Sum(dts) >= remaining
    decreases |dts|
  {
    if dts != [] {
      SumNonNegative(dts[1..]);
      LeftIsClampedDifference(Tick(remaining, dts[0]), dts[1..]);
    }
  }

  class TwoColorCountdown {
    const duration: real := 30.0
    /** Which of the text and the two rings are assigned. */
    const hasText: bool
    const hasGreenRing: bool
    const hasRedRing: bool

    var remaining: real
    var running: bool
    /** What the UI shows: whole seconds left, and the two rings' fill amounts. */
    var shownSeconds: int
    var greenFill: real
    var redFill: real

    /** The number of runs started so far. */
    ghost var runs: nat
    /** For each onTimerEnd invocation, the run it ended. */
    ghost var endings: seq<nat>

    /**
     * The time left is never negative, and the end event fires at most once
     * per run: the runs it ended are strictly increasing, all started, and the
     * run still going has not ended.
     */
    ghost predicate Valid()
      reads this
    {
      && remaining >= 0.0
      && (forall i, j :: 0 <= i < j < |endings| ==> endings[i] < endings[j])
      && (forall i :: 0 <= i < |endings| ==> 1 <= endings[i] <= runs)
      && (running ==> runs >= 1 && forall i :: 0 <= i < |endings| ==> endings[i] < runs)
    }

    /** UpdateUI: each assigned widget shows the current time left. */
    method UpdateUI()
      modifies this`shownSeconds, this`greenFill, this`redFill
      ensures shownSeconds == if hasText then Ceil(remaining) else old(shownSeconds)
      ensures greenFill == if hasGreenRing then remaining / duration else old(greenFill)
      ensures redFill == if hasRedRing then 1.0 - remaining / duration else old(redFill)
    {
      var pctRemaining := remaining / duration;
      if hasText {
        shownSeconds := Ceil(remaining);
      }
      if hasGreenRing {
        greenFill := pctRemaining;
      }
      if hasRedRing {
        redFill := 1.0 - pctRemaining;
      }
    }

    /** Awake sets the full time, then Start starts the first run. */
    constructor (text: bool, green: bool, red: bool)
      ensures duration == 30.0 && hasText == text && hasGreenRing == green && hasRedRing == red
      ensures remaining == duration && running && runs == 1 && endings == []
      ensures Valid()
    {
      hasText, hasGreenRing, hasRedRing := text, green, red;
      remaining, running := 30.0, false;
      shownSeconds, greenFill, redFill := 0, 0.0, 0.0;
      runs, endings := 0, [];
      new;
      UpdateUI();
      StartTimer();
    }

    /** StartTimer: a new run from the full duration. */
    method StartTimer()
      requires Valid()
      modifies this`remaining, this`running, this`runs, this`shownSeconds, this`greenFill, this`redFill
      ensures Valid()
      ensures remaining == duration && running && runs == old(runs) + 1
      ensures hasText ==> shownSeconds == 30
    {
      remaining := duration;
      running := true;
      runs := runs + 1;
      UpdateUI();
    }

    /** StopTimer: the run stops without its end event. */
    method StopTimer()
      requires Valid()
      modifies this`running
      ensures Valid() && !running
    {
      running := false;
    }

    /**
     * Update: while running, the time left drops by dt, clamped at zero; on
     * reaching zero the run stops and its end event fires. While not running
     * nothing changes.
     */
    method Update(dt: real)
      requires Valid()
      modifies this`remaining, this`running, this`endings, this`shownSeconds, this`greenFill, this`redFill
      ensures Valid()
      ensures !old(running) ==> unchanged(this)
      ensures old(running) ==> remaining == Tick(old(remaining), dt)
      ensures old(running) ==> running == (remaining > 0.0)
      ensures old(running) && remaining == 0.0 ==> endings == old(endings) + [runs]
      ensures old(running) && remaining > 0.0 ==> endings == old(endings)
      ensures old(running) && hasText ==> shownSeconds == Ceil(remaining)
    {
      if !running {
        return;
      }
      remaining := Max(remaining - dt, 0.0);
      UpdateUI();
      if remaining <= 0.0 {
        running := false;
        endings := endings + [runs];
      }
    }
  }
}
