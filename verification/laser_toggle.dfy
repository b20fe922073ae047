/**
 * Office lasers cycling through phases: each phase switches every laser on
 * and then the phase's own list off, and the next phase follows after a
 * fixed interval, wrapping round to the first.
 */
module Lasers {
  import opened Common
  import opened Coroutines

  /** The phase after p when there are n: one more, wrapping round to 0 after the last. */
  function NextPhase(p: nat, n: nat): (q: nat)
    requires p < n
    ensures q < n
  {
    if p + 1 == n then 0 else p + 1
  }

  /** The phase applied at the k-th step of a run that starts at phase 0. */
  function Cycle(k: nat, n: nat): (p: nat)
    requires n > 0
    ensures p < n
  {
    if k == 0 then 0 else NextPhase(Cycle(k - 1, n), n)
  }

  /** Advancing modulo the phase count is the wrap-round step. */
  lemma ModIsNextPhase(p: nat, n: nat)
    requires p < n
    ensures (p + 1) % n == NextPhase(p, n)
  {
  }

  /** The first n steps apply phases 0, 1, ..., n - 1 in order. */
  lemma {:induction false} CycleCountsUp(k: nat, n: nat)
    requires k < n
    ensures Cycle(k, n) == k
  {
    if k > 0 {
      CycleCountsUp(k - 1, n);
    }
  }

  /** After n steps the run repeats: the phases apply cyclically. */
  lemma {:induction false} CycleRepeats(k: nat, n: nat)
    requires n > 0
    ensures Cycle(k + n, n) == Cycle(k, n)
  {
    if k == 0 {
      CycleCountsUp(n - 1, n);
    } else {
      CycleRepeats(k - 1, n);
      assert k + n - 1 == (k - 1) + n;
    }
  }

  /** The continuation of PhaseRoutine after its wait. */
  datatype PhaseTick = PhaseTick

  class LaserToggleController {
    const allLasers: seq<GameObject>
    /** Each phase's lasersToDisable. */
    const phases: seq<seq<GameObject>>
    const phaseInterval: real
    var currentPhase: int
    var enabled: bool
    /** The PhaseRoutine wait, once the routine has started. */
    var routines: seq<Wait<PhaseTick>>
    /** The phase applied at each step so far. */
    ghost var applied: seq<nat>

    /** Every object the routine may switch. */
    function Touched(): set<GameObject>
    {
      (set l | l in allLasers) + (set i, l | 0 <= i < |phases| && l in phases[i] :: l)
    }

    ghost predicate Valid()
      reads this
    {
      && |routines| <= 1
      && (|phases| == 0 ==> currentPhase == 0 && applied == [] && routines == [])
      && (|phases| > 0 ==>
            && currentPhase == Cycle(|applied|, |phases|)
            && forall k :: 0 <= k < |applied| ==> applied[k] == Cycle(k, |phases|))
    }

    constructor (lasers: seq<GameObject>, phaseLists: seq<seq<GameObject>>)
      ensures allLasers == lasers && phases == phaseLists && phaseInterval == 1.0
      ensures currentPhase == 0 && enabled && routines == [] && applied == []
      ensures Valid()
    {
      allLasers, phases, phaseInterval := lasers, phaseLists, 1.0;
      currentPhase, enabled, routines := 0, true, [];
      applied := [];
    }

    /**
     * One pass of PhaseRoutine's loop: after it, a laser of the current phase
     * is off, any other laser is on, and the phase has advanced by one,
     * wrapping at the phase count.
     */
    method PhaseStep()
      requires Valid() && |phases| > 0
      modifies this`currentPhase, this`applied, Touched()
      ensures Valid()
      ensures applied == old(applied) + [old(currentPhase)]
      ensures currentPhase == (old(currentPhase) + 1) % |phases|
      ensures forall l :: l in phases[old(currentPhase)] ==> !l.activeSelf
      ensures forall l :: l in allLasers && l !in phases[old(currentPhase)] ==> l.activeSelf
    {
      var i := 0;
      while i < |allLasers|
        invariant 0 <= i <= |allLasers| && currentPhase == old(currentPhase) && applied == old(applied)
        invariant forall k :: 0 <= k < i ==> allLasers[k].activeSelf
      {
        allLasers[i].SetActive(true);
        i := i + 1;
      }
      var off := phases[currentPhase];
      assert forall l :: l in off ==> l in Touched();
      var j := 0;
      while j < |off|
        invariant 0 <= j <= |off| && currentPhase == old(currentPhase) && applied == old(applied)
        invariant forall k :: 0 <= k < j ==> !off[k].activeSelf
        invariant forall l :: l in allLasers && l !in off[..j] ==> l.activeSelf
      {
        off[j].SetActive(false);
        j := j + 1;
      }
      assert off[..|off|] == off;
      ModIsNextPhase(currentPhase, |phases|);
      applied := applied + [currentPhase];
      currentPhase := (currentPhase + 1) % |phases|;
    }

    /** Start: without lasers or phases the component disables itself; otherwise the routine runs its first pass and waits. */
    method Start()
      requires Valid() && applied == [] && routines == []
      modifies this`currentPhase, this`applied, this`enabled, this`routines, Touched()
      ensures Valid()
      ensures |allLasers| == 0 || |phases| == 0 ==> !enabled && routines == [] && applied == []
      ensures |allLasers| > 0 && |phases| > 0 ==>
        enabled == old(enabled) && applied == [0] && routines == [Wait(PhaseTick, phaseInterval)]
    {
      if |allLasers| == 0 || |phases| == 0 {
        enabled := false;
        return;
      }
      PhaseStep();
      routines := [Wait(PhaseTick, phaseInterval)];
    }

    /** A frame of dt for the routine: when its wait is due it runs the next pass and waits again. */
    method ResumeCoroutines(dt: real)
      requires Valid()
      modifies this`currentPhase, this`applied, this`routines, Touched()
      ensures Valid()
      ensures Due(old(routines), dt) == [] ==> routines == Later(old(routines), dt) && applied == old(applied)
      ensures Due(old(routines), dt) != [] ==>
        applied == old(applied) + [old(currentPhase)] && routines == [Wait(PhaseTick, phaseInterval)]
    {
      if routines == [] {
        return;
      }
      var w := routines[0];
      assert routines == [w] && routines[1..] == [];
      if w.left - dt <= 0.0 {
        PhaseStep();
        routines := [Wait(PhaseTick, phaseInterval)];
      } else {
        assert Later(routines, dt) == [Wait(w.event, w.left - dt)] + Later(routines[1..], dt);
        assert Later(routines[1..], dt) == [];
        assert w.event == PhaseTick;
        routines := [Wait(PhaseTick, w.left - dt)];
      }
    }
  }
}
