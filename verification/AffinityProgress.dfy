/** Progress of the affinity protocol: whoever has been let go can return after a number of steps that
    the state fixes, and nobody is ever left waiting for something that cannot happen any more. */
module AffinityProgress {
  import opened Common
  import opened Affinity

  // ---------- everybody gets to return ----------

  /** A step by which a record is signalled or one of its holders lets go of it. */
  predicate LetsGo(s: State, step: Step, r: Tid) {
    || (step.Complete? && PcOf(s, step.t).Completing? && PcOf(s, step.t).rec == r)
    || (step.FinishWait? && PcOf(s, step.t).Waiting? && PcOf(s, step.t).rec == r)
  }

  /** Such steps left until nobody holds an uninstalled record. */
  function Owed(s: State, r: Tid): nat
    requires r in s.recs
  {
    if s.recs[r].refs <= 0 then 0 else s.recs[r].refs + if s.recs[r].done then 0 else 1
  }

  ghost function LetsGoCount(s: State, steps: seq<Step>, r: Tid): nat
    decreases |steps|
  {
    if steps == [] then 0
    else
      (if LetsGo(s, steps[0], r) then 1 else 0)
      + if Enabled(s, steps[0]) && Touches(s, steps[0]) <= s.recs.Keys
        then LetsGoCount(Apply(s, steps[0]), steps[1..], r) else 0
  }

  lemma LettingGoPays(s: State, step: Step, r: Tid)
    requires Inv(s) && Enabled(s, step) && Touches(s, step) <= s.recs.Keys
    requires r in s.recs && s.pending != Some(r) && step != Return(r)
    ensures var s' := Apply(s, step);
            && r in s'.recs && s'.pending != Some(r)
            && Owed(s', r) == Owed(s, r) - if LetsGo(s, step, r) then 1 else 0
  {
    hide Apply, Count;
    assert RecordInv(s, r);
    assert FrameLive(PcOf(s, r));
    if Plays(Stopper, PcOf(s, step.t), r) {
      PlayerCounts(s, step.t, Stopper, r);
    }
    if LetsGo(s, step, r) {
      PlayerCounts(s, step.t, if step.Complete? then Completer else Holder, r);
    }
    if IsSection(step) {
      SectionOwesSame(s, step, r);
    } else {
      LettingGoCounts(s, step, r);
    }
  }

  lemma SectionOwesSame(s: State, step: Step, r: Tid)
    requires Enabled(s, step) && Touches(s, step) <= s.recs.Keys && IsSection(step)
    requires r in s.recs && s.pending != Some(r) && FrameLive(PcOf(s, r)) && !Plays(Stopper, PcOf(s, step.t), r)
    ensures r in Apply(s, step).recs && Apply(s, step).pending != Some(r) && Owed(Apply(s, step), r) == Owed(s, r)
  {
  }

  lemma LettingGoCounts(s: State, step: Step, r: Tid)
    requires Enabled(s, step) && Touches(s, step) <= s.recs.Keys && step != Return(r) && !IsSection(step)
    requires r in s.recs && s.pending != Some(r)
    requires LetsGo(s, step, r) ==> s.recs[r].refs > 0 && (step.Complete? ==> !s.recs[r].done)
    ensures var s' := Apply(s, step);
            && r in s'.recs && s'.pending != Some(r)
            && Owed(s', r) == Owed(s, r) - if LetsGo(s, step, r) then 1 else 0
  {
  }

  lemma SomebodyCanLetGo(s: State, r: Tid) returns (step: Step)
    requires Inv(s) && r in s.recs && s.pending != Some(r) && Owed(s, r) > 0
    ensures Enabled(s, step) && LetsGo(s, step, r)
  {
    assert RecordInv(s, r);
    if s.recs[r].done {
      var u :| u in Players(s.pcs, Holder, r);
      if PcOf(s, u).Queueing? {
        PlayerCounts(s, u, Stopper, r);
      } else if PcOf(s, u).Completing? {
        PlayerCounts(s, u, Completer, r);
      }
      step := FinishWait(u);
    } else {
      var u :| u in Players(s.pcs, Completer, r);
      step := Complete(u);
    }
  }

  /** Once a record is uninstalled, exactly `Owed` steps, which can always be taken whatever else
      happens, have all its holders let go; its owner cannot leave before that, and can then. */
  lemma {:induction false} HoldersLetGo(s: State, steps: seq<Step>, s': State, r: Tid)
    requires Inv(s) && r in s.recs && s.pending != Some(r) && Runs(s, steps, s') && Return(r) !in steps
    ensures r in s'.recs && s'.pending != Some(r)
    ensures LetsGoCount(s, steps, r) + Owed(s', r) == Owed(s, r)
    ensures Owed(s', r) == 0 <==> forall u :: !Plays(Holder, PcOf(s', u), r)
    ensures Owed(s', r) > 0 ==> exists step :: Enabled(s', step) && LetsGo(s', step, r)
    ensures PcOf(s', r).Draining? ==> (Enabled(s', Return(r)) <==> Owed(s', r) == 0)
    decreases |steps|
  {
    if steps == [] {
      HeldIffOwed(s, r);
      if Owed(s, r) > 0 {
        var step := SomebodyCanLetGo(s, r);
      }
    } else {
      hide Apply, Inv, RecordInv, Owed;
      LettingGoPays(s, steps[0], r);
      StepKeepsInv(s, steps[0]);
      HoldersLetGo(Apply(s, steps[0]), steps[1..], s', r);
    }
  }

  lemma HeldIffOwed(s: State, r: Tid)
    requires Inv(s) && r in s.recs
    ensures Owed(s, r) == 0 <==> forall u :: !Plays(Holder, PcOf(s, u), r)
    ensures s.recs[r].refs >= 0
  {
    assert RecordInv(s, r);
    if Owed(s, r) == 0 {
      forall u | Plays(Holder, PcOf(s, u), r)
        ensures false
      {
        PlayerCounts(s, u, Holder, r);
      }
    } else {
      var u :| u in Players(s.pcs, Holder, r);
      assert Plays(Holder, PcOf(s, u), r);
    }
  }

  /** The owner of the installed record waits on it. */
  predicate OwnerHolds(s: State) {
    s.pending.Some? ==> Plays(Holder, PcOf(s, s.pending.value), s.pending.value)
  }

  lemma StepKeepsOwner(s: State, step: Step)
    requires Inv(s) && OwnerHolds(s) && Enabled(s, step) && Touches(s, step) <= s.recs.Keys
    ensures OwnerHolds(Apply(s, step))
  {
    hide Apply, Enabled, Touches;
    if s.pending.Some? {
      assert RecordInv(s, s.pending.value);
    }
    if IsSection(step) {
      SectionKeepsOwner(s, step);
    } else {
      OtherKeepsOwner(s, step);
    }
  }

  lemma SectionKeepsOwner(s: State, step: Step)
    requires OwnerHolds(s) && Enabled(s, step) && Touches(s, step) <= s.recs.Keys && IsSection(step)
    ensures OwnerHolds(Apply(s, step))
  {
  }

  lemma OtherKeepsOwner(s: State, step: Step)
    requires OwnerHolds(s) && Enabled(s, step) && Touches(s, step) <= s.recs.Keys && !IsSection(step)
    requires s.pending.Some? ==> s.pending.value in s.recs && !s.recs[s.pending.value].done
    ensures OwnerHolds(Apply(s, step))
  {
  }

  lemma {:induction false} RunKeepsOwner(s: State, steps: seq<Step>, s': State)
    requires Inv(s) && OwnerHolds(s) && Runs(s, steps, s')
    ensures OwnerHolds(s')
    decreases |steps|
  {
    hide Inv, Apply, Enabled, OwnerHolds;
    if steps != [] {
      StepKeepsOwner(s, steps[0]);
      StepKeepsInv(s, steps[0]);
      RunKeepsOwner(Apply(s, steps[0]), steps[1..], s');
    }
  }

  lemma {:induction false} DrainingStays(s: State, steps: seq<Step>, s': State, t: Tid)
    requires PcOf(s, t).Draining? && Runs(s, steps, s') && Return(t) !in steps
    ensures PcOf(s', t).Draining?
    decreases |steps|
  {
    if steps != [] {
      assert steps[0] in steps;
      DrainingStays(Apply(s, steps[0]), steps[1..], s', t);
    }
  }

  /** A caller that has been let go returns: its own record is not installed, so after the steps still
      owed to whoever holds it, all of which can be taken, the caller can leave. */
  lemma LetGoMeansReturn(before: seq<Step>, s: State, t: Tid, steps: seq<Step>, s': State)
    requires Runs(Initial(), before, s) && PcOf(s, t).Draining? && Runs(s, steps, s') && Return(t) !in steps
    ensures t in s.recs && t in s'.recs
    ensures LetsGoCount(s, steps, t) + Owed(s', t) == Owed(s, t)
    ensures Owed(s', t) > 0 ==> exists step :: Enabled(s', step) && LetsGo(s', step, t)
    ensures Enabled(s', Return(t)) <==> Owed(s', t) == 0
  {
    DrainingStays(s, steps, s', t);
    InitialInv();
    RunKeepsInv(Initial(), before, s);
    RunKeepsOwner(Initial(), before, s);
    assert t in s.recs && s.pending != Some(t);
    HoldersLetGo(s, steps, s', t);
  }

  // ---------- nobody is ever stuck ----------

  ghost predicate Sound(s: State) {
    Inv(s) && OwnerHolds(s)
  }

  /** A step that can be taken leads on, and moves nobody else. */
  lemma StepsOn(s: State, step: Step)
    requires Sound(s) && Enabled(s, step)
    ensures Touches(s, step) <= s.recs.Keys && Sound(Apply(s, step))
    ensures forall u :: u != step.t ==> PcOf(Apply(s, step), u) == PcOf(s, u)
  {
    hide Inv, OwnerHolds, Apply, Enabled, Touches;
    StepKeepsInv(s, step);
    StepKeepsOwner(s, step);
    forall u | u != step.t
      ensures PcOf(Apply(s, step), u) == PcOf(s, u)
    {
      MovesNobodyElse(s, step, u);
    }
  }

  lemma MovesNobodyElse(s: State, step: Step, u: Tid)
    requires Enabled(s, step) && Touches(s, step) <= s.recs.Keys && u != step.t
    ensures PcOf(Apply(s, step), u) == PcOf(s, u)
  {
    if step.SetAffinity? {
      RequesterMovesAlone(s, step, u);
    } else if step.MigrateEnable? || step.StopperSection? {
      SectionMovesAlone(s, step, u);
    }
  }

  lemma RequesterMovesAlone(s: State, step: Step, u: Tid)
    requires step.SetAffinity? && Enabled(s, step) && Touches(s, step) <= s.recs.Keys && u != step.t
    ensures PcOf(Apply(s, step), u) == PcOf(s, u)
  {
  }

  lemma SectionMovesAlone(s: State, step: Step, u: Tid)
    requires step.MigrateEnable? || step.StopperSection?
    requires Enabled(s, step) && Touches(s, step) <= s.recs.Keys && u != step.t
    ensures PcOf(Apply(s, step), u) == PcOf(s, u)
  {
  }

  lemma RunsFrom(s: State, step: Step, rest: seq<Step>, s': State)
    requires Enabled(s, step) && Touches(s, step) <= s.recs.Keys && Runs(Apply(s, step), rest, s')
    ensures Runs(s, [step] + rest, s')
  {
    assert ([step] + rest)[1..] == rest;
  }

  /** A thread that has not taken part yet. */
  lemma Newcomer(threads: set<Tid>) returns (v: Tid)
    ensures forall x :: x in threads ==> x < v
  {
    v := 0;
    if threads != {} {
      var x :| x in threads;
      assert threads == (threads - {x}) + {x};
      v := Newcomer(threads - {x});
      v := Max(v, x + 1);
    }
  }

  ghost predicate Returned(s: State, t: Tid) {
    PcOf(s, t).Idle? && t !in s.recs
  }

  lemma {:induction false} DrainingReturns(s: State, t: Tid) returns (steps: seq<Step>, s': State)
    requires Sound(s) && PcOf(s, t).Draining?
    ensures t in s.recs && Runs(s, steps, s') && Returned(s', t)
    decreases if t in s.recs then Owed(s, t) else 0
  {
    assert t in s.recs && s.pending != Some(t);
    HeldIffOwed(s, t);
    hide Inv, OwnerHolds, Returned;
    var step := Return(t);
    if Owed(s, t) > 0 {
      step := SomebodyCanLetGo(s, t);
      StepsOn(s, step);
      LettingGoPays(s, step, t);
      steps, s' := DrainingReturns(Apply(s, step), t);
    } else {
      StepsOn(s, step);
      steps, s' := [], Apply(s, step);
      ReturnLeaves(s, t);
    }
    RunsFrom(s, step, steps, s');
    steps := [step] + steps;
  }

  lemma ReturnLeaves(s: State, t: Tid)
    requires Enabled(s, Return(t))
    ensures Returned(Apply(s, Return(t)), t)
  {
  }

  /** A waiter whose record is not installed: it is signalled, or somebody is about to do so. */
  lemma ReleasedReturns(s: State, t: Tid, r: Tid) returns (steps: seq<Step>, s': State)
    requires Sound(s) && PcOf(s, t) == Waiting(r) && r in s.recs && s.pending != Some(r)
    ensures Runs(s, steps, s') && Returned(s', t)
    decreases !s.recs[r].done
  {
    assert RecordInv(s, r);
    PlayerCounts(s, t, Holder, r);
    hide Returned, Sound;
    var step := FinishWait(t);
    if s.recs[r].done {
      StepsOn(s, step);
      steps, s' := DrainingReturns(Apply(s, step), t);
    } else {
      var u :| u in Players(s.pcs, Completer, r);
      step := Complete(u);
      StepsOn(s, step);
      steps, s' := ReleasedReturns(Apply(s, step), t, r);
    }
    RunsFrom(s, step, steps, s');
    steps := [step] + steps;
  }

  /** A waiter whose record a stopper is about to deal with, the task being where it can be moved. */
  lemma StoppingReturns(s: State, t: Tid, r: Tid, u: Tid) returns (steps: seq<Step>, s': State)
    requires Sound(s) && PcOf(s, t) == Waiting(r) && PcOf(s, u) == Stopping(r)
    ensures Runs(s, steps, s') && Returned(s', t)
  {
    PlayerCounts(s, u, Stopper, r);
    assert RecordInv(s, r);
    hide Returned, Sound;
    var step := StopperSection(u, true, false, false);
    StepsOn(s, step);
    steps, s' := ReleasedReturns(Apply(s, step), t, r);
    RunsFrom(s, step, steps, s');
    steps := [step] + steps;
  }

  lemma QueuedReturns(s: State, t: Tid, r: Tid) returns (steps: seq<Step>, s': State)
    requires Sound(s) && PcOf(s, t) == Waiting(r) && r in s.queued
    ensures Runs(s, steps, s') && Returned(s', t)
  {
    hide Returned, Sound;
    var v := Newcomer(s.pcs.Keys);
    var step := StopperStart(v, r);
    StepsOn(s, step);
    steps, s' := StoppingReturns(Apply(s, step), t, r, v);
    RunsFrom(s, step, steps, s');
    steps := [step] + steps;
  }

  /** A waiter on the installed record: its stop work is run, or without one the task, once it is no
      longer pinned, releases it. */
  lemma InstalledReturns(s: State, t: Tid, r: Tid) returns (steps: seq<Step>, s': State)
    requires Sound(s) && PcOf(s, t) == Waiting(r) && s.pending == Some(r)
    ensures Runs(s, steps, s') && Returned(s', t)
  {
    assert RecordInv(s, r);
    hide Returned, Sound;
    if !s.recs[r].stopPending {
      var v := Newcomer(s.pcs.Keys);
      var step := MigrateEnable(v, true);
      StepsOn(s, step);
      steps, s' := ReleasedReturns(Apply(s, step), t, r);
      RunsFrom(s, step, steps, s');
      steps := [step] + steps;
    } else if r in s.queued {
      steps, s' := QueuedReturns(s, t, r);
    } else {
      var u :| u in Players(s.pcs, Stopper, r);
      if PcOf(s, u) == Stopping(r) {
        steps, s' := StoppingReturns(s, t, r, u);
      } else {
        var step := QueueStop(u);
        StepsOn(s, step);
        steps, s' := QueuedReturns(Apply(s, step), t, r);
        RunsFrom(s, step, steps, s');
        steps := [step] + steps;
      }
    }
  }

  lemma WaitingReturns(s: State, t: Tid) returns (steps: seq<Step>, s': State)
    requires Sound(s) && PcOf(s, t).Waiting?
    ensures Runs(s, steps, s') && Returned(s', t)
  {
    var r := PcOf(s, t).rec;
    PlayerCounts(s, t, Holder, r);
    assert RecordInv(s, r);
    if s.pending == Some(r) {
      steps, s' := InstalledReturns(s, t, r);
    } else {
      steps, s' := ReleasedReturns(s, t, r);
    }
  }

  /** From every state of every run, every thread inside the protocol can get out of it, its record gone:
      nobody is ever left waiting for something that cannot happen any more. */
  lemma EveryCallerCanReturn(before: seq<Step>, s: State, t: Tid) returns (steps: seq<Step>, s': State)
    requires Runs(Initial(), before, s)
    ensures Runs(s, steps, s') && Returned(s', t)
  {
    InitialInv();
    RunKeepsInv(Initial(), before, s);
    RunKeepsOwner(Initial(), before, s);
    steps, s' := [], s;
    if PcOf(s, t).Draining? {
      steps, s' := DrainingReturns(s, t);
    } else if PcOf(s, t).Waiting? {
      steps, s' := WaitingReturns(s, t);
    } else if !PcOf(s, t).Idle? {
      var step := if PcOf(s, t).Queueing? then QueueStop(t)
                  else if PcOf(s, t).Completing? then Complete(t)
                  else StopperSection(t, true, true, false);
      StepsOn(s, step);
      var s1 := Apply(s, step);
      s' := s1;
      if PcOf(s1, t).Waiting? {
        steps, s' := WaitingReturns(s1, t);
      }
      RunsFrom(s, step, steps, s');
      steps := [step] + steps;
    }
  }
}
