/** Changing the CPU affinity of one task while it may be running or pinned.

    Any number of callers, the task itself leaving a migrate-disabled region and the CPU stoppers
    share a request record that lives on the stack of the caller that installed it. Every section
    under the task's locks is one atomic step; what happens after the locks are dropped (queueing
    the stop work, signalling the completion, waiting, dropping the reference) are further steps
    that interleave freely. What the locks do not protect (where the task runs, whether it is on a
    CPU, whether its migration is disabled) is an arbitrary input of each step. */
module Affinity {
  import opened Common

  type Tid = nat

  /** `struct set_affinity_pending`, named by the thread whose stack holds it. */
  datatype Record = Record(refs: int, stopPending: bool, done: bool, destCpu: int)

  datatype Pc =
    | Idle
    | Queueing(rec: Tid, waits: bool)    // locks dropped, about to queue the record's stop work
    | Completing(rec: Tid, waits: bool)  // locks dropped, about to signal the record's completion
    | Waiting(rec: Tid)                  // waiting for the completion
    | Draining                           // reference dropped, waiting for its own record's count
    | Stopping(rec: Tid)                 // a stopper that took the work and has yet to lock

  /** `queued` counts the entries of each record's work on stopper lists; `lastDest` is the
      destination of the latest request that found the task on a forbidden CPU. */
  datatype State = State(pending: Option<Tid>, recs: map<Tid, Record>, pcs: map<Tid, Pc>,
                         queued: multiset<Tid>, lastDest: int)

  datatype Step =
    | SetAffinity(t: Tid, settled: bool, onCpu: bool, disabled: bool, dest: int)
    | MigrateEnable(t: Tid, settled: bool)
    | QueueStop(t: Tid)
    | Complete(t: Tid)
    | FinishWait(t: Tid)
    | Return(t: Tid)
    | StopperStart(t: Tid, rec: Tid)
    | StopperSection(t: Tid, sameRq: bool, disabled: bool, allowed: bool)

  function PcOf(s: State, t: Tid): Pc {
    if t in s.pcs then s.pcs[t] else Idle
  }

  function Goto(s: State, t: Tid, p: Pc): State {
    s.(pcs := s.pcs[t := p])
  }

  // ---------- the steps ----------

  /** The records a step reads or writes. */
  function Touches(s: State, step: Step): set<Tid> {
    match step
    case SetAffinity(_, _, _, _, _) => if s.pending.Some? then {s.pending.value} else {}
    case MigrateEnable(_, _) => if s.pending.Some? then {s.pending.value} else {}
    case QueueStop(t) => if PcOf(s, t).Queueing? then {PcOf(s, t).rec} else {}
    case Complete(t) => if PcOf(s, t).Completing? then {PcOf(s, t).rec} else {}
    case FinishWait(t) => if PcOf(s, t).Waiting? then {PcOf(s, t).rec} else {}
    case Return(t) => {t}
    case StopperStart(_, rec) => {rec}
    case StopperSection(t, _, _, _) => if PcOf(s, t).Stopping? then {PcOf(s, t).rec} else {}
  }

  predicate Enabled(s: State, step: Step) {
    match step
    case SetAffinity(t, _, _, _, _) => PcOf(s, t).Idle?
    case MigrateEnable(t, _) => PcOf(s, t).Idle?
    case QueueStop(t) => PcOf(s, t).Queueing?
    case Complete(t) => PcOf(s, t).Completing?
    case FinishWait(t) => PcOf(s, t).Waiting? && PcOf(s, t).rec in s.recs && s.recs[PcOf(s, t).rec].done
    case Return(t) => PcOf(s, t).Draining? && t in s.recs && s.recs[t].refs == 0
    case StopperStart(t, rec) => PcOf(s, t).Idle? && rec in s.queued
    case StopperSection(t, _, _, _) => PcOf(s, t).Stopping?
  }

  /** Uninstall the record; the thread will signal it once the locks are dropped. */
  function Uninstall(s: State, t: Tid, waits: bool): State
    requires s.pending.Some?
  {
    Goto(s.(pending := None), t, Completing(s.pending.value, waits))
  }

  /** The task may stay where it is: waiters without a stop work in flight are released. */
  function Settle(s: State, t: Tid): State
    requires s.pending.Some? ==> s.pending.value in s.recs
  {
    if s.pending.Some? && !s.recs[s.pending.value].stopPending then Uninstall(s, t, false) else s
  }

  /** Install the caller's record, or join the installed one and redirect it. */
  function Request(s: State, t: Tid, dest: int): State
    requires s.pending.Some? ==> s.pending.value in s.recs
  {
    if s.pending.None? then
      s.(recs := s.recs[t := Record(1, false, false, dest)], pending := Some(t), lastDest := dest)
    else
      var r := s.pending.value;
      var rec := s.recs[r];
      s.(recs := s.recs[t := Record(0, false, false, 0)][r := rec.(refs := rec.refs + 1, destCpu := dest)],
         lastDest := dest)
  }

  /** The task is on a CPU: have its stopper deal with it, unless that is already under way. */
  function Punt(s: State, t: Tid, waits: bool): State
    requires s.pending.Some? && s.pending.value in s.recs
  {
    var r := s.pending.value;
    if s.recs[r].stopPending then (if waits then Goto(s, t, Waiting(r)) else s)
    else Goto(s.(recs := s.recs[r := s.recs[r].(stopPending := true)]), t, Queueing(r, waits))
  }

  function StopperRun(s: State, t: Tid, r: Tid, sameRq: bool, disabled: bool, allowed: bool): State
    requires r in s.recs
  {
    var idle := s.(recs := s.recs[r := s.recs[r].(stopPending := false)]);
    if sameRq && disabled then Goto(idle, t, Idle)
    else if sameRq || allowed then Goto(idle.(pending := None), t, Completing(r, false))
    else Goto(s, t, Queueing(r, false))
  }

  function Apply(s: State, step: Step): State
    requires Enabled(s, step) && Touches(s, step) <= s.recs.Keys
  {
    match step
    case SetAffinity(t, settled, onCpu, disabled, dest) =>
      if settled then Settle(s, t)
      else
        var s1 := Request(s, t, dest);
        var r := s1.pending.value;
        if onCpu then Punt(s1, t, true)
        else if !disabled && !s1.recs[r].stopPending then Uninstall(s1, t, true)
        else Goto(s1, t, Waiting(r))
    case MigrateEnable(t, settled) =>
      if settled then Settle(s, t)
      else if s.pending.None? then s  // -EINVAL
      else Punt(s, t, false)
    case QueueStop(t) =>
      var p := s.pcs[t];
      Goto(s.(queued := s.queued + multiset{p.rec}), t, if p.waits then Waiting(p.rec) else Idle)
    case Complete(t) =>
      var p := s.pcs[t];
      Goto(s.(recs := s.recs[p.rec := s.recs[p.rec].(done := true)]), t,
           if p.waits then Waiting(p.rec) else Idle)
    case FinishWait(t) =>
      var r := s.pcs[t].rec;
      Goto(s.(recs := s.recs[r := s.recs[r].(refs := s.recs[r].refs - 1)]), t, Draining)
    case Return(t) => Goto(s.(recs := s.recs - {t}), t, Idle)
    case StopperStart(t, rec) => Goto(s.(queued := s.queued - multiset{rec}), t, Stopping(rec))
    case StopperSection(t, sameRq, disabled, allowed) =>
      StopperRun(s, t, s.pcs[t].rec, sameRq, disabled, allowed)
  }

  // ---------- the invariant ----------

  datatype Role = Holder | Stopper | Completer

  predicate Plays(role: Role, p: Pc, r: Tid) {
    match role
    case Holder => p == Queueing(r, true) || p == Completing(r, true) || p == Waiting(r)
    case Stopper => (p.Queueing? && p.rec == r) || p == Stopping(r)
    case Completer => p.Completing? && p.rec == r
  }

  function Players(pcs: map<Tid, Pc>, role: Role, r: Tid): set<Tid> {
    set t | t in pcs && Plays(role, pcs[t], r)
  }

  function Count(s: State, role: Role, r: Tid): nat {
    |Players(s.pcs, role, r)|
  }

  /** Stop works of a record that exist anywhere: queued, about to be queued, or being run. */
  function StopWorks(s: State, r: Tid): nat {
    s.queued[r] + Count(s, Stopper, r)
  }

  /** A waiting caller's stack frame, and with it the record in it, is live. */
  predicate FrameLive(p: Pc) {
    (p.Queueing? && p.waits) || (p.Completing? && p.waits) || p.Waiting? || p.Draining?
  }

  ghost predicate RecordInv(s: State, r: Tid) {
    if r in s.recs then
      var rec := s.recs[r];
      && rec.refs == Count(s, Holder, r)
      && StopWorks(s, r) == (if rec.stopPending then 1 else 0)
      && (rec.stopPending ==> s.pending == Some(r))
      && (s.pending == Some(r) ==> rec.refs >= 1 && !rec.done && rec.destCpu == s.lastDest)
      && Count(s, Completer, r) == (if s.pending != Some(r) && !rec.done && rec.refs > 0 then 1 else 0)
    else
      && s.pending != Some(r)
      && Count(s, Holder, r) == 0 && StopWorks(s, r) == 0 && Count(s, Completer, r) == 0
  }

  ghost predicate Inv(s: State) {
    && (forall r :: RecordInv(s, r))
    && (forall t :: t in s.recs <==> FrameLive(PcOf(s, t)))
  }

  lemma CountAfterGoto(pcs: map<Tid, Pc>, t: Tid, p: Pc, role: Role, r: Tid)
    ensures var was := t in pcs && Plays(role, pcs[t], r);
            |Players(pcs[t := p], role, r)|
            == |Players(pcs, role, r)| - (if was then 1 else 0) + (if Plays(role, p, r) then 1 else 0)
  {
    hide Plays;
    var before, after := Players(pcs, role, r), Players(pcs[t := p], role, r);
    if Plays(role, p, r) {
      assert after == before + {t};
    } else {
      assert after == before - {t};
    }
  }

  /** A thread that plays a role towards a record makes that role's count positive. */
  lemma PlayerCounts(s: State, t: Tid, role: Role, r: Tid)
    requires Plays(role, PcOf(s, t), r)
    ensures Count(s, role, r) >= 1
  {
    assert t in Players(s.pcs, role, r);
  }

  /** Under the invariant a step touches only records whose owner is still inside its call. */
  lemma TouchesLive(s: State, step: Step)
    requires Inv(s) && Enabled(s, step)
    ensures Touches(s, step) <= s.recs.Keys
  {
    forall r | r in Touches(s, step)
      ensures r in s.recs
    {
      assert RecordInv(s, r);
      match step {
        case SetAffinity(_, _, _, _, _) =>
        case MigrateEnable(_, _) =>
        case QueueStop(t) => PlayerCounts(s, t, Stopper, r);
        case Complete(t) => PlayerCounts(s, t, Completer, r);
        case FinishWait(t) => PlayerCounts(s, t, Holder, r);
        case Return(t) =>
        case StopperStart(_, _) =>
        case StopperSection(t, _, _, _) => PlayerCounts(s, t, Stopper, r);
      }
    }
  }

  /** How one thread moving changes the counts of a record. */
  lemma Moved(s: State, s': State, t: Tid, r: Tid)
    requires t in s'.pcs && s'.pcs == s.pcs[t := s'.pcs[t]]
    ensures forall role ::
              Count(s', role, r) == Count(s, role, r) - (if Plays(role, PcOf(s, t), r) then 1 else 0)
                                    + (if Plays(role, PcOf(s', t), r) then 1 else 0)
  {
    forall role
      ensures Count(s', role, r) == Count(s, role, r) - (if Plays(role, PcOf(s, t), r) then 1 else 0)
                                    + (if Plays(role, PcOf(s', t), r) then 1 else 0)
    {
      CountAfterGoto(s.pcs, t, s'.pcs[t], role, r);
    }
  }

  lemma SettleKeepsInv(s: State, t: Tid)
    requires Inv(s) && PcOf(s, t).Idle? && (s.pending.Some? ==> s.pending.value in s.recs)
    ensures Inv(Settle(s, t))
  {
    hide Count;
    var s' := Settle(s, t);
    if s' != s {
      var r := s.pending.value;
      forall x
        ensures RecordInv(s', x)
      {
        Moved(s, s', t, x);
        assert RecordInv(s, x);
      }
    }
  }

  /** What holds after the request was recorded but before the caller's place is known: the
      caller's reference is counted and its frame exists, though it is not yet a holder. */
  ghost predicate Requested(s: State, t: Tid) {
    && s.pending.Some? && s.pending.value in s.recs && t in s.recs && PcOf(s, t).Idle?
    && (forall u :: u in s.recs <==> u == t || FrameLive(PcOf(s, u)))
    && forall r ::
         if r == s.pending.value then
           var rec := s.recs[r];
           && rec.refs == Count(s, Holder, r) + 1 && !rec.done && rec.destCpu == s.lastDest
           && StopWorks(s, r) == (if rec.stopPending then 1 else 0)
           && Count(s, Completer, r) == 0
         else RecordInv(s, r)
  }

  lemma RequestSpec(s: State, t: Tid, dest: int)
    requires Inv(s) && PcOf(s, t).Idle? && (s.pending.Some? ==> s.pending.value in s.recs)
    ensures Requested(Request(s, t, dest), t)
  {
    var s' := Request(s, t, dest);
    assert t !in s.recs;
    forall r | r != s'.pending.value
      ensures RecordInv(s', r)
    {
      assert RecordInv(s, r) && Count(s', Holder, r) == Count(s, Holder, r);
    }
    assert RecordInv(s, s'.pending.value);
  }

  /** From there the caller waits, or queues the stop work, or signals the completion itself. */
  lemma ThenWaiting(s: State, t: Tid)
    requires Requested(s, t)
    ensures Inv(Goto(s, t, Waiting(s.pending.value)))
  {
    hide Count;
    var s' := Goto(s, t, Waiting(s.pending.value));
    forall r
      ensures RecordInv(s', r)
    {
      Moved(s, s', t, r);
      assert r != s.pending.value ==> RecordInv(s, r);
    }
  }

  lemma ThenQueueing(s: State, t: Tid)
    requires Requested(s, t) && !s.recs[s.pending.value].stopPending
    ensures Inv(Punt(s, t, true))
  {
    hide Count;
    var s' := Punt(s, t, true);
    forall r
      ensures RecordInv(s', r)
    {
      Moved(s, s', t, r);
      assert r != s.pending.value ==> RecordInv(s, r);
    }
  }

  lemma ThenCompleting(s: State, t: Tid)
    requires Requested(s, t) && !s.recs[s.pending.value].stopPending
    ensures Inv(Uninstall(s, t, true))
  {
    hide Count;
    var s' := Uninstall(s, t, true);
    forall r
      ensures RecordInv(s', r)
    {
      Moved(s, s', t, r);
      assert r != s.pending.value ==> RecordInv(s, r);
    }
  }

  lemma SetAffinityKeepsInv(s: State, step: Step)
    requires Inv(s) && Enabled(s, step) && Touches(s, step) <= s.recs.Keys && step.SetAffinity?
    ensures Inv(Apply(s, step))
  {
    var t := step.t;
    if step.settled {
      SettleKeepsInv(s, t);
    } else {
      RequestSpec(s, t, step.dest);
      var s1 := Request(s, t, step.dest);
      var flagged := s1.recs[s1.pending.value].stopPending;
      if flagged || (!step.onCpu && step.disabled) {
        ThenWaiting(s1, t);
      } else if step.onCpu {
        ThenQueueing(s1, t);
      } else {
        ThenCompleting(s1, t);
      }
    }
  }

  lemma MigrateEnableKeepsInv(s: State, step: Step)
    requires Inv(s) && Enabled(s, step) && Touches(s, step) <= s.recs.Keys && step.MigrateEnable?
    ensures Inv(Apply(s, step))
  {
    hide Count;
    var t, s' := step.t, Apply(s, step);
    if step.settled {
      SettleKeepsInv(s, t);
    } else if s' != s {
      forall r
        ensures RecordInv(s', r)
      {
        Moved(s, s', t, r);
        assert RecordInv(s, r);
      }
    }
  }

  lemma QueueStopKeepsInv(s: State, step: Step)
    requires Inv(s) && Enabled(s, step) && Touches(s, step) <= s.recs.Keys && step.QueueStop?
    ensures Inv(Apply(s, step))
  {
    hide Count;
    var t, s' := step.t, Apply(s, step);
    forall r
      ensures RecordInv(s', r)
    {
      Moved(s, s', t, r);
      assert RecordInv(s, r);
    }
  }

  lemma CompleteKeepsInv(s: State, step: Step)
    requires Inv(s) && Enabled(s, step) && Touches(s, step) <= s.recs.Keys && step.Complete?
    ensures Inv(Apply(s, step))
  {
    hide Count;
    var t, s' := step.t, Apply(s, step);
    PlayerCounts(s, t, Completer, PcOf(s, t).rec);
    assert RecordInv(s, PcOf(s, t).rec);
    forall r
      ensures RecordInv(s', r)
    {
      Moved(s, s', t, r);
      assert RecordInv(s, r);
    }
  }

  lemma FinishWaitKeepsInv(s: State, step: Step)
    requires Inv(s) && Enabled(s, step) && Touches(s, step) <= s.recs.Keys && step.FinishWait?
    ensures Inv(Apply(s, step))
  {
    hide Count;
    var t, s' := step.t, Apply(s, step);
    assert RecordInv(s, PcOf(s, t).rec);
    forall r
      ensures RecordInv(s', r)
    {
      Moved(s, s', t, r);
      assert RecordInv(s, r);
    }
  }

  lemma ReturnKeepsInv(s: State, step: Step)
    requires Inv(s) && Enabled(s, step) && Touches(s, step) <= s.recs.Keys && step.Return?
    ensures Inv(Apply(s, step))
  {
    hide Count;
    var t, s' := step.t, Apply(s, step);
    assert RecordInv(s, t);
    forall r
      ensures RecordInv(s', r)
    {
      Moved(s, s', t, r);
      assert RecordInv(s, r);
    }
  }

  lemma StopperStartKeepsInv(s: State, step: Step)
    requires Inv(s) && Enabled(s, step) && Touches(s, step) <= s.recs.Keys && step.StopperStart?
    ensures Inv(Apply(s, step))
  {
    hide Count;
    var t, s' := step.t, Apply(s, step);
    assert RecordInv(s, step.rec);
    forall r
      ensures RecordInv(s', r)
    {
      Moved(s, s', t, r);
      assert RecordInv(s, r);
    }
  }

  lemma StopperSectionKeepsInv(s: State, step: Step)
    requires Inv(s) && Enabled(s, step) && Touches(s, step) <= s.recs.Keys && step.StopperSection?
    ensures Inv(Apply(s, step))
  {
    hide Count;
    var t, s' := step.t, Apply(s, step);
    PlayerCounts(s, t, Stopper, PcOf(s, t).rec);
    assert RecordInv(s, PcOf(s, t).rec);
    forall r
      ensures RecordInv(s', r)
    {
      Moved(s, s', t, r);
      assert RecordInv(s, r);
    }
  }

  /** Every step keeps the invariant. */
  lemma StepKeepsInv(s: State, step: Step)
    requires Inv(s) && Enabled(s, step)
    ensures Touches(s, step) <= s.recs.Keys && Inv(Apply(s, step))
  {
    TouchesLive(s, step);
    match step
    case SetAffinity(_, _, _, _, _) => SetAffinityKeepsInv(s, step);
    case MigrateEnable(_, _) => MigrateEnableKeepsInv(s, step);
    case QueueStop(_) => QueueStopKeepsInv(s, step);
    case Complete(_) => CompleteKeepsInv(s, step);
    case FinishWait(_) => FinishWaitKeepsInv(s, step);
    case Return(_) => ReturnKeepsInv(s, step);
    case StopperStart(_, _) => StopperStartKeepsInv(s, step);
    case StopperSection(_, _, _, _) => StopperSectionKeepsInv(s, step);
  }

  // ---------- whole runs ----------

  function Initial(): State {
    State(None, map[], map[], multiset{}, 0)
  }

  lemma InitialInv()
    ensures Inv(Initial())
  {
    forall r
      ensures RecordInv(Initial(), r)
    {
      assert forall role :: Players(Initial().pcs, role, r) == {};
    }
  }

  /** The state after a run, as long as every step could be taken. */
  ghost predicate Runs(s: State, steps: seq<Step>, s': State)
    decreases |steps|
  {
    if steps == [] then s == s'
    else
      && Enabled(s, steps[0]) && Touches(s, steps[0]) <= s.recs.Keys
      && Runs(Apply(s, steps[0]), steps[1..], s')
  }

  lemma {:induction false} RunKeepsInv(s: State, steps: seq<Step>, s': State)
    requires Inv(s) && Runs(s, steps, s')
    ensures Inv(s')
    decreases |steps|
  {
    if steps != [] {
      StepKeepsInv(s, steps[0]);
      RunKeepsInv(Apply(s, steps[0]), steps[1..], s');
    }
  }

  /** The state in which one of the two warnings of the protocol would fire at a step: a stopper
      finding its record uninstalled or without its stop flag, or an owner about to return from a
      record whose stop work is still in use. */
  predicate Warns(s: State, step: Step)
    requires Enabled(s, step) && Touches(s, step) <= s.recs.Keys
  {
    match step
    case StopperSection(t, _, _, _) => s.pending != Some(s.pcs[t].rec) || !s.recs[s.pcs[t].rec].stopPending
    case Return(t) => s.recs[t].stopPending
    case _ => false
  }

  /** In every interleaving, every step that can be taken next touches only records whose owner
      has not returned, and fires no warning. */
  lemma EveryRunIsSafe(steps: seq<Step>, s: State, step: Step)
    requires Runs(Initial(), steps, s) && Enabled(s, step)
    ensures Touches(s, step) <= s.recs.Keys && !Warns(s, step)
  {
    InitialInv();
    RunKeepsInv(Initial(), steps, s);
    TouchesLive(s, step);
    match step {
      case StopperSection(t, _, _, _) =>
        assert RecordInv(s, s.pcs[t].rec);
        PlayerCounts(s, t, Stopper, s.pcs[t].rec);
      case Return(t) =>
        assert RecordInv(s, t);
      case _ =>
    }
  }

  /** The record protocol, at every point of every run. A record with its stop flag set is the
      installed one and has exactly one stop work; a signalled record is uninstalled with the flag
      clear; the reference count is the number of callers still using it, so when its owner may
      return nobody else, neither caller nor stop work nor signaller, is left. */
  lemma RecordProtocol(steps: seq<Step>, s: State, r: Tid)
    requires Runs(Initial(), steps, s) && r in s.recs
    ensures s.recs[r].stopPending ==> s.pending == Some(r) && StopWorks(s, r) == 1
    ensures !s.recs[r].stopPending ==> StopWorks(s, r) == 0
    ensures s.recs[r].done ==> s.pending != Some(r) && !s.recs[r].stopPending
    ensures s.recs[r].refs == Count(s, Holder, r)
    ensures Enabled(s, Return(r)) ==>
              forall t :: !Plays(Holder, PcOf(s, t), r) && !Plays(Stopper, PcOf(s, t), r)
                          && !Plays(Completer, PcOf(s, t), r)
    ensures s.pending == Some(r) ==> s.recs[r].destCpu == s.lastDest
  {
    InitialInv();
    RunKeepsInv(Initial(), steps, s);
    assert RecordInv(s, r);
    if Enabled(s, Return(r)) {
      forall t, role | Plays(role, PcOf(s, t), r)
        ensures false
      {
        PlayerCounts(s, t, role, r);
      }
    }
  }

  /** No waiter is forgotten: while a caller waits on an unsignalled record, either the record is
      still installed for a later stopper, caller or migrate-enable to find, or exactly one thread
      is on its way to signal it; once signalled, every holder can go on. */
  lemma NoWaiterForgotten(steps: seq<Step>, s: State, t: Tid)
    requires Runs(Initial(), steps, s) && PcOf(s, t).Waiting?
    ensures var r := PcOf(s, t).rec;
            && r in s.recs
            && (!s.recs[r].done && s.pending != Some(r) ==> Count(s, Completer, r) == 1)
            && (s.recs[r].done ==> forall u :: Plays(Holder, PcOf(s, u), r) ==> Enabled(s, FinishWait(u)))
  {
    var r := PcOf(s, t).rec;
    InitialInv();
    RunKeepsInv(Initial(), steps, s);
    assert RecordInv(s, r);
    PlayerCounts(s, t, Holder, r);
    forall u | s.recs[r].done && Plays(Holder, PcOf(s, u), r)
      ensures Enabled(s, FinishWait(u))
    {
      if PcOf(s, u).Queueing? {
        PlayerCounts(s, u, Stopper, r);
      } else if PcOf(s, u).Completing? {
        PlayerCounts(s, u, Completer, r);
      }
    }
  }

  // ---------- what each section does for the waiters ----------

  predicate IsSection(step: Step) {
    step.SetAffinity? || step.MigrateEnable? || step.StopperSection?
  }

  /** The record a section deals with: the installed one, or the one it installs. */
  function Subject(s: State, step: Step): Option<Tid> {
    if s.pending.None? && step.SetAffinity? && !step.settled then Some(step.t) else s.pending
  }

  predicate Flagged(s: State) {
    s.pending.Some? && s.pending.value in s.recs && s.recs[s.pending.value].stopPending
  }

  /** When a section may let the waiters go: the task is where it may be or can be moved at once, and
      no stop work is in flight; a stopper lets them go unless the task is pinned or has moved on to
      another forbidden CPU. */
  predicate MayRelease(s: State, step: Step)
    requires IsSection(step)
  {
    match step
    case SetAffinity(_, settled, onCpu, disabled, _) => !Flagged(s) && (settled || (!onCpu && !disabled))
    case MigrateEnable(_, settled) => !Flagged(s) && settled
    case StopperSection(_, sameRq, disabled, allowed) => if sameRq then !disabled else allowed
  }

  /** A section uninstalls the record and goes to signal it exactly when it may. */
  lemma ReleasesExactly(s: State, step: Step)
    requires Inv(s) && Enabled(s, step) && IsSection(step) && Subject(s, step).Some?
    ensures Touches(s, step) <= s.recs.Keys
    ensures var s', r := Apply(s, step), Subject(s, step).value;
            && r in s'.recs && s'.pending == (if MayRelease(s, step) then None else Some(r))
            && (MayRelease(s, step) ==> PcOf(s', step.t) == Completing(r, step.SetAffinity? && !step.settled))
  {
    TouchesLive(s, step);
    if step.StopperSection? {
      PlayerCounts(s, step.t, Stopper, PcOf(s, step.t).rec);
      assert RecordInv(s, PcOf(s, step.t).rec);
    }
  }

  /** The task was found pinned: the waiters have to wait for it to leave the pinned region. */
  predicate FoundPinned(step: Step) {
    match step
    case SetAffinity(_, settled, onCpu, disabled, _) => !settled && !onCpu && disabled
    case StopperSection(_, sameRq, disabled, _) => sameRq && disabled
    case _ => false
  }

  /** Whether the latest section of a run found the task pinned. */
  function PinnedAfter(was: bool, steps: seq<Step>): bool
    decreases |steps|
  {
    if steps == [] then was
    else PinnedAfter(if IsSection(steps[0]) then FoundPinned(steps[0]) else was, steps[1..])
  }

  /** The destination of the latest request of a run that found the task on a forbidden CPU. */
  function LastRequest(was: int, steps: seq<Step>): int
    decreases |steps|
  {
    if steps == [] then was
    else LastRequest(if steps[0].SetAffinity? && !steps[0].settled then steps[0].dest else was, steps[1..])
  }

  /** The record is installed and nothing is under way for it. */
  predicate Stranded(s: State) {
    s.pending.Some? && !Flagged(s)
  }

  lemma StrandsOnlyPinned(s: State, step: Step)
    requires Inv(s) && Enabled(s, step) && Touches(s, step) <= s.recs.Keys
    ensures Stranded(Apply(s, step)) ==> if IsSection(step) then FoundPinned(step) else Stranded(s)
    ensures Apply(s, step).lastDest == LastRequest(s.lastDest, [step])
  {
    assert LastRequest(s.lastDest, [step])
        == if step.SetAffinity? && !step.settled then step.dest else s.lastDest;
    if step.StopperSection? {
      PlayerCounts(s, step.t, Stopper, PcOf(s, step.t).rec);
      assert RecordInv(s, PcOf(s, step.t).rec);
    } else if step.Complete? || step.FinishWait? || step.Return? {
      var r := if step.Return? then step.t else PcOf(s, step.t).rec;
      assert RecordInv(s, r);
      if step.Complete? {
        PlayerCounts(s, step.t, Completer, r);
      }
    }
    if s.pending.Some? {
      assert RecordInv(s, s.pending.value);
    }
  }

  lemma {:induction false} RunStrandsOnlyPinned(s: State, steps: seq<Step>, s': State, was: bool)
    requires Inv(s) && Runs(s, steps, s') && (Stranded(s) ==> was)
    ensures Stranded(s') ==> PinnedAfter(was, steps)
    ensures s'.lastDest == LastRequest(s.lastDest, steps)
    decreases |steps|
  {
    hide Inv, Apply, Enabled, Stranded;
    if steps != [] {
      StrandsOnlyPinned(s, steps[0]);
      StepKeepsInv(s, steps[0]);
      assert LastRequest(s.lastDest, [steps[0]])
          == if steps[0].SetAffinity? && !steps[0].settled then steps[0].dest else s.lastDest;
      RunStrandsOnlyPinned(Apply(s, steps[0]), steps[1..], s',
                           if IsSection(steps[0]) then FoundPinned(steps[0]) else was);
    }
  }

  /** Waiters are left with nothing under way for them only while the task is pinned: in every run, if
      a record is installed without a stop work, the latest section found the task pinned. A stop
      work takes the task where the latest request wants it. */
  lemma WaitsOnlyWhilePinned(steps: seq<Step>, s: State, r: Tid)
    requires Runs(Initial(), steps, s) && s.pending == Some(r)
    ensures r in s.recs && (!s.recs[r].stopPending ==> PinnedAfter(false, steps))
    ensures s.recs[r].destCpu == LastRequest(0, steps)
  {
    InitialInv();
    RunKeepsInv(Initial(), steps, s);
    assert RecordInv(s, r);
    RunStrandsOnlyPinned(Initial(), steps, s, false);
  }
}
