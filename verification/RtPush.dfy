/** Telling overloaded CPUs to push real-time tasks: one interrupt at a time travels over the CPUs
    of the root domain's overload mask. Requests made while it travels make it go round again. */
module RtPush {
  import opened Common

  type Tid = nat

  /** The next CPU of the mask after `from`, or `n` if there is none. */
  function NextCpu(mask: set<nat>, from: int, n: nat): (c: int)
    requires -1 <= from
    ensures from < c && (c < n ==> c in mask) && (from < n ==> c <= n)
    ensures forall x :: from < x < c && x < n ==> x !in mask
    decreases if from < n then n - from else 0
  {
    if from + 1 >= n then Max(n, from + 1)
    else if from + 1 in mask then from + 1
    else NextCpu(mask, from + 1, n)
  }

  // ---------- one call, undisturbed ----------

  class RootDomain {
    const nrCpus: nat
    var rtoMask: set<nat>
    var rtoCpu: int
    var rtoLoop: nat
    var rtoLoopNext: nat

    /** Where the interrupt goes next, with mask and requests standing still: the next overloaded
        CPU other than this one; past the last one, from the start again if there was a new request,
        and otherwise nowhere. One call ends at most two passes, the second of them a full one. */
    method RtoNextCpu(thisCpu: nat) returns (cpu: int, passes: nat)
      requires -1 <= rtoCpu < nrCpus
      modifies this`rtoCpu, this`rtoLoop
      ensures -1 <= rtoCpu < nrCpus && (cpu == -1 || cpu == rtoCpu) && (cpu == -1 ==> rtoCpu == -1)
      ensures 0 <= cpu ==> cpu in rtoMask && cpu != thisCpu
      ensures 0 <= cpu && passes == 0 ==>
                && old(rtoCpu) < cpu && rtoLoop == old(rtoLoop)
                && forall x :: old(rtoCpu) < x < cpu && x in rtoMask ==> x == thisCpu
      ensures passes > 0 ==> forall x :: old(rtoCpu) < x < nrCpus && x in rtoMask ==> x == thisCpu
      ensures 0 <= cpu && passes > 0 ==>
                && passes == 1 && old(rtoLoop) != rtoLoopNext && rtoLoop == rtoLoopNext
                && forall x :: 0 <= x < cpu && x in rtoMask ==> x == thisCpu
      ensures cpu == -1 ==>
                && rtoLoop == rtoLoopNext
                && passes == (if old(rtoLoop) == rtoLoopNext then 1 else 2)
                && (passes == 2 ==> forall x :: 0 <= x < nrCpus && x in rtoMask ==> x == thisCpu)
    {
      passes := 0;
      ghost var start := rtoCpu;
      while true
        invariant -1 <= rtoCpu < nrCpus && passes <= 1
        invariant passes == 0 ==> start == old(rtoCpu) && rtoLoop == old(rtoLoop)
        invariant passes == 1 ==> start == -1 && old(rtoLoop) != rtoLoopNext && rtoLoop == rtoLoopNext
        invariant passes == 1 ==> forall x :: old(rtoCpu) < x < nrCpus && x in rtoMask ==> x == thisCpu
        invariant start <= rtoCpu && forall x :: start < x <= rtoCpu && x in rtoMask ==> x == thisCpu
        decreases 1 - passes, nrCpus - rtoCpu
      {
        cpu := NextCpu(rtoMask, rtoCpu, nrCpus);
        if cpu == thisCpu && cpu < nrCpus {
          rtoCpu := cpu;
          continue;
        }
        if cpu < nrCpus {
          rtoCpu := cpu;
          return;
        }
        assert forall x :: start < x < nrCpus && x in rtoMask ==> x == thisCpu;
        rtoCpu := -1;
        passes := passes + 1;
        if rtoLoop == rtoLoopNext {
          cpu := -1;
          return;
        }
        rtoLoop := rtoLoopNext;
        start := -1;
      }
    }
  }

  // ---------- all interleavings ----------

  /** `Tell` threads ask for a push; `Irq` threads are runs of the travelling interrupt. */
  datatype Kind = Tell | Irq

  datatype Pc =
    | Idle
    | Try                                 // request counted, about to try the start lock
    | WantLock(kind: Kind, self: nat)     // about to take the domain lock
    | Scan(kind: Kind, self: nat)         // holding it: about to look for the next CPU
    | AtEnd(kind: Kind, self: nat)        // holding it: past the last CPU, about to read the requests
    | Unlock(kind: Kind, cpu: int)        // holding it: decided
    | Release(cpu: int)                   // about to drop the start lock
    | Send(cpu: int)                      // about to send the interrupt

  /** `inFlight` are the CPUs of interrupts that are sent but not yet running. The last three fields record what
      happened since the current pass over the mask began: the CPUs it reached, the CPUs that have
      been in the mask all along, and whether a request arrived. */
  datatype State = State(rtoCpu: int, rtoLoop: nat, loopNext: nat, mask: set<nat>, startLock: bool,
                         lock: Option<Tid>, inFlight: multiset<nat>, pcs: map<Tid, Pc>,
                         reached: set<nat>, stable: set<nat>, requested: bool)

  datatype Step =
    | Ask(t: Tid)
    | TryStart(t: Tid, self: nat)
    | Lock(t: Tid)
    | ScanNext(t: Tid)
    | ReadRequests(t: Tid)
    | DropLock(t: Tid)
    | DropStart(t: Tid)
    | SendIrq(t: Tid)
    | RunIrq(t: Tid, self: nat)
    | Overload(cpu: nat)
    | Relax(cpu: nat)

  function PcOf(s: State, t: Tid): Pc {
    if t in s.pcs then s.pcs[t] else Idle
  }

  function Goto(s: State, t: Tid, p: Pc): State {
    s.(pcs := s.pcs[t := p])
  }

  /** A new pass over the mask begins. */
  function BeginPass(s: State): State {
    s.(reached := {}, stable := s.mask, requested := false)
  }

  predicate Enabled(s: State, step: Step) {
    match step
    case Ask(t) => PcOf(s, t).Idle?
    case TryStart(t, _) => PcOf(s, t).Try?
    case Lock(t) => PcOf(s, t).WantLock? && s.lock.None?
    case ScanNext(t) => PcOf(s, t).Scan? && -1 <= s.rtoCpu
    case ReadRequests(t) => PcOf(s, t).AtEnd?
    case DropLock(t) => PcOf(s, t).Unlock?
    case DropStart(t) => PcOf(s, t).Release?
    case SendIrq(t) => PcOf(s, t).Send? && PcOf(s, t).cpu >= 0
    case RunIrq(t, self) => PcOf(s, t).Idle? && self in s.inFlight
    case Overload(_) => true
    case Relax(_) => true
  }

  /** `n` is the number of CPUs. */
  function Apply(n: nat, s: State, step: Step): State
    requires Enabled(s, step)
  {
    match step
    case Ask(t) => Goto(s.(loopNext := s.loopNext + 1, requested := true), t, Try)
    case TryStart(t, self) =>
      if s.startLock then Goto(s, t, Idle) else Goto(s.(startLock := true), t, WantLock(Tell, self))
    case Lock(t) =>
      var p := s.pcs[t];
      var s1 := s.(lock := Some(t));
      if p.kind.Irq? then Goto(s1, t, Scan(Irq, p.self))
      else if s.rtoCpu < 0 then Goto(BeginPass(s1), t, Scan(Tell, p.self))
      else Goto(s1, t, Unlock(Tell, -1))
    case ScanNext(t) =>
      var p := s.pcs[t];
      var cpu := NextCpu(s.mask, s.rtoCpu, n);
      if cpu >= n then Goto(s.(rtoCpu := -1), t, AtEnd(p.kind, p.self))
      else
        var s1 := s.(rtoCpu := cpu, reached := s.reached + {cpu});
        if cpu == p.self then s1 else Goto(s1, t, Unlock(p.kind, cpu))
    case ReadRequests(t) =>
      var p := s.pcs[t];
      if s.rtoLoop == s.loopNext then Goto(s, t, Unlock(p.kind, -1))
      else Goto(BeginPass(s.(rtoLoop := s.loopNext)), t, Scan(p.kind, p.self))
    case DropLock(t) =>
      var p := s.pcs[t];
      Goto(s.(lock := None), t,
           if p.kind.Tell? then Release(p.cpu) else if p.cpu < 0 then Idle else Send(p.cpu))
    case DropStart(t) =>
      var p := s.pcs[t];
      Goto(s.(startLock := false), t, if p.cpu < 0 then Idle else Send(p.cpu))
    case SendIrq(t) => Goto(s.(inFlight := s.inFlight + multiset{s.pcs[t].cpu}), t, Idle)
    case RunIrq(t, self) => Goto(s.(inFlight := s.inFlight - multiset{self}), t, WantLock(Irq, self))
    case Overload(cpu) => if cpu < n then s.(mask := s.mask + {cpu}) else s
    case Relax(cpu) => s.(mask := s.mask - {cpu}, stable := s.stable - {cpu})
  }

  // ---------- the token ----------

  /** The thread carries the push token: it is running the interrupt and has not retired it, or it
      is about to send it. */
  predicate Carries(p: Pc) {
    match p
    case WantLock(kind, _) => kind.Irq?
    case Scan(kind, _) => kind.Irq?
    case AtEnd(kind, _) => kind.Irq?
    case Unlock(_, cpu) => cpu >= 0
    case Release(cpu) => cpu >= 0
    case Send(cpu) => cpu >= 0
    case _ => false
  }

  predicate Holding(p: Pc) {
    p.Scan? || p.AtEnd? || p.Unlock?
  }

  predicate Scanning(p: Pc) {
    p.Scan? || p.AtEnd?
  }

  function Carriers(pcs: map<Tid, Pc>): set<Tid> {
    set t | t in pcs && Carries(pcs[t])
  }

  /** Push tokens in the system. */
  function Tokens(s: State): nat {
    |s.inFlight| + |Carriers(s.pcs)|
  }

  predicate BeingScanned(s: State) {
    s.lock.Some? && Scanning(PcOf(s, s.lock.value))
  }

  /** One thread: it holds the lock exactly if it is at a place under it, the position is reset at
      the end of a pass, and it only sends to a CPU. */
  predicate ThreadOk(s: State, t: Tid) {
    && (Holding(PcOf(s, t)) <==> s.lock == Some(t))
    && (PcOf(s, t).AtEnd? ==> s.rtoCpu == -1)
    && (PcOf(s, t).Send? ==> PcOf(s, t).cpu >= 0)
  }

  /** Between searches there is a token exactly while the position is a CPU; during one, exactly if
      the interrupt is searching. */
  predicate CountOk(s: State) {
    if BeingScanned(s) then Tokens(s) == if PcOf(s, s.lock.value).kind.Irq? then 1 else 0
    else Tokens(s) == if s.rtoCpu >= 0 then 1 else 0
  }

  ghost predicate TokenInv(n: nat, s: State) {
    -1 <= s.rtoCpu < n && CountOk(s) && forall t: Tid :: ThreadOk(s, t)
  }

  /** Everything that stayed in the mask and lies at or before the current position was reached;
      at the end of a pass that is everything. */
  ghost predicate PassInv(n: nat, s: State) {
    && (forall c :: c in s.mask ==> c < n)
    && s.stable <= s.mask
    && s.rtoLoop <= s.loopNext && (s.requested ==> s.rtoLoop < s.loopNext)
    && (forall c :: c in s.stable && c <= s.rtoCpu ==> c in s.reached)
    && (forall t: Tid :: PcOf(s, t).AtEnd? ==> s.stable <= s.reached)
  }

  /** A thread that is to send the interrupt, or runs it and has yet to search on, is about the CPU
      the domain's position names. */
  predicate TargetOk(s: State, t: Tid) {
    match PcOf(s, t)
    case Unlock(_, cpu) => cpu >= 0 ==> cpu == s.rtoCpu
    case Release(cpu) => cpu >= 0 ==> cpu == s.rtoCpu
    case Send(cpu) => cpu >= 0 ==> cpu == s.rtoCpu
    case WantLock(kind, self) => kind.Irq? ==> self == s.rtoCpu
    case _ => true
  }

  ghost predicate TargetInv(s: State) {
    (forall t: Tid :: TargetOk(s, t)) && forall c :: c in s.inFlight ==> c == s.rtoCpu
  }

  ghost predicate Inv(n: nat, s: State) {
    TokenInv(n, s) && PassInv(n, s) && TargetInv(s)
  }

  lemma CountWithout(a: set<Tid>, t: Tid)
    ensures |a| == |a - {t}| + (if t in a then 1 else 0)
  {
    if t in a {
      assert a == (a - {t}) + {t};
    } else {
      assert a == a - {t};
    }
  }

  lemma CarriersAfterGoto(s: State, s': State, t: Tid, p: Pc)
    requires s'.pcs == s.pcs[t := p]
    ensures |Carriers(s'.pcs)|
         == |Carriers(s.pcs)| - (if Carries(PcOf(s, t)) then 1 else 0) + (if Carries(p) then 1 else 0)
  {
    var before, after := Carriers(s.pcs), Carriers(s'.pcs);
    assert after - {t} == before - {t} by {
      hide Carries;
    }
    CountWithout(before, t);
    CountWithout(after, t);
  }

  lemma CarrierCounts(s: State, t: Tid)
    requires Carries(PcOf(s, t))
    ensures |Carriers(s.pcs)| >= 1
  {
    assert t in Carriers(s.pcs);
  }

  predicate OnMask(step: Step) {
    step.Overload? || step.Relax?
  }

  predicate UnderLock(step: Step) {
    step.Lock? || step.ScanNext? || step.ReadRequests? || step.DropLock?
  }

  lemma UnmovedUnderLock(n: nat, s: State, step: Step, t: Tid)
    requires Enabled(s, step) && UnderLock(step) && step.t != t
    ensures PcOf(Apply(n, s, step), t) == PcOf(s, t)
  {
    hide NextCpu;
  }

  /** Only the stepping thread moves. */
  lemma Unmoved(n: nat, s: State, step: Step, t: Tid)
    requires Enabled(s, step) && (OnMask(step) || step.t != t)
    ensures PcOf(Apply(n, s, step), t) == PcOf(s, t)
  {
    if UnderLock(step) {
      UnmovedUnderLock(n, s, step, t);
    }
  }

  /** Which step writes what. */
  lemma Untouched(n: nat, s: State, step: Step)
    requires Enabled(s, step)
    ensures var s' := Apply(n, s, step);
      && (!step.ScanNext? ==> s'.rtoCpu == s.rtoCpu)
      && (!step.ReadRequests? ==> s'.rtoLoop == s.rtoLoop)
      && s'.loopNext == (if step.Ask? then s.loopNext + 1 else s.loopNext)
      && s'.lock == (if step.Lock? then Some(step.t) else if step.DropLock? then None else s.lock)
      && s'.inFlight == (if step.SendIrq? then s.inFlight + multiset{PcOf(s, step.t).cpu}
                         else if step.RunIrq? then s.inFlight - multiset{step.self} else s.inFlight)
  {
  }

  lemma MovedUnderLock(n: nat, s: State, step: Step)
    requires Enabled(s, step) && UnderLock(step) && ThreadOk(s, step.t)
    ensures ThreadOk(Apply(n, s, step), step.t)
  {
  }

  lemma MovedOutside(n: nat, s: State, step: Step)
    requires Enabled(s, step) && !OnMask(step) && !UnderLock(step) && ThreadOk(s, step.t)
    ensures ThreadOk(Apply(n, s, step), step.t)
  {
  }

  /** What holds of every thread afterwards follows from the thread itself and the one that moved. */
  lemma ThreadStaysOk(n: nat, s: State, step: Step, t: Tid)
    requires ThreadOk(s, t) && Enabled(s, step)
    requires !step.Overload? && !step.Relax? ==> ThreadOk(s, step.t)
    ensures ThreadOk(Apply(n, s, step), t)
  {
    hide Apply;
    if OnMask(step) || step.t != t {
      Unmoved(n, s, step, t);
      Untouched(n, s, step);
    } else if UnderLock(step) {
      MovedUnderLock(n, s, step);
    } else {
      MovedOutside(n, s, step);
    }
  }

  lemma ScanKeepsCount(n: nat, s: State, step: Step)
    requires TokenInv(n, s) && Enabled(s, step) && step.ScanNext?
    ensures var s' := Apply(n, s, step); -1 <= s'.rtoCpu < n && CountOk(s')
  {
    hide Carriers;
    var t, s' := step.t, Apply(n, s, step);
    assert ThreadOk(s, t);
    if s'.pcs != s.pcs {
      CarriersAfterGoto(s, s', t, PcOf(s', t));
    }
  }

  lemma LockingKeepsCount(n: nat, s: State, step: Step)
    requires TokenInv(n, s) && Enabled(s, step) && (step.Lock? || step.DropLock? || step.ReadRequests?)
    ensures var s' := Apply(n, s, step); -1 <= s'.rtoCpu < n && CountOk(s')
  {
    hide Carriers;
    var t, s' := step.t, Apply(n, s, step);
    assert ThreadOk(s, t);
    CarriersAfterGoto(s, s', t, PcOf(s', t));
    if Carries(PcOf(s, t)) {
      CarrierCounts(s, t);
    }
  }

  /** Steps outside the lock move the token at most from one carrier to the next. */
  lemma OutsideKeepsCount(n: nat, s: State, step: Step)
    requires TokenInv(n, s) && Enabled(s, step)
    requires step.Ask? || step.TryStart? || step.DropStart? || step.SendIrq? || step.RunIrq?
    ensures var s' := Apply(n, s, step); -1 <= s'.rtoCpu < n && CountOk(s')
  {
    hide Carriers, Tokens;
    var s', t := Apply(n, s, step), step.t;
    assert ThreadOk(s, t);
    OutsideKeepsTokens(n, s, step);
    assert s.lock != Some(t) && BeingScanned(s') == BeingScanned(s);
  }

  lemma OutsideKeepsTokens(n: nat, s: State, step: Step)
    requires step.Ask? || step.TryStart? || step.DropStart? || step.SendIrq? || step.RunIrq?
    requires Enabled(s, step) && ThreadOk(s, step.t)
    ensures Tokens(Apply(n, s, step)) == Tokens(s)
  {
    hide Carriers;
    var s', t := Apply(n, s, step), step.t;
    CarriersAfterGoto(s, s', t, PcOf(s', t));
  }

  lemma MaskKeepsCount(n: nat, s: State, step: Step)
    requires TokenInv(n, s) && Enabled(s, step) && (step.Overload? || step.Relax?)
    ensures var s' := Apply(n, s, step); -1 <= s'.rtoCpu < n && CountOk(s')
  {
    hide Carriers, ThreadOk;
    assert forall t: Tid :: PcOf(Apply(n, s, step), t) == PcOf(s, t);
  }

  lemma StepKeepsToken(n: nat, s: State, step: Step)
    requires TokenInv(n, s) && Enabled(s, step)
    ensures TokenInv(n, Apply(n, s, step))
  {
    hide CountOk, ThreadOk, Apply;
    forall t: Tid
      ensures ThreadOk(Apply(n, s, step), t)
    {
      assert !step.Overload? && !step.Relax? ==> ThreadOk(s, step.t);
      ThreadStaysOk(n, s, step, t);
    }
    if step.ScanNext? {
      ScanKeepsCount(n, s, step);
    } else if step.Lock? || step.DropLock? || step.ReadRequests? {
      LockingKeepsCount(n, s, step);
    } else if step.Overload? || step.Relax? {
      MaskKeepsCount(n, s, step);
    } else {
      OutsideKeepsCount(n, s, step);
    }
  }

  /** Only the lock holder can be past the last CPU. */
  lemma AtEndHolds(n: nat, s: State, t: Tid, u: Tid)
    requires TokenInv(n, s) && PcOf(s, t).AtEnd? && Holding(PcOf(s, u))
    ensures u == t
  {
    hide CountOk;
    assert ThreadOk(s, t) && ThreadOk(s, u);
  }

  lemma LockingKeepsPass(n: nat, s: State, step: Step)
    requires Inv(n, s) && Enabled(s, step) && (step.Lock? || step.DropLock?)
    ensures PassInv(n, Apply(n, s, step))
  {
    hide Carriers, Carries;
    var s' := Apply(n, s, step);
    forall t: Tid | PcOf(s', t).AtEnd?
      ensures s'.stable <= s'.reached
    {
      assert PcOf(s, t).AtEnd? && ThreadOk(s, t) && ThreadOk(s, step.t);
    }
  }

  lemma ReadingKeepsPass(n: nat, s: State, step: Step)
    requires Inv(n, s) && Enabled(s, step) && step.ReadRequests?
    ensures PassInv(n, Apply(n, s, step))
  {
    hide CountOk;
    var s' := Apply(n, s, step);
    assert ThreadOk(s, step.t);
    forall t: Tid | PcOf(s', t).AtEnd?
      ensures false
    {
      AtEndHolds(n, s, t, step.t);
    }
  }

  lemma ScanKeepsPass(n: nat, s: State, step: Step)
    requires Inv(n, s) && Enabled(s, step) && step.ScanNext?
    ensures PassInv(n, Apply(n, s, step))
  {
    hide TokenInv;
    var s' := Apply(n, s, step);
    forall t: Tid | PcOf(s', t).AtEnd?
      ensures s'.stable <= s'.reached
    {
      if t != step.t {
        AtEndHolds(n, s, t, step.t);
      }
    }
  }

  lemma OtherKeepsPass(n: nat, s: State, step: Step)
    requires Inv(n, s) && Enabled(s, step) && !UnderLock(step)
    ensures PassInv(n, Apply(n, s, step))
  {
    hide TokenInv, TargetInv;
    var s' := Apply(n, s, step);
    forall t: Tid | PcOf(s', t).AtEnd?
      ensures s'.stable <= s'.reached
    {
      AtEndStays(n, s, step, t);
    }
  }

  lemma AtEndStays(n: nat, s: State, step: Step, t: Tid)
    requires Enabled(s, step) && !UnderLock(step)
    ensures PcOf(Apply(n, s, step), t).AtEnd? <==> PcOf(s, t).AtEnd?
  {
    if OnMask(step) || step.t != t {
      Unmoved(n, s, step, t);
      hide Apply;
    }
  }

  lemma StepKeepsPass(n: nat, s: State, step: Step)
    requires Inv(n, s) && Enabled(s, step)
    ensures PassInv(n, Apply(n, s, step))
  {
    hide Inv, PassInv, Apply;
    if step.ScanNext? {
      ScanKeepsPass(n, s, step);
    } else if step.ReadRequests? {
      ReadingKeepsPass(n, s, step);
    } else if step.Lock? || step.DropLock? {
      LockingKeepsPass(n, s, step);
    } else {
      OtherKeepsPass(n, s, step);
    }
  }

  /** While somebody searches, nobody else carries the token and none is in flight. */
  lemma SearcherAlone(n: nat, s: State, t: Tid, u: Tid)
    requires TokenInv(n, s) && PcOf(s, t).Scan? && u != t
    ensures !Carries(PcOf(s, u)) && s.inFlight == multiset{}
  {
    hide Carries;
    assert ThreadOk(s, t);
    var all := Carriers(s.pcs);
    CountWithout(all, t);
    assert Carries(PcOf(s, t)) <==> PcOf(s, t).kind.Irq? by {
      ScanCarries(PcOf(s, t));
    }
    NotCarriedIdle();
    assert t in all <==> Carries(PcOf(s, t));
    assert Carries(PcOf(s, u)) ==> u in all - {t};
  }

  lemma ScanCarries(p: Pc)
    requires p.Scan?
    ensures Carries(p) <==> p.kind.Irq?
  {
  }

  lemma NotCarriedIdle()
    ensures !Carries(Idle)
  {
  }

  lemma TargetStaysOk(n: nat, s: State, step: Step, t: Tid)
    requires TokenInv(n, s) && TargetInv(s) && Enabled(s, step)
    ensures TargetOk(Apply(n, s, step), t)
  {
    hide TokenInv, Carries, Apply, TargetOk;
    assert TargetOk(s, t);
    if OnMask(step) || step.t != t {
      Unmoved(n, s, step, t);
      Untouched(n, s, step);
      if step.ScanNext? {
        SearcherAlone(n, s, step.t, t);
        NotCarried(s, t);
      }
      SameTarget(s, Apply(n, s, step), t);
    } else {
      MovedTargetOk(n, s, step);
    }
  }

  lemma SameTarget(s: State, s': State, t: Tid)
    requires TargetOk(s, t) && PcOf(s', t) == PcOf(s, t)
    ensures s'.rtoCpu == s.rtoCpu ==> TargetOk(s', t)
  {
  }

  lemma MovedTargetOk(n: nat, s: State, step: Step)
    requires Enabled(s, step) && !OnMask(step) && TargetOk(s, step.t)
    requires forall c :: c in s.inFlight ==> c == s.rtoCpu
    ensures TargetOk(Apply(n, s, step), step.t)
  {
  }

  lemma NotCarried(s: State, t: Tid)
    requires !Carries(PcOf(s, t))
    ensures forall s' :: PcOf(s', t) == PcOf(s, t) ==> TargetOk(s', t)
  {
  }

  lemma FlightStaysOk(n: nat, s: State, step: Step)
    requires TokenInv(n, s) && TargetInv(s) && Enabled(s, step)
    ensures var s' := Apply(n, s, step); forall c :: c in s'.inFlight ==> c == s'.rtoCpu
  {
    hide TokenInv, Apply;
    Untouched(n, s, step);
    if step.ScanNext? {
      SearcherAlone(n, s, step.t, step.t + 1);
    } else if step.SendIrq? {
      assert TargetOk(s, step.t);
    }
  }

  lemma StepKeepsTarget(n: nat, s: State, step: Step)
    requires TokenInv(n, s) && TargetInv(s) && Enabled(s, step)
    ensures TargetInv(Apply(n, s, step))
  {
    hide TokenInv, TargetOk, Apply;
    FlightStaysOk(n, s, step);
    forall t: Tid
      ensures TargetOk(Apply(n, s, step), t)
    {
      TargetStaysOk(n, s, step, t);
    }
  }

  lemma StepKeepsInv(n: nat, s: State, step: Step)
    requires Inv(n, s) && Enabled(s, step)
    ensures Inv(n, Apply(n, s, step))
  {
    hide TokenInv, PassInv, TargetInv, Apply;
    StepKeepsTarget(n, s, step);
    StepKeepsPass(n, s, step);
    StepKeepsToken(n, s, step);
  }

  // ---------- whole runs ----------

  function Initial(): State {
    State(-1, 0, 0, {}, false, None, multiset{}, map[], {}, {}, false)
  }

  ghost predicate Runs(n: nat, s: State, steps: seq<Step>, s': State)
    decreases |steps|
  {
    if steps == [] then s == s'
    else Enabled(s, steps[0]) && Runs(n, Apply(n, s, steps[0]), steps[1..], s')
  }

  lemma {:induction false} RunKeepsInv(n: nat, s: State, steps: seq<Step>, s': State)
    requires Inv(n, s) && Runs(n, s, steps, s')
    ensures Inv(n, s')
    decreases |steps|
  {
    if steps != [] {
      StepKeepsInv(n, s, steps[0]);
      RunKeepsInv(n, Apply(n, s, steps[0]), steps[1..], s');
    }
  }

  /** In every interleaving there is never more than one push token, and between lock sections the
      domain's position is a CPU exactly while there is one. */
  lemma OneToken(n: nat, steps: seq<Step>, s: State)
    requires Runs(n, Initial(), steps, s) && 0 < n
    ensures Tokens(s) <= 1
    ensures s.lock.None? ==> (s.rtoCpu >= 0 <==> Tokens(s) == 1)
  {
    assert Carriers(Initial().pcs) == {};
    RunKeepsInv(n, Initial(), steps, s);
  }

  /** The step by which a carrier gives the token up. */
  predicate Retires(n: nat, s: State, step: Step)
    requires Enabled(s, step)
  {
    step.ReadRequests? && Carries(PcOf(s, step.t)) && !Carries(PcOf(Apply(n, s, step), step.t))
  }

  /** The token retires only at the end of a full pass that began after the latest request of any
      CPU, and in which every CPU that stayed overloaded throughout was reached. */
  lemma RetiresAfterFullPass(n: nat, steps: seq<Step>, s: State, step: Step)
    requires Runs(n, Initial(), steps, s) && 0 < n && Enabled(s, step) && Retires(n, s, step)
    ensures s.rtoLoop == s.loopNext && !s.requested && s.stable <= s.reached
  {
    assert Carriers(Initial().pcs) == {};
    RunKeepsInv(n, Initial(), steps, s);
  }

  /** No other step gives the token up: any other step keeps the number of tokens, except the
      decision of a request that finds none and starts one. */
  lemma OnlyRetiringLosesToken(n: nat, s: State, step: Step)
    requires Inv(n, s) && Enabled(s, step) && !Retires(n, s, step)
    ensures Tokens(Apply(n, s, step)) >= Tokens(s)
    ensures Tokens(Apply(n, s, step)) > Tokens(s) ==> step.ScanNext? && PcOf(s, step.t).kind.Tell? && Tokens(s) == 0
  {
    hide Carriers, TokenInv, PassInv, TargetInv, ThreadOk;
    if step.Overload? || step.Relax? {
      return;
    }
    var s', t := Apply(n, s, step), step.t;
    assert ThreadOk(s, t) by {
      InvThread(n, s, t);
    }
    if step.Ask? || step.TryStart? || step.DropStart? || step.SendIrq? || step.RunIrq? {
      OutsideKeepsTokens(n, s, step);
      hide Tokens, Apply;
    } else {
      if s'.pcs != s.pcs {
        CarriersAfterGoto(s, s', t, PcOf(s', t));
      }
      if step.ScanNext? && PcOf(s, t).kind.Tell? {
        TellScansWithoutToken(n, s, t);
      }
    }
  }

  lemma InvThread(n: nat, s: State, t: Tid)
    requires Inv(n, s)
    ensures ThreadOk(s, t) && TargetOk(s, t)
  {
  }

  /** A requester only searches when there is no token. */
  lemma TellScansWithoutToken(n: nat, s: State, t: Tid)
    requires Inv(n, s) && PcOf(s, t).Scan? && PcOf(s, t).kind.Tell?
    ensures Tokens(s) == 0
  {
    hide Carriers, PassInv;
    assert ThreadOk(s, t);
  }

  // ---------- one call among all the others ----------

  /** Ends of a pass among the steps: the requests are read past the last CPU. */
  function PassesEnded(steps: seq<Step>, t: Tid): nat {
    if steps == [] then 0 else (if steps[0] == ReadRequests(t) then 1 else 0) + PassesEnded(steps[1..], t)
  }

  function SearchSteps(steps: seq<Step>, t: Tid): nat {
    if steps == [] then 0
    else (if steps[0] == ReadRequests(t) || steps[0] == ScanNext(t) then 1 else 0) + SearchSteps(steps[1..], t)
  }

  /** Passes the lock holder can still end: the one it is in, and a full one if a request is unseen. */
  function PassesLeft(s: State, t: Tid): nat {
    if !Scanning(PcOf(s, t)) then 0 else if s.rtoLoop == s.loopNext then 1 else 2
  }

  function SearchLeft(n: nat, s: State, t: Tid): int {
    var again := if s.rtoLoop == s.loopNext then 0 else n + 2;
    if PcOf(s, t).Scan? then n - s.rtoCpu + 1 + again
    else if PcOf(s, t).AtEnd? then 1 + again
    else 0
  }

  lemma SearchStepPays(n: nat, s: State, t: Tid, step: Step)
    requires Inv(n, s) && s.lock == Some(t) && Enabled(s, step) && !step.Ask? && step != DropLock(t)
    ensures var s' := Apply(n, s, step);
      && s'.lock == Some(t)
      && PassesLeft(s', t) + (if step == ReadRequests(t) then 1 else 0) <= PassesLeft(s, t)
      && SearchLeft(n, s', t) + (if step == ReadRequests(t) || step == ScanNext(t) then 1 else 0) <= SearchLeft(n, s, t)
      && (step == ReadRequests(t) && PcOf(s', t).Scan? ==> s'.rtoCpu == -1)
  {
    hide PassInv, CountOk, TargetInv, Apply;
    assert !OnMask(step) ==> ThreadOk(s, step.t);
    if step == ScanNext(t) || step == ReadRequests(t) {
      OwnStepPays(n, s, t, step);
    } else {
      assert OnMask(step) || step.t != t by {
        assert ThreadOk(s, t);
      }
      Unmoved(n, s, step, t);
      Untouched(n, s, step);
    }
  }

  lemma OwnStepPays(n: nat, s: State, t: Tid, step: Step)
    requires Enabled(s, step) && ThreadOk(s, t) && (step == ScanNext(t) || step == ReadRequests(t)) && s.rtoCpu < n
    ensures var s' := Apply(n, s, step);
      && s'.lock == s.lock
      && PassesLeft(s', t) + (if step == ReadRequests(t) then 1 else 0) <= PassesLeft(s, t)
      && SearchLeft(n, s', t) < SearchLeft(n, s, t)
      && (step == ReadRequests(t) && PcOf(s', t).Scan? ==> s'.rtoCpu == -1)
  {
  }

  /** Whatever the other CPUs do meanwhile, overload bits set and cleared without the lock included:
      as long as nobody makes a new request, one search under the lock ends at most the pass it is
      in and, if a request was unseen, one full pass from the first CPU on; and it looks at the mask
      a bounded number of times. */
  lemma {:induction false} OneCallTwoPasses(n: nat, s: State, t: Tid, steps: seq<Step>, s': State)
    requires Inv(n, s) && s.lock == Some(t) && Runs(n, s, steps, s')
    requires forall i :: 0 <= i < |steps| ==> !steps[i].Ask? && steps[i] != DropLock(t)
    ensures s'.lock == Some(t)
    ensures PassesEnded(steps, t) + PassesLeft(s', t) <= PassesLeft(s, t) <= 2
    ensures s.rtoLoop == s.loopNext ==> PassesEnded(steps, t) <= 1
    ensures SearchSteps(steps, t) <= SearchLeft(n, s, t) <= 2 * (n + 2)
    decreases |steps|
  {
    hide TokenInv, PassInv;
    SearchLeftBounds(n, s, t);
    if steps != [] {
      assert !steps[0].Ask? && steps[0] != DropLock(t);
      SearchStepPays(n, s, t, steps[0]);
      StepKeepsInv(n, s, steps[0]);
      assert forall i :: 0 <= i < |steps[1..]| ==> steps[1..][i] == steps[i + 1];
      OneCallTwoPasses(n, Apply(n, s, steps[0]), t, steps[1..], s');
    }
  }

  lemma SearchLeftBounds(n: nat, s: State, t: Tid)
    requires Inv(n, s)
    ensures 0 <= SearchLeft(n, s, t) <= 2 * (n + 2)
  {
  }

  // ---------- where the interrupt goes ----------

  /** The step that decides on a CPU picks the next overloaded one after the position that is not the
      searcher's own, and makes it the position. */
  lemma DecidesOnOverloaded(n: nat, s: State, step: Step)
    requires Inv(n, s) && Enabled(s, step) && step.ScanNext? && PcOf(Apply(n, s, step), step.t).Unlock?
    ensures var s', self := Apply(n, s, step), PcOf(s, step.t).self;
            var cpu := PcOf(s', step.t).cpu;
            && cpu == s'.rtoCpu && s.rtoCpu < cpu < n && cpu in s.mask && cpu != self
            && forall c :: s.rtoCpu < c < cpu ==> c !in s.mask
  {
    hide TokenInv, PassInv, TargetInv;
  }

  /** In every interleaving the token is about the CPU the position names: whoever is to send the
      interrupt sends it there, one in flight is on its way there, and one that starts running does so
      there. */
  lemma TokenIsAtPosition(n: nat, steps: seq<Step>, s: State, t: Tid, cpu: nat)
    requires Runs(n, Initial(), steps, s) && 0 < n
    ensures PcOf(s, t) in {Unlock(Tell, cpu), Unlock(Irq, cpu), Release(cpu), Send(cpu)} ==> cpu == s.rtoCpu
    ensures cpu in s.inFlight ==> cpu == s.rtoCpu
    ensures Enabled(s, RunIrq(t, cpu)) ==> cpu == s.rtoCpu
  {
    assert Carriers(Initial().pcs) == {};
    RunKeepsInv(n, Initial(), steps, s);
    InvThread(n, s, t);
  }

  lemma {:induction false} RunsConcat(n: nat, s: State, a: seq<Step>, s1: State, b: seq<Step>, s2: State)
    requires Runs(n, s, a, s1) && Runs(n, s1, b, s2)
    ensures Runs(n, s, a + b, s2)
    decreases |a|
  {
    if a == [] {
      assert a + b == b;
    } else {
      assert (a + b)[0] == a[0] && (a + b)[1..] == a[1..] + b;
      RunsConcat(n, Apply(n, s, a[0]), a[1..], s1, b, s2);
    }
  }

  lemma OneStep(n: nat, s: State, step: Step)
    requires Enabled(s, step)
    ensures Runs(n, s, [step], Apply(n, s, step))
  {
    assert [step][1..] == [];
  }

  /** A search with an overloaded CPU ahead finds one, if it is left alone. */
  lemma {:induction false} SearchFinds(n: nat, s: State, t: Tid, c: nat) returns (steps: seq<Step>, s': State)
    requires Inv(n, s) && PcOf(s, t).Scan? && c in s.mask && s.rtoCpu < c && c != PcOf(s, t).self
    ensures Runs(n, s, steps, s') && Inv(n, s')
    ensures s'.rtoCpu in s.mask && s'.rtoCpu != PcOf(s, t).self && s.rtoCpu < s'.rtoCpu <= c
    ensures PcOf(s', t) == Unlock(PcOf(s, t).kind, s'.rtoCpu)
    ensures s'.mask == s.mask && s'.inFlight == s.inFlight && s'.startLock == s.startLock
    decreases c - s.rtoCpu
  {
    hide TargetInv;
    var step := ScanNext(t);
    assert -1 <= s.rtoCpu && c < n;
    var s1 := Apply(n, s, step);
    StepKeepsInv(n, s, step);
    OneStep(n, s, step);
    assert s1.rtoCpu <= c;
    hide Inv;
    if PcOf(s1, t).Scan? {
      steps, s' := SearchFinds(n, s1, t, c);
      RunsConcat(n, s, [step], s1, steps, s');
      steps := [step] + steps;
    } else {
      steps, s' := [step], s1;
    }
  }

  /** From a decision on a CPU on, the thread gets the interrupt on its way there. */
  lemma DecisionIsSent(n: nat, s: State, t: Tid) returns (steps: seq<Step>, s': State)
    requires Inv(n, s) && PcOf(s, t).Unlock? && PcOf(s, t).cpu >= 0
    ensures Runs(n, s, steps, s') && Inv(n, s') && PcOf(s', t).Idle? && s'.lock.None?
    ensures s'.inFlight == s.inFlight + multiset{PcOf(s, t).cpu}
    ensures s'.rtoCpu == s.rtoCpu && s'.mask == s.mask
    ensures PcOf(s, t).kind.Tell? ==> !s'.startLock
  {
    hide Inv;
    var s1 := Apply(n, s, DropLock(t));
    StepKeepsInv(n, s, DropLock(t));
    OneStep(n, s, DropLock(t));
    steps := [DropLock(t)];
    if PcOf(s, t).kind.Tell? {
      var s2 := Apply(n, s1, DropStart(t));
      StepKeepsInv(n, s1, DropStart(t));
      OneStep(n, s1, DropStart(t));
      RunsConcat(n, s, steps, s1, [DropStart(t)], s2);
      steps, s1 := steps + [DropStart(t)], s2;
    }
    s' := Apply(n, s1, SendIrq(t));
    StepKeepsInv(n, s1, SendIrq(t));
    OneStep(n, s1, SendIrq(t));
    RunsConcat(n, s, steps, s1, [SendIrq(t)], s');
    steps := steps + [SendIrq(t)];
  }

  /** A request is served: made while no token is about and nobody else starts one, it puts an
      interrupt on its way to an overloaded CPU other than its own, if there is one. */
  lemma RequestIsServed(n: nat, s: State, t: Tid, self: nat, c: nat) returns (steps: seq<Step>, s': State)
    requires Inv(n, s) && PcOf(s, t).Try? && !s.startLock && s.lock.None? && s.rtoCpu < 0 && c in s.mask && c != self
    ensures Runs(n, s, steps, s') && steps != [] && steps[0] == TryStart(t, self)
    ensures s'.inFlight == multiset{s'.rtoCpu} && s'.rtoCpu in s.mask && s'.rtoCpu != self
    ensures s'.lock.None? && !s'.startLock && PcOf(s', t).Idle?
  {
    assert s.rtoCpu == -1 && Tokens(s) == 0 && s.inFlight == multiset{};
    hide Inv;
    var s1 := Apply(n, s, TryStart(t, self));
    StepKeepsInv(n, s, TryStart(t, self));
    OneStep(n, s, TryStart(t, self));
    var s2 := Apply(n, s1, Lock(t));
    StepKeepsInv(n, s1, Lock(t));
    OneStep(n, s1, Lock(t));
    RunsConcat(n, s, [TryStart(t, self)], s1, [Lock(t)], s2);
    var search, s3 := SearchFinds(n, s2, t, c);
    var send;
    send, s' := DecisionIsSent(n, s3, t);
    RunsConcat(n, s2, search, s3, send, s');
    steps := [TryStart(t, self)] + [Lock(t)] + (search + send);
    RunsConcat(n, s, [TryStart(t, self)] + [Lock(t)], s2, search + send, s');
  }

  /** So is the very first one: a CPU becomes overloaded, somebody on another one asks. */
  lemma FirstRequestIsServed(n: nat, t: Tid, self: nat, c: nat) returns (steps: seq<Step>, s': State)
    requires c < n && c != self
    ensures Runs(n, Initial(), steps, s') && [Overload(c), Ask(t)] <= steps
    ensures s'.inFlight == multiset{c}
  {
    var s1 := Apply(n, Initial(), Overload(c));
    var s2 := Apply(n, s1, Ask(t));
    assert Carriers(Initial().pcs) == {};
    assert [Overload(c), Ask(t)][1..] == [Ask(t)];
    OneStep(n, s1, Ask(t));
    RunKeepsInv(n, Initial(), [Overload(c), Ask(t)], s2);
    steps, s' := RequestIsServed(n, s2, t, self, c);
    RunsConcat(n, Initial(), [Overload(c), Ask(t)], s2, steps, s');
    steps := [Overload(c), Ask(t)] + steps;
  }

  /** An interrupt that runs passes itself on, to the next overloaded CPU after its own. */
  lemma InterruptPassesOn(n: nat, s: State, t: Tid, self: nat, c: nat) returns (steps: seq<Step>, s': State)
    requires Inv(n, s) && PcOf(s, t).Idle? && s.lock.None? && s.inFlight == multiset{self} && c in s.mask && self < c
    ensures Runs(n, s, steps, s') && steps != [] && steps[0] == RunIrq(t, self)
    ensures s'.inFlight == multiset{s'.rtoCpu} && s'.rtoCpu in s.mask && self < s'.rtoCpu <= c
    ensures s'.lock.None? && PcOf(s', t).Idle?
  {
    assert self in s.inFlight && self == s.rtoCpu;
    hide Inv;
    var s1 := Apply(n, s, RunIrq(t, self));
    StepKeepsInv(n, s, RunIrq(t, self));
    OneStep(n, s, RunIrq(t, self));
    var s2 := Apply(n, s1, Lock(t));
    StepKeepsInv(n, s1, Lock(t));
    OneStep(n, s1, Lock(t));
    RunsConcat(n, s, [RunIrq(t, self)], s1, [Lock(t)], s2);
    var search, s3 := SearchFinds(n, s2, t, c);
    var send;
    send, s' := DecisionIsSent(n, s3, t);
    RunsConcat(n, s2, search, s3, send, s');
    steps := [RunIrq(t, self)] + [Lock(t)] + (search + send);
    RunsConcat(n, s, [RunIrq(t, self)] + [Lock(t)], s2, search + send, s');
  }

  predicate PassBegins(s: State, step: Step, s': State) {
    && (step.Lock? || step.ReadRequests?)
    && s'.reached == {} && s'.stable == s'.mask == s.mask && !s'.requested
    && s'.rtoCpu == -1 && PcOf(s', step.t).Scan?
  }

  ghost predicate PassGoesOn(s: State, step: Step, s': State) {
    && s.reached <= s'.reached && (forall c :: c in s'.reached - s.reached ==> c == s'.rtoCpu && step.ScanNext?)
    && s'.stable == s.stable * s'.mask
    && s'.requested == (s.requested || step.Ask?)
  }

  /** What the state remembers of the current pass is what happened: a CPU counts as reached only by
      the position getting there, stays known as overloaded throughout only while it is, and all is
      forgotten only when a pass begins at the start of the mask. */
  lemma MemoryIsHonest(n: nat, s: State, step: Step)
    requires Inv(n, s) && Enabled(s, step)
    ensures PassBegins(s, step, Apply(n, s, step)) || PassGoesOn(s, step, Apply(n, s, step))
  {
    hide CountOk, TargetInv, Apply, PassGoesOn, PassBegins;
    if step.Lock? || step.ReadRequests? {
      assert ThreadOk(s, step.t);
      MayBeginPass(n, s, step);
    } else {
      GoesOn(n, s, step);
    }
  }

  lemma MayBeginPass(n: nat, s: State, step: Step)
    requires Enabled(s, step) && (step.Lock? || step.ReadRequests?) && s.stable <= s.mask
    requires -1 <= s.rtoCpu && ThreadOk(s, step.t)
    ensures PassBegins(s, step, Apply(n, s, step)) || PassGoesOn(s, step, Apply(n, s, step))
  {
    assert s.stable == s.stable * s.mask;
  }

  lemma GoesOn(n: nat, s: State, step: Step)
    requires Enabled(s, step) && !step.Lock? && !step.ReadRequests? && s.stable <= s.mask
    ensures PassGoesOn(s, step, Apply(n, s, step))
  {
    assert s.stable == s.stable * s.mask;
  }
}
