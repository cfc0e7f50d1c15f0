/** Runtime of one bandwidth-limited group: a global pool refilled every period and a local balance
    per CPU that may run into debt. Every method is one section under the locks of the source. */
module Bandwidth {
  import opened Common

  const MIN_CFS_RQ_RUNTIME: nat := 1_000_000

  /** One CPU's runqueue of the group. `onCsd`: queued for being unthrottled. */
  datatype LocalRq = LocalRq(remaining: int, throttled: bool, onCsd: bool)

  function SumRemaining(rqs: seq<LocalRq>): int {
    if rqs == [] then 0 else rqs[0].remaining + SumRemaining(rqs[1..])
  }

  function Debt(rqs: seq<LocalRq>): nat {
    if rqs == [] then 0 else Max(0, -rqs[0].remaining) + Debt(rqs[1..])
  }

  lemma {:induction false} SumAfterUpdate(rqs: seq<LocalRq>, i: nat, rq: LocalRq)
    requires i < |rqs|
    ensures SumRemaining(rqs[i := rq]) == SumRemaining(rqs) - rqs[i].remaining + rq.remaining
  {
    if i == 0 {
      assert rqs[i := rq][1..] == rqs[1..];
    } else {
      assert rqs[i := rq][1..] == rqs[1..][i - 1 := rq];
      SumAfterUpdate(rqs[1..], i - 1, rq);
    }
  }

  lemma {:induction false} SumAtLeastDebt(rqs: seq<LocalRq>)
    ensures 0 - Debt(rqs) <= SumRemaining(rqs)
  {
    if rqs != [] {
      SumAtLeastDebt(rqs[1..]);
    }
  }

  /** A runqueue waiting throttled for runtime has none. */
  predicate StarvedIfThrottled(rq: LocalRq) {
    rq.throttled && !rq.onCsd ==> rq.remaining <= 0
  }

  ghost predicate ListOk(list: seq<nat>, rqs: seq<LocalRq>) {
    && (forall k :: 0 <= k < |list| ==> list[k] < |rqs| && rqs[list[k]].throttled)
    && Distinct(list)
    && (forall i :: 0 <= i < |rqs| && rqs[i].throttled ==> i in list)
  }

  class CfsBandwidth {
    const quota: Option<nat>  // None: unlimited
    const burst: nat
    const slice: nat
    var runtime: int
    var runtimeSnap: int
    var burstTime: nat
    var idle: bool
    var slackStarted: bool
    var throttledList: seq<nat>
    var rqs: seq<LocalRq>  // one per CPU

    // the ledger
    ghost const initial: int
    ghost var refilled: int
    ghost var consumed: int
    ghost var cut: int

    constructor (quota: Option<nat>, burst: nat, slice: nat, cpus: nat)
      ensures Valid() && this.quota == quota && this.burst == burst && this.slice == slice
      ensures runtime == 0 && throttledList == [] && !idle && !slackStarted && runtimeSnap == 0 && burstTime == 0
      ensures |rqs| == cpus && forall i :: 0 <= i < cpus ==> rqs[i] == LocalRq(0, false, false)
    {
      this.quota, this.burst, this.slice := quota, burst, slice;
      runtime, runtimeSnap, burstTime, idle, slackStarted, throttledList := 0, 0, 0, false, false, [];
      rqs := seq(cpus, _ => LocalRq(0, false, false));
      initial, refilled, consumed, cut := 0, 0, 0, 0;
      new;
      EmptyBalance(rqs);
    }

    /** Conservation: pool, local balances, time consumed and what the burst cap cut off add up to
        what was there plus everything refilled. */
    ghost predicate Balanced()
      reads this
    {
      quota.Some? ==> runtime + SumRemaining(rqs) + consumed + cut == initial + refilled
    }

    ghost predicate Valid()
      reads this
    {
      && Balanced()
      && 0 <= runtime && 0 <= cut
      && ListOk(throttledList, rqs)
      && forall i :: 0 <= i < |rqs| ==> StarvedIfThrottled(rqs[i])
    }

    /** What was consumed never exceeds what was provided by more than the debt still open. */
    lemma ConsumptionBound()
      requires Valid() && quota.Some?
      ensures consumed <= initial + refilled + Debt(rqs)
    {
      SumAtLeastDebt(rqs);
    }

    /** Start of a period: add the quota, cut back to quota plus burst. */
    method Refill()
      requires Valid()
      modifies this`runtime, this`runtimeSnap, this`burstTime, this`refilled, this`cut
      ensures Valid()
      ensures quota.None? ==> runtime == old(runtime) && refilled == old(refilled) && cut == old(cut)
      ensures quota.Some? ==>
                && refilled == old(refilled) + quota.value
                && runtime + (cut - old(cut)) == old(runtime) + quota.value
                && runtime == Min(old(runtime) + quota.value, quota.value + burst) && runtimeSnap == runtime
      ensures quota.Some? ==>  // use beyond the quota since the last refill
                burstTime == old(burstTime) + Max(0, (old(runtimeSnap) - old(runtime)) - quota.value)
    {
      if quota.None? {
        return;
      }
      runtime := runtime + quota.value;
      refilled := refilled + quota.value;
      var excess := runtimeSnap - runtime;
      if excess > 0 {
        burstTime := burstTime + excess;
      }
      var capped := Min(runtime, quota.value + burst);
      cut := cut + (runtime - capped);
      runtime := capped;
      runtimeSnap := runtime;
    }

    /** Move up to what brings the balance to `target` from the pool. It succeeds exactly when the
        balance becomes positive; with a limited quota that is when the pool covers the debt. */
    method Assign(i: nat, target: nat) returns (ok: bool)
      requires Valid() && i < |rqs| && rqs[i].remaining <= 0 && !rqs[i].throttled
      modifies this`runtime, this`rqs, this`idle
      ensures Valid() && |rqs| == old(|rqs|)
      ensures rqs == old(rqs)[i := old(rqs)[i].(remaining := rqs[i].remaining)]
      ensures ok <==> rqs[i].remaining > 0
      ensures quota.None? ==> runtime == old(runtime) && rqs[i].remaining == target
      ensures quota.Some? ==> rqs[i].remaining == Min(target, old(rqs)[i].remaining + old(runtime))
      ensures quota.Some? ==> runtime == old(runtime) - (rqs[i].remaining - old(rqs)[i].remaining)
      ensures idle == (old(idle) && (quota.None? || old(runtime) == 0))
    {
      var need, amount := target - rqs[i].remaining, 0;
      if quota.None? {
        amount := need;
      } else if runtime > 0 {
        amount := Min(runtime, need);
        runtime := runtime - amount;
        idle := false;
      }
      SetRemaining(i, rqs[i].remaining + amount);
      ok := rqs[i].remaining > 0;
    }

    /** Write one balance; the caller moved the difference out of the pool or the ledger. */
    method SetRemaining(i: nat, r: int)
      requires i < |rqs| && ListOk(throttledList, rqs)
      requires forall k :: 0 <= k < |rqs| ==> StarvedIfThrottled(rqs[k])
      requires StarvedIfThrottled(rqs[i].(remaining := r))
      modifies this`rqs
      ensures rqs == old(rqs)[i := old(rqs)[i].(remaining := r)]
      ensures SumRemaining(rqs) == SumRemaining(old(rqs)) - old(rqs)[i].remaining + r
      ensures ListOk(throttledList, rqs)
      ensures forall k :: 0 <= k < |rqs| ==> StarvedIfThrottled(rqs[k])
    {
      SumAfterUpdate(rqs, i, rqs[i].(remaining := r));
      rqs := rqs[i := rqs[i].(remaining := r)];
    }

    /** Charge execution time; an exhausted, unthrottled runqueue asks for another slice. */
    method Account(i: nat, delta: nat) returns (resched: bool)
      requires Valid() && i < |rqs|
      modifies this`runtime, this`rqs, this`idle, this`consumed
      ensures Valid() && |rqs| == old(|rqs|) && consumed == old(consumed) + delta
      ensures resched ==> rqs[i].remaining <= 0 && !rqs[i].throttled && (quota.Some? ==> runtime == 0 || slice == 0)
      ensures rqs == old(rqs)[i := old(rqs)[i].(remaining := rqs[i].remaining)]
      ensures var left := old(rqs)[i].remaining - delta;
              if old(rqs)[i].throttled || left > 0 then rqs[i].remaining == left && runtime == old(runtime)
              else if quota.None? then rqs[i].remaining == slice && runtime == old(runtime)
              else rqs[i].remaining == Min(slice, left + old(runtime))
                   && runtime == old(runtime) - (rqs[i].remaining - left)
      ensures var draws := !old(rqs)[i].throttled && old(rqs)[i].remaining - delta <= 0;
              && (resched <==> draws && rqs[i].remaining <= 0)
              && idle == (old(idle) && !(draws && quota.Some? && old(runtime) > 0))
    {
      resched := false;
      SetRemaining(i, rqs[i].remaining - delta);
      consumed := consumed + delta;
      if rqs[i].remaining <= 0 && !rqs[i].throttled {
        var ok := Assign(i, slice);
        resched := !ok;
      }
    }

    /** Throttle unless one nanosecond of runtime turns up after all. */
    method ThrottleIfEmpty(i: nat) returns (throttled: bool)
      requires Valid() && i < |rqs| && rqs[i].remaining <= 0 && !rqs[i].throttled
      modifies this`runtime, this`rqs, this`idle, this`throttledList
      ensures Valid() && |rqs| == old(|rqs|)
      ensures throttled <==> rqs[i].remaining <= 0
      ensures rqs == old(rqs)[i := old(rqs)[i].(remaining := rqs[i].remaining, throttled := throttled)]
      ensures quota.None? ==> runtime == old(runtime) && rqs[i].remaining == 1
      ensures quota.Some? ==> rqs[i].remaining == Min(1, old(rqs)[i].remaining + old(runtime))
      ensures idle == (old(idle) && (quota.None? || old(runtime) == 0))
      ensures throttledList == if throttled then old(throttledList) + [i] else old(throttledList)
      ensures quota.Some? ==> (throttled <==> old(rqs)[i].remaining + old(runtime) <= 0)
    {
      hide ListOk;
      var ok := Assign(i, 1);
      throttled := !ok;
      if throttled {
        SumAfterUpdate(rqs, i, rqs[i].(throttled := true));
        ThrottleKeepsList(throttledList, rqs, i);
        rqs := rqs[i := rqs[i].(throttled := true)];
        throttledList := throttledList + [i];
      }
    }

    /** Unthrottle a runqueue taken off the unthrottle queue, unless its runtime is gone again. */
    method Unthrottle(i: nat)
      requires Valid() && i < |rqs|
      modifies this`rqs, this`throttledList
      ensures Valid() && |rqs| == old(|rqs|)
      ensures rqs == old(rqs)[i := old(rqs)[i].(onCsd := false, throttled := rqs[i].throttled)]
      ensures rqs[i].throttled <==> old(rqs)[i].throttled && rqs[i].remaining <= 0
      ensures throttledList == if old(rqs)[i].throttled && !rqs[i].throttled then Removed(old(throttledList), i)
                               else old(throttledList)
    {
      var release := rqs[i].throttled && rqs[i].remaining > 0;
      var rq := rqs[i].(onCsd := false, throttled := rqs[i].throttled && !release);
      SumAfterUpdate(rqs, i, rq);
      if release {
        throttledList := Removed(throttledList, i);
      }
      rqs := rqs[i := rq];
    }

    /** Give one starving runqueue what lifts it just above zero, or all that is left, and queue it
        for being unthrottled if it was lifted. Neither the warning about a runqueue that was not
        starving nor those of the hand-over can fire. */
    method DistributeOne(i: nat) returns (warned: bool)
      requires Valid() && i < |rqs| && rqs[i].throttled && !rqs[i].onCsd && quota.Some?
      modifies this`runtime, this`rqs
      ensures Valid() && |rqs| == old(|rqs|) && !warned
      ensures rqs == old(rqs)[i := old(rqs)[i].(remaining := rqs[i].remaining, onCsd := rqs[i].remaining > 0)]
      ensures rqs[i].remaining == Min(1, old(rqs)[i].remaining + old(runtime)) >= old(rqs)[i].remaining
      ensures runtime == old(runtime) - (rqs[i].remaining - old(rqs)[i].remaining)
      ensures rqs[i].remaining <= 0 ==> runtime == 0
    {
      assert StarvedIfThrottled(rqs[i]);
      warned := rqs[i].remaining > 0;
      var amount := Min(-rqs[i].remaining + 1, runtime);
      runtime := runtime - amount;
      var r := rqs[i].remaining + amount;
      warned := warned || (r > 0 && (!rqs[i].throttled || rqs[i].onCsd));
      var rq := rqs[i].(remaining := r, onCsd := r > 0);
      SumAfterUpdate(rqs, i, rq);
      rqs := rqs[i := rq];
    }

    /** One round of the distribution, for a runqueue that is not queued yet. */
    method DistributeTo(i: nat) returns (lifted: bool, warned: bool)
      requires Valid() && i < |rqs| && rqs[i].throttled && !rqs[i].onCsd && quota.Some?
      modifies this`runtime, this`rqs
      ensures Valid() && !warned && 0 <= runtime <= old(runtime) && (!lifted ==> runtime == 0)
      ensures |rqs| == old(|rqs|) && (lifted <==> rqs[i].remaining > 0)
      ensures rqs == old(rqs)[i := rqs[i]] && Offered(old(rqs)[i], rqs[i], !lifted)
    {
      hide ListOk, StarvedIfThrottled, SumRemaining;
      warned := DistributeOne(i);
      lifted := rqs[i].remaining > 0;
    }

    /** The pass over the list: who is served, and whether this CPU's runqueue is to be released. */
    method HandOut(thisCpu: nat) returns (throttled: bool, warned: bool, local: seq<nat>, ghost k: nat)
      requires Valid() && quota.Some?
      modifies this`runtime, this`rqs
      ensures Valid() && |rqs| == old(|rqs|) && runtime <= old(runtime) && !warned
      ensures throttled ==> runtime == 0
      ensures Progress(old(rqs), rqs, throttledList, k, throttled) && (k < |throttledList| ==> throttled)
      ensures k > 0 ==> LiftedBefore(old(rqs), rqs, throttledList, k - 1)
      ensures local == if Lifted(old(rqs), rqs, throttledList, k, thisCpu) then [thisCpu] else []
    {
      hide ListOk, StarvedIfThrottled, Balanced, Progress, LiftedBefore, Lifted;
      throttled, warned, k, local := false, false, 0, [];
      var remaining, next := 1, 0;
      ghost var before, list := rqs, throttledList;
      NoProgressYet(rqs, list, thisCpu);
      while next < |throttledList|
        invariant Valid() && |rqs| == |before| && throttledList == list && next == k <= |list| && !warned
        invariant 0 <= remaining && (remaining == 0 ==> runtime == 0) && (throttled ==> runtime == 0)
        invariant runtime <= old(runtime) && Progress(before, rqs, list, k, throttled)
        invariant remaining > 0 ==> LiftedBefore(before, rqs, list, k)
        invariant k > 0 ==> LiftedBefore(before, rqs, list, k - 1)
        invariant local == if Lifted(before, rqs, list, k, thisCpu) then [thisCpu] else []
      {
        if remaining == 0 {
          ProgressWhenShort(before, rqs, list, k, throttled);
          throttled := true;
          break;
        }
        var i := throttledList[next];
        ghost var was, short := rqs, throttled;
        AtTurn(before, rqs, list, k, throttled);
        if !rqs[i].onCsd {
          var lifted, bad := DistributeTo(i);
          remaining, throttled := runtime, throttled || !lifted;
          warned := warned || bad || (lifted && i == thisCpu && local != []);
          local := if lifted && i == thisCpu then local + [i] else local;
        }
        ProgressStep(before, was, rqs, list, k, short, throttled);
        LiftedStep(before, was, rqs, list, k, thisCpu);
        next, k := next + 1, k + 1;
      }
    }

    /** Hand the pool out to the throttled runqueues in list order, without anyone interfering.
        The answer is true only with the pool empty; if it is false nobody was left without. At
        most one runqueue is unthrottled locally, and no warning on the way can fire. */
    method Distribute(thisCpu: nat) returns (throttled: bool, warned: bool)
      requires Valid() && quota.Some?
      modifies this`runtime, this`rqs, this`throttledList
      ensures Valid() && |rqs| == old(|rqs|) && runtime <= old(runtime) && !warned
      ensures throttled ==> runtime == 0
      ensures forall i :: 0 <= i < |rqs| ==> Served(old(rqs)[i], rqs[i], throttled)
      ensures FirstCome(old(rqs), rqs, old(throttledList))
      ensures forall i :: 0 <= i < |rqs| ==>  // a lifted runqueue of this CPU is released right away
                var stays := i != thisCpu || old(rqs)[i].onCsd || rqs[i].remaining <= 0;
                rqs[i].throttled == (old(rqs)[i].throttled && stays)
    {
      hide ListOk, StarvedIfThrottled, Balanced, Progress, Served, LiftedBefore, FirstCome, Lifted;
      ghost var before, list := rqs, throttledList;
      ghost var k;
      var local;
      throttled, warned, local, k := HandOut(thisCpu);
      AllServed(before, rqs, list, k, throttled);
      InTurn(before, rqs, list, k, throttled);
      FlagsKept(before, rqs, list, k, throttled, thisCpu);
      if local != [] {
        ghost var was := rqs;
        Unthrottle(local[0]);
        StillServed(before, was, rqs, thisCpu, throttled);
        StillFirstCome(before, was, rqs, list, thisCpu);
        local := local[1..];
      }
      warned := warned || local != [];
    }

    /** An idle runqueue gives back all but a small reserve. The slack timer is asked for exactly if
        that leaves the pool with more than a slice while somebody is throttled; it is then started
        unless it already was or a refill is near. */
    method ReturnSlack(i: nat, refillNear: bool) returns (start: bool)
      requires Valid() && i < |rqs|
      modifies this`runtime, this`rqs, this`slackStarted
      ensures Valid() && |rqs| == old(|rqs|)
      ensures rqs == old(rqs)[i := old(rqs)[i].(remaining := Min(old(rqs)[i].remaining, MIN_CFS_RQ_RUNTIME))]
      ensures quota.Some? ==> runtime == old(runtime) + (old(rqs)[i].remaining - rqs[i].remaining)
      ensures quota.None? ==> runtime == old(runtime)
      ensures var asked := quota.Some? && rqs != old(rqs) && runtime > slice && throttledList != [];
              start <==> asked && !refillNear && !old(slackStarted)
      ensures slackStarted == (old(slackStarted) || start)
    {
      start := false;
      var slack := rqs[i].remaining - MIN_CFS_RQ_RUNTIME;
      if slack <= 0 {
        return;
      }
      if quota.Some? {
        runtime := runtime + slack;
        if runtime > slice && throttledList != [] {
          start := !refillNear && !slackStarted;
          slackStarted := slackStarted || start;
        }
      }
      SetRemaining(i, rqs[i].remaining - slack);
    }

    /** The slack timer: hand out what is in the pool, unless a refill is near or a slice or less is
        left. */
    method SlackTimer(thisCpu: nat, refillNear: bool) returns (warned: bool)
      requires Valid()
      modifies this`runtime, this`rqs, this`throttledList, this`slackStarted
      ensures Valid() && |rqs| == old(|rqs|) && !slackStarted && !warned
      ensures refillNear || quota.None? || old(runtime) <= slice ==>
                runtime == old(runtime) && rqs == old(rqs) && throttledList == old(throttledList)
      ensures !refillNear && quota.Some? && old(runtime) > slice ==>
                runtime == 0 || forall i :: 0 <= i < |rqs| ==> Served(old(rqs)[i], rqs[i], false)
    {
      slackStarted, warned := false, false;
      if refillNear || quota.None? || runtime <= slice {
        return;
      }
      var throttled;
      throttled, warned := Distribute(thisCpu);
    }

    /** The period timer: refill, then distribute until the pool is empty or everybody is served.
        Without interference one distribution suffices. */
    method PeriodTimer(thisCpu: nat) returns (deactivate: bool, rounds: nat, warned: bool)
      requires Valid()
      modifies this
      ensures Valid() && |rqs| == old(|rqs|) && rounds <= 1 && !warned
      ensures deactivate <==> quota.None? || (old(idle) && old(throttledList) == [])
      ensures consumed == old(consumed)
      ensures quota.None? ==>
                && refilled == old(refilled) && idle == old(idle) && rqs == old(rqs)
                && runtime == old(runtime) && throttledList == old(throttledList)
      ensures quota.Some? ==>
                && refilled == old(refilled) + quota.value && runtime <= quota.value + burst
                && cut - old(cut) == Max(0, old(runtime) - burst)
                && runtimeSnap == Min(old(runtime) + quota.value, quota.value + burst)
      ensures quota.Some? && old(throttledList) == [] ==>
                idle && rqs == old(rqs) && throttledList == [] && runtime == runtimeSnap
      ensures quota.Some? && old(throttledList) != [] ==>
                && !idle
                && (runtime == 0 || forall i :: 0 <= i < |rqs| ==> Served(old(rqs)[i], rqs[i], false))
    {
      rounds, warned := 0, false;
      if quota.None? {
        return true, 0, false;
      }
      var throttled := throttledList != [];
      Refill();
      if idle && !throttled {
        return true, 0, false;
      }
      deactivate := false;
      if !throttled {
        idle := true;
        return;
      }
      ghost var before := rqs;
      while throttled && runtime > 0
        invariant Valid() && |rqs| == |before| && rounds <= 1 && !warned && runtime <= quota.value + burst
        invariant rounds == 0 ==> throttled && rqs == before
        invariant rounds == 1 && throttled ==> runtime == 0
        invariant rounds == 1 && !throttled ==> forall i :: 0 <= i < |rqs| ==> Served(before[i], rqs[i], false)
        modifies this`runtime, this`rqs, this`throttledList
        decreases 1 - rounds
      {
        throttled, warned := Distribute(thisCpu);
        rounds := rounds + 1;
      }
      idle := false;
    }
  }

  /** One runqueue of the list before and after it was its turn: only what the pool could not cover
      is still missing, and then the pool is known to be short. */
  predicate Offered(was: LocalRq, now: LocalRq, short: bool) {
    && was.remaining <= now.remaining <= Max(1, was.remaining) && now.throttled == was.throttled
    && (was.onCsd ==> now.remaining == was.remaining)
    && (was.onCsd || now.remaining > 0 || short)
  }

  /** A runqueue before and after a distribution: one that was not throttled is left alone, no other
      loses anything, and unless the pool was short each one is queued to go on or has runtime. */
  predicate Served(was: LocalRq, now: LocalRq, short: bool) {
    if !was.throttled then now == was
    else
      && was.remaining <= now.remaining <= Max(1, was.remaining)
      && (was.onCsd ==> now.remaining == was.remaining)
      && (was.onCsd || now.remaining > 0 || short)
  }

  /** The first `k` runqueues of the list had their turn, and nothing else changed. */
  ghost predicate Progress(before: seq<LocalRq>, rqs: seq<LocalRq>, list: seq<nat>, k: nat, short: bool) {
    && |rqs| == |before| && ListOk(list, before) && k <= |list|
    && (forall j :: 0 <= j < k ==> Offered(before[list[j]], rqs[list[j]], short))
    && (forall i :: 0 <= i < |rqs| && i !in list[..k] ==> rqs[i] == before[i])
  }

  lemma NoProgressYet(rqs: seq<LocalRq>, list: seq<nat>, c: nat)
    requires ListOk(list, rqs)
    ensures Progress(rqs, rqs, list, 0, false) && LiftedBefore(rqs, rqs, list, 0) && !Lifted(rqs, rqs, list, 0, c)
  {
  }

  lemma ProgressWhenShort(before: seq<LocalRq>, rqs: seq<LocalRq>, list: seq<nat>, k: nat, short: bool)
    requires Progress(before, rqs, list, k, short)
    ensures Progress(before, rqs, list, k, true)
  {
    forall j | 0 <= j < k
      ensures Offered(before[list[j]], rqs[list[j]], true)
    {
      assert Offered(before[list[j]], rqs[list[j]], short);
    }
  }

  lemma AtTurn(before: seq<LocalRq>, rqs: seq<LocalRq>, list: seq<nat>, k: nat, short: bool)
    requires Progress(before, rqs, list, k, short) && k < |list|
    ensures list[k] < |rqs| && rqs[list[k]] == before[list[k]] && rqs[list[k]].throttled && list[k] !in list[..k]
  {
  }

  ghost predicate LiftedBefore(before: seq<LocalRq>, rqs: seq<LocalRq>, list: seq<nat>, k: nat) {
    forall j :: 0 <= j < k && j < |list| && list[j] < |rqs| == |before| ==>
      before[list[j]].onCsd || rqs[list[j]].remaining > 0
  }

  /** Those throttled first are served first: while one is left without, nobody after it gets
      anything. */
  ghost predicate FirstCome(before: seq<LocalRq>, rqs: seq<LocalRq>, list: seq<nat>) {
    forall j, k :: 0 <= j < k < |list| && list[j] < |rqs| && list[k] < |rqs| == |before| ==>
      before[list[j]].onCsd || rqs[list[j]].remaining > 0 || rqs[list[k]].remaining == before[list[k]].remaining
  }

  /** This runqueue had its turn and was given what it needed. */
  ghost predicate Lifted(before: seq<LocalRq>, rqs: seq<LocalRq>, list: seq<nat>, k: nat, c: nat) {
    k <= |list| && c in list[..k] && c < |rqs| == |before| && !before[c].onCsd && rqs[c].remaining > 0
  }

  lemma LiftedStep(before: seq<LocalRq>, rqs: seq<LocalRq>, rqs': seq<LocalRq>, list: seq<nat>, k: nat, c: nat)
    requires LiftedBefore(before, rqs, list, k) && ListOk(list, before) && k < |list| && |rqs'| == |rqs| == |before|
    requires list[k] < |rqs| && rqs' == rqs[list[k] := rqs'[list[k]]]
    ensures LiftedBefore(before, rqs', list, k)
    ensures before[list[k]].onCsd || rqs'[list[k]].remaining > 0 ==> LiftedBefore(before, rqs', list, k + 1)
    ensures Lifted(before, rqs', list, k + 1, c)
       <==> if c == list[k] then !before[c].onCsd && rqs'[c].remaining > 0 else Lifted(before, rqs, list, k, c)
    ensures !Lifted(before, rqs, list, k, list[k])
  {
    assert forall j :: 0 <= j < k ==> list[j] != list[k];
    assert list[..k + 1] == list[..k] + [list[k]];
  }

  lemma InTurn(before: seq<LocalRq>, rqs: seq<LocalRq>, list: seq<nat>, k: nat, short: bool)
    requires Progress(before, rqs, list, k, short) && (k > 0 ==> LiftedBefore(before, rqs, list, k - 1))
    ensures FirstCome(before, rqs, list)
  {
    forall i, j | 0 <= i < j < |list|
      ensures before[list[i]].onCsd || rqs[list[i]].remaining > 0 || rqs[list[j]].remaining == before[list[j]].remaining
    {
      if j >= k {
        assert list[j] !in list[..k];
      }
    }
  }

  lemma FlagsKept(before: seq<LocalRq>, rqs: seq<LocalRq>, list: seq<nat>, k: nat, short: bool, c: nat)
    requires Progress(before, rqs, list, k, short) && forall i :: 0 <= i < |before| ==> StarvedIfThrottled(before[i])
    ensures |rqs| == |before| && forall i :: 0 <= i < |rqs| ==> rqs[i].throttled == before[i].throttled
    ensures Lifted(before, rqs, list, k, c)
       <==> c < |rqs| && before[c].throttled && !before[c].onCsd && rqs[c].remaining > 0
  {
    forall i | 0 <= i < |rqs|
      ensures rqs[i].throttled == before[i].throttled && (i in list[..k] ==> before[i].throttled)
    {
      if i in list[..k] {
        var j :| 0 <= j < k && list[..k][j] == i;
        assert list[j] == i;
      }
    }
  }

  lemma StillFirstCome(before: seq<LocalRq>, rqs: seq<LocalRq>, rqs': seq<LocalRq>, list: seq<nat>, i: nat)
    requires |rqs| == |rqs'| == |before| && i < |rqs| && FirstCome(before, rqs, list)
    requires rqs' == rqs[i := rqs'[i]] && rqs'[i].remaining == rqs[i].remaining
    ensures FirstCome(before, rqs', list)
  {
  }

  lemma ProgressStep(before: seq<LocalRq>, rqs: seq<LocalRq>, rqs': seq<LocalRq>, list: seq<nat>, k: nat,
                     short: bool, short': bool)
    requires Progress(before, rqs, list, k, short) && k < |list| && |rqs'| == |rqs| && (short ==> short')
    requires list[k] < |rqs| && rqs' == rqs[list[k] := rqs'[list[k]]]
    requires (rqs[list[k]].onCsd && rqs' == rqs) || Offered(rqs[list[k]], rqs'[list[k]], short')
    ensures Progress(before, rqs', list, k + 1, short')
  {
    AtTurn(before, rqs, list, k, short);
    assert list[..k + 1] == list[..k] + [list[k]];
    forall j | 0 <= j < k + 1
      ensures Offered(before[list[j]], rqs'[list[j]], short')
    {
      if j < k {
        assert list[j] != list[k] && Offered(before[list[j]], rqs[list[j]], short);
      }
    }
  }

  lemma AllServed(before: seq<LocalRq>, rqs: seq<LocalRq>, list: seq<nat>, k: nat, short: bool)
    requires Progress(before, rqs, list, k, short) && (k < |list| ==> short)
    ensures |rqs| == |before| && forall i :: 0 <= i < |rqs| ==> Served(before[i], rqs[i], short)
  {
    forall i | 0 <= i < |rqs|
      ensures Served(before[i], rqs[i], short)
    {
      if i in list[..k] {
        var j :| 0 <= j < k && list[..k][j] == i;
        assert list[j] == i && before[i].throttled;
      } else if before[i].throttled {
        assert i in list;
        assert list[..|list|] == list;
      }
    }
  }

  /** Unthrottling a runqueue that was served leaves everybody served. */
  lemma StillServed(before: seq<LocalRq>, rqs: seq<LocalRq>, rqs': seq<LocalRq>, i: nat, short: bool)
    requires |rqs| == |rqs'| == |before| && i < |rqs| && before[i].throttled
    requires forall x :: 0 <= x < |rqs| ==> Served(before[x], rqs[x], short)
    requires rqs' == rqs[i := rqs'[i]] && rqs'[i].remaining == rqs[i].remaining
    ensures forall x :: 0 <= x < |rqs'| ==> Served(before[x], rqs'[x], short)
  {
    assert Served(before[i], rqs[i], short);
    forall x | 0 <= x < |rqs'|
      ensures Served(before[x], rqs'[x], short)
    {
      assert Served(before[x], rqs[x], short);
    }
  }

  /** The list without one of its members, the others in order. */
  function Removed(list: seq<nat>, i: nat): (r: seq<nat>)
    requires i in list && Distinct(list)
    ensures Distinct(r)
    ensures forall x :: x in r <==> x in list && x != i
    ensures exists k :: 0 <= k < |list| && list[k] == i && r == list[..k] + list[k + 1..]
  {
    var k :| 0 <= k < |list| && list[k] == i;
    list[..k] + list[k + 1..]
  }

  lemma ThrottleKeepsList(list: seq<nat>, rqs: seq<LocalRq>, i: nat)
    requires ListOk(list, rqs) && i < |rqs| && !rqs[i].throttled
    ensures ListOk(list + [i], rqs[i := rqs[i].(throttled := true)])
  {
  }

  lemma {:induction false} EmptyBalance(rqs: seq<LocalRq>)
    requires forall i :: 0 <= i < |rqs| ==> rqs[i].remaining == 0
    ensures SumRemaining(rqs) == 0
  {
    if rqs != [] {
      EmptyBalance(rqs[1..]);
    }
  }
}
