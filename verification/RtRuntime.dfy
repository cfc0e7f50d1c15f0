/** Real-time runtime of one task group, spread over the runqueues of a fixed span of CPUs.

    Runqueues borrow unused runtime from each other. Taking a CPU out of service reclaims what its
    runqueue lent or hands back what it borrowed, and marks it as having infinite runtime so that
    nobody borrows from it. */
module RtRuntime {
  import opened Common

  datatype Runtime = Inf | Fin(v: int)

  /** Runtime held by the runqueues that take part in borrowing. */
  function SumFin(s: seq<Runtime>): int {
    if s == [] then 0 else (if s[0].Fin? then s[0].v else 0) + SumFin(s[1..])
  }

  /** How many runqueues take part. */
  function CountFin(s: seq<Runtime>): nat {
    if s == [] then 0 else (if s[0].Fin? then 1 else 0) + CountFin(s[1..])
  }

  function Value(r: Runtime): int {
    if r.Fin? then r.v else 0
  }

  function One(r: Runtime): int {
    if r.Fin? then 1 else 0
  }

  lemma {:induction false} SumsAfterUpdate(s: seq<Runtime>, i: nat, r: Runtime)
    requires i < |s|
    ensures SumFin(s[i := r]) == SumFin(s) - Value(s[i]) + Value(r)
    ensures CountFin(s[i := r]) == CountFin(s) - One(s[i]) + One(r)
  {
    if i == 0 {
      assert s[i := r][1..] == s[1..];
    } else {
      assert s[i := r][1..] == s[1..][i - 1 := r];
      SumsAfterUpdate(s[1..], i - 1, r);
    }
  }

  lemma {:induction false} SumsOfNothing(s: seq<Runtime>)
    ensures (forall i :: 0 <= i < |s| ==> Value(s[i]) == 0) ==> SumFin(s) == 0
    ensures (forall i :: 0 <= i < |s| ==> s[i].Inf?) ==> CountFin(s) == 0
  {
    if s != [] {
      SumsOfNothing(s[1..]);
      assert forall i :: 0 <= i < |s[1..]| ==> s[1..][i] == s[i + 1];
    }
  }

  /** The conservation law: n participating runqueues hold n times the group's runtime. */
  predicate Conserved(s: seq<Runtime>, B: nat) {
    SumFin(s) == CountFin(s) * B
  }

  predicate NoDebt(s: seq<Runtime>) {
    forall i :: 0 <= i < |s| && s[i].Fin? ==> 0 <= s[i].v
  }

  /** If runqueue `k` misses something, the others hold at least that much. */
  lemma OthersCanRepay(s: seq<Runtime>, k: nat, B: nat, missing: int, s0: seq<Runtime>)
    requires k < |s| == |s0| && s[k].Fin? && s0[k] == s[k] && Conserved(s0, B)
    requires SumFin(s) == SumFin(s0) - (B - s[k].v - missing)
    requires forall i :: 0 <= i < |s| && i != k ==> Value(s[i]) == 0
    ensures missing <= 0
  {
    SumsAfterUpdate(s, k, Inf);
    SumsOfNothing(s[k := Inf]);
    SumsAfterUpdate(s0, k, Inf);
    AtLeastOneShare(CountFin(s0), B);
  }

  lemma AtLeastOneShare(n: nat, B: nat)
    requires 1 <= n
    ensures n * B >= B
  {
  }

  /** If nobody else takes part, runqueue `k` holds exactly the group's runtime. */
  lemma AloneHoldsOwn(s: seq<Runtime>, k: nat, B: nat)
    requires k < |s| && s[k].Fin? && Conserved(s, B)
    requires forall i :: 0 <= i < |s| && i != k ==> s[i].Inf?
    ensures s[k].v == B
  {
    SumsAfterUpdate(s, k, Inf);
    SumsOfNothing(s[k := Inf]);
    assert CountFin(s) == 1;
  }

  /** The part of a neighbour's spare time to take: one n-th, cut where the borrower would pass
      the period. It never exceeds the spare time, and it is negative only for a borrower that
      already holds more than the period. */
  function CappedShare(spare: int, weight: nat, held: int, period: nat): (d: int)
    requires 0 < spare && 0 < weight
    ensures d <= spare && held + d <= period
    ensures held <= period ==> 0 <= d
    ensures held > period ==> held + d == period
    ensures held + d == period || d == spare / weight
  {
    var d := spare / weight;
    ShareBounds(spare, weight);
    if held + d > period then period - held else d
  }

  /** What one runqueue offers a neighbour: one n-th of its spare time. */
  function Share(r: Runtime, time: nat, n: nat): nat
    requires 0 < n
  {
    if r.Fin? && r.v - time > 0 then ShareBounds(r.v - time, n); (r.v - time) / n else 0
  }

  /** What the first `upto` runqueues together offer to runqueue `k`. */
  function Offered(s: seq<Runtime>, time: seq<nat>, k: nat, upto: nat): nat
    requires upto <= |s| == |time|
  {
    if upto == 0 then 0
    else Offered(s, time, k, upto - 1) + if upto - 1 == k then 0 else Share(s[upto - 1], time[upto - 1], |s|)
  }

  lemma {:induction false} OfferedGrows(s: seq<Runtime>, time: seq<nat>, k: nat, a: nat, b: nat)
    requires a <= b <= |s| == |time|
    ensures Offered(s, time, k, a) <= Offered(s, time, k, b)
  {
    hide Share;
    if a < b {
      OfferedGrows(s, time, k, a, b - 1);
    }
  }

  /** What runqueue `i` lends: its offer, as far as those before it have left the borrower short of the
      period. */
  function Lends(s: seq<Runtime>, time: seq<nat>, k: nat, period: nat, i: nat): int
    requires k < |s| == |time| && s[k].Fin? && i < |s|
  {
    Min(period, s[k].v + Offered(s, time, k, i + 1)) - Min(period, s[k].v + Offered(s, time, k, i))
  }

  /** It has not used up all it holds. */
  predicate Spare(r: Runtime, time: nat) {
    r.Fin? && r.v > time
  }

  /** The first runqueue but `k` that has time to spare, if there is any. */
  ghost predicate FirstSpare(s: seq<Runtime>, time: seq<nat>, k: nat, i: nat) {
    && i < |s| == |time| && i != k && Spare(s[i], time[i])
    && forall j :: 0 <= j < i && j != k ==> !Spare(s[j], time[j])
  }

  /** What the first `upto` runqueues but `k` hold together. */
  function Held(s: seq<Runtime>, k: nat, upto: nat): int
    requires upto <= |s|
  {
    if upto == 0 then 0 else Held(s, k, upto - 1) + if upto - 1 == k then 0 else Value(s[upto - 1])
  }

  lemma {:induction false} HeldGrows(s: seq<Runtime>, k: nat, a: nat, b: nat)
    requires a <= b <= |s| && NoDebt(s)
    ensures Held(s, k, a) <= Held(s, k, b)
  {
    if a < b {
      HeldGrows(s, k, a, b - 1);
    }
  }

  /** What runqueue `i` hands over when so much is taken back greedily, first come first. */
  function HandsOver(s: seq<Runtime>, k: nat, missing: int, i: nat): int
    requires i < |s|
  {
    Min(missing, Held(s, k, i + 1)) - Min(missing, Held(s, k, i))
  }

  /** The first runqueue but `k` that takes part. */
  ghost predicate FirstOther(s: seq<Runtime>, k: nat, i: nat) {
    i < |s| && i != k && s[i].Fin? && forall j :: 0 <= j < i && j != k ==> s[j].Inf?
  }

  /** The others after runqueue `k` has settled its account: what it lent is taken back, or the first of
      them gets what it borrowed. */
  ghost predicate Settled(was: seq<Runtime>, now: seq<Runtime>, k: nat, B: nat) {
    && |now| == |was| && k < |was|
    && if was[k].Inf? || was[k].v == B then forall i :: 0 <= i < |was| && i != k ==> now[i] == was[i]
       else if was[k].v < B then
         forall i :: 0 <= i < |was| && i != k ==>
           now[i] == Less(was[i], HandsOver(was, k, B - was[k].v, i))
       else
         forall i :: 0 <= i < |was| && i != k ==>
           now[i] == if FirstOther(was, k, i) then Less(was[i], B - was[k].v) else was[i]
  }

  function Less(r: Runtime, amount: int): Runtime {
    if r.Inf? then Inf else Fin(r.v - amount)
  }

  /** The first `upto` runqueues have handed over what falls to them. */
  ghost predicate Reclaimed(was: seq<Runtime>, now: seq<Runtime>, k: nat, missing: int, upto: nat) {
    && upto <= |now| == |was|
    && forall j :: 0 <= j < |was| && j != k ==>
         now[j] == if j < upto then Less(was[j], HandsOver(was, k, missing, j)) else was[j]
  }

  lemma NoneReclaimed(s: seq<Runtime>, k: nat)
    ensures forall missing :: Reclaimed(s, s, k, missing, 0)
  {
  }

  lemma ReclaimedStep(was: seq<Runtime>, s: seq<Runtime>, k: nat, missing: int, i: nat)
    requires Reclaimed(was, s, k, missing, i) && Held(was, k, i) < missing && i < |s|
    ensures i != k && s[i].Fin? ==>
              Reclaimed(was, s[i := Fin(s[i].v - Min(s[i].v, missing - Held(was, k, i)))], k, missing, i + 1)
    ensures i == k || s[i].Inf? ==> Reclaimed(was, s, k, missing, i + 1)
    ensures Held(was, k, i + 1) == Held(was, k, i) + if i == k then 0 else Value(s[i])
  {
  }

  /** Once nothing is missing, nothing falls to those not reached. */
  lemma ReclaimedAll(was: seq<Runtime>, s: seq<Runtime>, k: nat, B: nat, i: nat)
    requires k < |was| && was[k].Fin? && was[k].v < B
    requires Reclaimed(was, s, k, B - was[k].v, i) && Held(was, k, i) >= B - was[k].v && NoDebt(was)
    ensures Settled(was, s, k, B)
  {
    var missing := B - was[k].v;
    forall j | i <= j < |was| && j != k
      ensures s[j] == Less(was[j], HandsOver(was, k, missing, j))
    {
      HeldGrows(was, k, i, j);
      HeldGrows(was, k, i, j + 1);
    }
  }

  lemma NothingLeft(was: seq<Runtime>, s: seq<Runtime>, k: nat, missing: int)
    requires Reclaimed(was, s, k, missing, |s|) && Held(was, k, |s|) < missing && NoDebt(was)
    ensures forall j :: 0 <= j < |s| && j != k ==> Value(s[j]) == 0
  {
    hide NoDebt;
    forall j | 0 <= j < |s| && j != k
      ensures Value(s[j]) == 0
    {
      HeldGrows(was, k, j, |s|);
      HeldGrows(was, k, j + 1, |s|);
      assert HandsOver(was, k, missing, j) == Held(was, k, j + 1) - Held(was, k, j) == Value(was[j]);
      assert s[j] == Less(was[j], Value(was[j]));
    }
  }

  lemma SettledWithFirst(was: seq<Runtime>, k: nat, B: nat, i: nat)
    requires k < |was| && was[k].Fin? && was[k].v > B && FirstOther(was, k, i)
    ensures Settled(was, was[i := Fin(was[i].v - (B - was[k].v))], k, B)
  {
  }

  lemma OutOfService(was: seq<Runtime>, s: seq<Runtime>, k: nat, B: nat)
    requires k < |was| && (Settled(was, s, k, B) || (s == was && (was[k].Inf? || was[k].v == B)))
    ensures |s| == |was| && Settled(was, s[k := Inf], k, B)
  {
  }

  /** A neighbour never gains by lending, nor lends what it has used. */
  predicate Lent(was: Runtime, now: Runtime, time: nat) {
    now == was || (was.Fin? && now.Fin? && now.v <= was.v && time <= now.v)
  }

  /** One neighbour has lent so much. */
  predicate Gave(was: Runtime, now: Runtime, time: nat, lent: int) {
    Lent(was, now, time) && (now.Fin? <==> was.Fin?) && Value(was) - Value(now) == lent
  }

  /** The first `upto` runqueues have been asked: the borrower has what they offer, up to the period, and
      each has lent what falls to it in turn. */
  ghost predicate Borrowed(was: seq<Runtime>, now: seq<Runtime>, time: seq<nat>, k: nat, period: nat, upto: nat) {
    && k < |was| == |now| == |time| && upto <= |was| && was[k].Fin? && now[k].Fin?
    && now[k].v == Min(period, was[k].v + Offered(was, time, k, upto))
    && forall j :: 0 <= j < |was| && j != k ==>
         Gave(was[j], now[j], time[j], if j < upto then Lends(was, time, k, period, j) else 0)
  }

  ghost predicate NoneSpare(s: seq<Runtime>, time: seq<nat>, k: nat, upto: nat) {
    upto <= |s| == |time| && forall j :: 0 <= j < upto && j != k ==> !Spare(s[j], time[j])
  }

  /** A runqueue that holds more than the period gives the excess to the first with time to spare. */
  ghost predicate GivenUp(was: seq<Runtime>, now: seq<Runtime>, time: seq<nat>, k: nat, period: nat) {
    && k < |was| == |now| == |time| && was[k].Fin?
    && if NoneSpare(was, time, k, |was|) then now == was
       else
         exists i: nat :: FirstSpare(was, time, k, i)
           && now == was[i := Fin(was[i].v + was[k].v - period)][k := Fin(period)]
  }

  lemma NothingBorrowed(s: seq<Runtime>, time: seq<nat>, k: nat, period: nat)
    requires k < |s| == |time| && s[k].Fin?
    ensures s[k].v <= period ==> Borrowed(s, s, time, k, period, 0)
  {
  }

  lemma NotReached(was: seq<Runtime>, s: seq<Runtime>, time: seq<nat>, k: nat, period: nat, i: nat)
    requires Borrowed(was, s, time, k, period, i) && i < |s|
    ensures i != k ==> s[i] == was[i]
    ensures s[k].v <= period
  {
    assert i != k ==> Gave(was[i], s[i], time[i], 0);
  }

  lemma BorrowedStep(was: seq<Runtime>, s: seq<Runtime>, s': seq<Runtime>, time: seq<nat>, k: nat, period: nat, i: nat)
    requires Borrowed(was, s, time, k, period, i) && i < |s| == |s'| && i != k && s[i].Fin? && s[i] == was[i]
    requires s'[i].Fin? && s'[k].Fin? && s' == s[i := s'[i]][k := s'[k]] && Lent(s[i], s'[i], time[i])
    requires s'[k].v == Min(period, s[k].v + Share(s[i], time[i], |s|)) && s'[i].v + s'[k].v == s[i].v + s[k].v
    ensures Borrowed(was, s', time, k, period, i + 1)
  {
    hide Lent, Share;
    forall j | 0 <= j < |was| && j != k
      ensures Gave(was[j], s'[j], time[j], if j < i + 1 then Lends(was, time, k, period, j) else 0)
    {
      assert Gave(was[j], s[j], time[j], if j < i then Lends(was, time, k, period, j) else 0);
    }
  }

  lemma NothingLent(s: seq<Runtime>, time: seq<nat>, k: nat, period: nat, i: nat)
    requires k < |s| == |time| && s[k].Fin? && i < |s| && (i == k || s[i].Inf?)
    ensures Offered(s, time, k, i + 1) == Offered(s, time, k, i) && Lends(s, time, k, period, i) == 0
  {
  }

  lemma BorrowedSkip(was: seq<Runtime>, s: seq<Runtime>, time: seq<nat>, k: nat, period: nat, i: nat)
    requires Borrowed(was, s, time, k, period, i) && i < |s| && (i != k ==> s[i].Inf? && s[i] == was[i])
    ensures Borrowed(was, s, time, k, period, i + 1)
  {
    hide Lent, Lends;
    NothingLent(was, time, k, period, i);
    forall j | 0 <= j < |was| && j != k
      ensures Gave(was[j], s[j], time[j], if j < i + 1 then Lends(was, time, k, period, j) else 0)
    {
      assert Gave(was[j], s[j], time[j], if j < i then Lends(was, time, k, period, j) else 0);
    }
  }

  /** With the borrower at the period, nothing falls to those not asked. */
  lemma BorrowedFull(was: seq<Runtime>, s: seq<Runtime>, time: seq<nat>, k: nat, period: nat, i: nat)
    requires Borrowed(was, s, time, k, period, i) && s[k].v == period
    ensures Borrowed(was, s, time, k, period, |s|)
  {
    OfferedGrows(was, time, k, i, |s|);
    forall j | 0 <= j < |was| && j != k
      ensures Gave(was[j], s[j], time[j], Lends(was, time, k, period, j))
    {
      assert Gave(was[j], s[j], time[j], if j < i then Lends(was, time, k, period, j) else 0);
      if i <= j {
        OfferedGrows(was, time, k, i, j);
        OfferedGrows(was, time, k, i, j + 1);
      }
    }
  }

  lemma GivenToFirst(was: seq<Runtime>, s: seq<Runtime>, time: seq<nat>, k: nat, period: nat, i: nat)
    requires k < |was| == |s| && was[k].Fin? && i < |was| && i != k && NoneSpare(was, time, k, i)
    requires Spare(was[i], time[i]) && s[i].Fin? && s[k] == Fin(period) && s == was[i := s[i]][k := s[k]]
    requires s[i].v + s[k].v == was[i].v + was[k].v
    ensures GivenUp(was, s, time, k, period)
  {
    assert FirstSpare(was, time, k, i);
  }

  lemma NoneToGiveTo(s: seq<Runtime>, time: seq<nat>, k: nat, period: nat)
    requires NoneSpare(s, time, k, |s|) && k < |s| && s[k].Fin?
    ensures GivenUp(s, s, time, k, period)
  {
  }

  lemma HoldsNoDebt(s: seq<Runtime>, i: nat)
    requires NoDebt(s) && i < |s| && s[i].Fin?
    ensures 0 <= s[i].v
  {
  }

  lemma ShareBounds(x: int, n: nat)
    requires 0 < x && 0 < n
    ensures 0 <= x / n <= x
  {
    var q := x / n;
    assert x == q * n + x % n;
    ProductGrows(q, n);
  }

  lemma ProductGrows(q: int, n: nat)
    requires 1 <= n
    ensures 0 <= q ==> q <= q * n
    ensures q <= -1 ==> q * n <= -(n as int)
  {
  }

  class RtBandwidth {
    const runtime: nat
    const period: nat
    var rtRuntime: seq<Runtime>  // per CPU of the span
    var rtTime: seq<nat>         // per CPU: time used in this period

    constructor (runtime: nat, period: nat, cpus: nat)
      ensures Valid() && this.runtime == runtime && this.period == period && |rtRuntime| == cpus
      ensures forall i :: 0 <= i < cpus ==> rtRuntime[i] == Fin(runtime) && rtTime[i] == 0
    {
      this.runtime, this.period := runtime, period;
      rtRuntime, rtTime := seq(cpus, _ => Fin(runtime)), seq(cpus, _ => 0);
      new;
      InitiallyConserved(rtRuntime, runtime);
    }

    ghost predicate Valid()
      reads this
    {
      |rtTime| == |rtRuntime| && Conserved(rtRuntime, runtime) && NoDebt(rtRuntime)
    }

    /** Borrow for runqueue `k`, which ran out, from every neighbour with spare time. Nothing is
        created or lost; a borrower at or below the period gains all that is offered, up to the
        period, from the neighbours in turn; one above it gives the excess to the first with spare
        time. */
    method DoBalanceRuntime(k: nat)
      requires Valid() && k < |rtRuntime| && rtRuntime[k].Fin?
      modifies this`rtRuntime
      ensures Valid() && |rtRuntime| == old(|rtRuntime|)
      ensures if old(rtRuntime[k].v) <= period
              then Borrowed(old(rtRuntime), rtRuntime, rtTime, k, period, |rtRuntime|)
              else GivenUp(old(rtRuntime), rtRuntime, rtTime, k, period)
    {
      hide SumFin, CountFin, Conserved, NoDebt, Share, Borrowed, GivenUp, Lent;
      var weight := |rtRuntime|;
      ghost var s0, start := rtRuntime, rtRuntime[k].v;
      NothingBorrowed(s0, rtTime, k, period);
      for i := 0 to weight
        invariant Valid() && |rtRuntime| == weight == |s0| && rtRuntime[k].Fin?
        invariant start <= period ==> Borrowed(s0, rtRuntime, rtTime, k, period, i)
        invariant start > period ==> rtRuntime == s0 && NoneSpare(s0, rtTime, k, i)
      {
        ghost var s := rtRuntime;
        if start <= period {
          NotReached(s0, s, rtTime, k, period, i);
        }
        if i != k && rtRuntime[i].Fin? {
          var full := BorrowFrom(i, k);
          if start <= period {
            BorrowedStep(s0, s, rtRuntime, rtTime, k, period, i);
          }
          if full {
            if start <= period {
              BorrowedFull(s0, rtRuntime, rtTime, k, period, i + 1);
            } else {
              GivenToFirst(s0, rtRuntime, rtTime, k, period, i);
            }
            return;
          }
        } else if start <= period {
          BorrowedSkip(s0, s, rtTime, k, period, i);
        }
      }
      if start > period {
        NoneToGiveTo(s0, rtTime, k, period);
      }
    }

    /** Take one neighbour's share; `full` if that fills the period up. */
    method BorrowFrom(i: nat, k: nat) returns (full: bool)
      requires Valid() && i < |rtRuntime| && k < |rtRuntime| && i != k && rtRuntime[i].Fin? && rtRuntime[k].Fin?
      modifies this`rtRuntime
      ensures Valid() && |rtRuntime| == old(|rtRuntime|) && rtRuntime[i].Fin? && rtRuntime[k].Fin?
      ensures rtRuntime == old(rtRuntime)[i := rtRuntime[i]][k := rtRuntime[k]]
      ensures old(rtRuntime)[k].v <= period ==>
                && Lent(old(rtRuntime)[i], rtRuntime[i], rtTime[i])
                && rtRuntime[k].v ==
                     Min(period, old(rtRuntime)[k].v + Share(old(rtRuntime)[i], rtTime[i], |rtRuntime|))
                && (full ==> rtRuntime[k].v == period)
      ensures rtRuntime[i].v + rtRuntime[k].v == old(rtRuntime)[i].v + old(rtRuntime)[k].v
      ensures old(rtRuntime)[k].v > period ==>
                && (full <==> Spare(old(rtRuntime)[i], rtTime[i]))
                && if full then rtRuntime[k].v == period else rtRuntime == old(rtRuntime)
    {
      hide SumFin, CountFin, Conserved, NoDebt;
      assert 0 <= rtRuntime[k].v && 0 <= rtRuntime[i].v by {
        HoldsNoDebt(rtRuntime, i);
        HoldsNoDebt(rtRuntime, k);
      }
      full := false;
      var diff := rtRuntime[i].v - rtTime[i];
      if diff > 0 {
        diff := CappedShare(diff, |rtRuntime|, rtRuntime[k].v, period);
        Transfer(i, k, diff);
        full := rtRuntime[k].v == period;
      }
    }

    method Transfer(i: nat, k: nat, diff: int)
      requires Valid() && i < |rtRuntime| && k < |rtRuntime| && i != k
      requires rtRuntime[i].Fin? && rtRuntime[k].Fin?
      requires diff <= rtRuntime[i].v && 0 <= rtRuntime[k].v + diff
      modifies this`rtRuntime
      ensures Valid()
      ensures rtRuntime == old(rtRuntime)[i := Fin(old(rtRuntime)[i].v - diff)][k := Fin(old(rtRuntime)[k].v + diff)]
    {
      SumsAfterUpdate(rtRuntime, i, Fin(rtRuntime[i].v - diff));
      rtRuntime := rtRuntime[i := Fin(rtRuntime[i].v - diff)];
      SumsAfterUpdate(rtRuntime, k, Fin(rtRuntime[k].v + diff));
      rtRuntime := rtRuntime[k := Fin(rtRuntime[k].v + diff)];
    }

    /** Take runqueue `k` out: reclaim greedily what it lent or give the first neighbour what it
        borrowed. Nothing is ever left wanting, and the rest stays conserved. */
    method DisableRuntime(k: nat) returns (want: int)
      requires Valid() && k < |rtRuntime|
      modifies this`rtRuntime
      ensures want == 0
      ensures Valid() && |rtRuntime| == old(|rtRuntime|) && rtRuntime[k].Inf?
      ensures Settled(old(rtRuntime), rtRuntime, k, runtime)
    {
      hide Settled;
      want := 0;
      if rtRuntime[k].Fin? && rtRuntime[k].v != runtime {
        want := Reclaim(k);
      }
      OutOfService(old(rtRuntime), rtRuntime, k, runtime);
      SumsAfterUpdate(rtRuntime, k, Inf);
      ghost var n := CountFin(rtRuntime);
      assert (n - 1) * runtime == n * runtime - runtime;
      rtRuntime := rtRuntime[k := Inf];
    }

    /** The reclaim loop; afterwards the rest holds one share less, whatever `k` itself holds. */
    method Reclaim(k: nat) returns (want: int)
      requires Valid() && k < |rtRuntime| && rtRuntime[k].Fin? && rtRuntime[k].v != runtime
      modifies this`rtRuntime
      ensures want == 0 && |rtRuntime| == old(|rtRuntime|) && rtRuntime[k] == old(rtRuntime)[k]
      ensures Settled(old(rtRuntime), rtRuntime, k, runtime)
      ensures NoDebt(rtRuntime) && CountFin(rtRuntime) == CountFin(old(rtRuntime))
      ensures SumFin(rtRuntime) == SumFin(old(rtRuntime)) - (runtime - rtRuntime[k].v)
    {
      hide Reclaimed, Settled, SumFin, CountFin;
      ghost var s0 := rtRuntime;
      NoneReclaimed(s0, k);
      var missing := runtime - rtRuntime[k].v;
      want := missing;
      for i := 0 to |rtRuntime|
        invariant |rtRuntime| == |s0| && rtRuntime[k] == s0[k] && NoDebt(rtRuntime)
        invariant CountFin(rtRuntime) == CountFin(s0)
        invariant SumFin(rtRuntime) == SumFin(s0) - (missing - want)
        invariant missing > 0 ==> 0 < want == missing - Held(s0, k, i) && Reclaimed(s0, rtRuntime, k, missing, i)
        invariant missing < 0 ==> want == missing && rtRuntime == s0 && forall j :: 0 <= j < i && j != k ==> s0[j].Inf?
      {
        if missing > 0 {
          ReclaimedStep(s0, rtRuntime, k, missing, i);
        }
        if i != k && rtRuntime[i].Fin? {
          var diff := if want > 0 && rtRuntime[i].v < want then rtRuntime[i].v else want;
          SumsAfterUpdate(rtRuntime, i, Fin(rtRuntime[i].v - diff));
          rtRuntime := rtRuntime[i := Fin(rtRuntime[i].v - diff)];
          want := want - diff;
          if want == 0 {
            if missing > 0 {
              ReclaimedAll(s0, rtRuntime, k, runtime, i + 1);
            } else {
              SettledWithFirst(s0, k, runtime, i);
            }
            return;
          }
        }
      }
      if want > 0 {
        NothingLeft(s0, rtRuntime, k, missing);
        OthersCanRepay(rtRuntime, k, runtime, want, s0);
      } else {
        AloneHoldsOwn(s0, k, runtime);
      }
      assert false;
    }

    /** Put runqueue `k` back in service with its own share. That keeps the conservation law if
        and only if it was out of service or held exactly its share. */
    method EnableRuntime(k: nat)
      requires Valid() && k < |rtRuntime|
      modifies this`rtRuntime, this`rtTime
      ensures rtRuntime == old(rtRuntime)[k := Fin(runtime)] && rtTime == old(rtTime)[k := 0]
      ensures Valid() <==> old(rtRuntime)[k].Inf? || old(rtRuntime)[k].v == runtime
    {
      SumsAfterUpdate(rtRuntime, k, Fin(runtime));
      ghost var n := CountFin(rtRuntime);
      assert (n + 1) * runtime == n * runtime + runtime;
      rtRuntime, rtTime := rtRuntime[k := Fin(runtime)], rtTime[k := 0];
    }

    /** Real-time work consumes time, which never touches what the runqueues hold. */
    method Account(k: nat, delta: nat)
      requires Valid() && k < |rtTime|
      modifies this`rtTime
      ensures Valid() && rtTime == old(rtTime)[k := old(rtTime)[k] + delta]
    {
      rtTime := rtTime[k := rtTime[k] + delta];
    }
  }

  lemma {:induction false} InitiallyConserved(s: seq<Runtime>, B: nat)
    requires forall i :: 0 <= i < |s| ==> s[i] == Fin(B)
    ensures SumFin(s) == CountFin(s) * B && CountFin(s) == |s|
  {
    if s != [] {
      InitiallyConserved(s[1..], B);
      assert (|s| - 1) * B + B == |s| * B;
    }
  }

  /** A runqueue that lent and is put in service without having been taken out gets its share twice:
      with two CPUs, the borrower keeps what it borrowed and the lender has its own share again. */
  method LenderEnabled() returns (b: RtBandwidth)
    ensures b.rtRuntime == [Fin(15), Fin(10)] && b.runtime == 10 && !b.Valid()
  {
    b := new RtBandwidth(10, 100, 2);
    ghost var s, t := b.rtRuntime, b.rtTime;
    assert Offered(s, t, 0, 2) == 5 by {
      assert Share(Fin(10), 0, 2) == 5;
      assert Offered(s, t, 0, 0) == 0 && Offered(s, t, 0, 1) == 0;
    }
    b.DoBalanceRuntime(0);
    b.EnableRuntime(1);
  }
}
