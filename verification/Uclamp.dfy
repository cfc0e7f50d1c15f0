/** Utilisation clamps of one runqueue: runnable tasks are counted in value buckets, and the
    runqueue's clamp is the maximum over the non-empty ones. */
module Uclamp {

  type Task = nat

  datatype ClampId = ClampMin | ClampMax

  datatype Bucket = Bucket(tasks: nat, value: nat)

  /** One clamp of the runqueue. `active` holds the clamp value each counted task was counted with:
      its own record of the clamp while its active flag is set. */
  datatype UclampRq = UclampRq(buckets: seq<Bucket>, value: nat, active: map<Task, nat>)

  /** Any way of sorting clamp values into buckets that respects their order. */
  ghost predicate Bucketing(id: nat -> nat, n: nat) {
    && (forall v :: id(v) < n)
    && (forall u, v :: u <= v ==> id(u) <= id(v))
  }

  function TasksIn(active: map<Task, nat>, id: nat -> nat, b: nat): set<Task> {
    set p | p in active && id(active[p]) == b
  }

  /** A non-empty bucket counts exactly its active tasks, its value lies in the bucket and is at
      least each of theirs. */
  ghost predicate BucketOk(u: UclampRq, id: nat -> nat, b: nat)
    requires b < |u.buckets|
  {
    && u.buckets[b].tasks == |TasksIn(u.active, id, b)|
    && (u.buckets[b].tasks > 0 ==> id(u.buckets[b].value) == b)
    && forall p :: p in TasksIn(u.active, id, b) ==> u.active[p] <= u.buckets[b].value
  }

  /** The clamp is the maximum value over the non-empty buckets. */
  ghost predicate IsMaximum(u: UclampRq, value: nat) {
    && (exists b :: 0 <= b < |u.buckets| && u.buckets[b].tasks > 0 && u.buckets[b].value == value)
    && (forall b :: 0 <= b < |u.buckets| && u.buckets[b].tasks > 0 ==> u.buckets[b].value <= value)
  }

  ghost predicate BucketsOk(u: UclampRq, id: nat -> nat, n: nat) {
    |u.buckets| == n && forall b :: 0 <= b < n ==> BucketOk(u, id, b)
  }

  ghost predicate ClampOk(u: UclampRq, id: nat -> nat, n: nat) {
    BucketsOk(u, id, n) && (u.active != map[] ==> IsMaximum(u, u.value))
  }

  /** No active task is clamped below its own value. */
  lemma ClampDominates(u: UclampRq, id: nat -> nat, n: nat, p: Task)
    requires Bucketing(id, n) && ClampOk(u, id, n) && p in u.active
    ensures u.active[p] <= u.value
  {
    var b := id(u.active[p]);
    assert BucketOk(u, id, b);
    assert p in TasksIn(u.active, id, b);
  }

  // ---------- counting a task in ----------

  function Enter(u: UclampRq, id: nat -> nat, p: Task, v: nat, idle: bool): UclampRq
    requires id(v) < |u.buckets|
  {
    var b := id(v);
    var base := if idle then v else u.value;
    UclampRq(u.buckets[b := Entered(u.buckets[b], v)], if v > base then v else base, u.active[p := v])
  }

  lemma EnterBuckets(u: UclampRq, id: nat -> nat, n: nat, p: Task, v: nat, idle: bool)
    requires Bucketing(id, n) && BucketsOk(u, id, n) && p !in u.active
    ensures BucketsOk(Enter(u, id, p, v, idle), id, n)
  {
    hide BucketOk, Enter;
    var u' := Enter(u, id, p, v, idle);
    EnterShape(u, id, p, v, idle);
    forall b | 0 <= b < n
      ensures BucketOk(u', id, b)
    {
      if b == id(v) {
        OwnBucketEntered(u, u', id, p, v);
      } else {
        OtherBucketKept(u, u', id, p, v, b);
      }
    }
  }

  lemma EnterShape(u: UclampRq, id: nat -> nat, p: Task, v: nat, idle: bool)
    requires id(v) < |u.buckets|
    ensures var u', b := Enter(u, id, p, v, idle), id(v);
            && u'.buckets == u.buckets[b := Entered(u.buckets[b], v)] && u'.active == u.active[p := v]
  {
  }

  function Entered(b: Bucket, v: nat): Bucket {
    Bucket(b.tasks + 1, if b.tasks == 0 || v > b.value then v else b.value)
  }

  lemma OwnBucketEntered(u: UclampRq, u': UclampRq, id: nat -> nat, p: Task, v: nat)
    requires id(v) < |u.buckets| == |u'.buckets| && BucketOk(u, id, id(v)) && p !in u.active
    requires u'.buckets[id(v)] == Entered(u.buckets[id(v)], v) && u'.active == u.active[p := v]
    ensures BucketOk(u', id, id(v))
  {
    var b := id(v);
    var was, now := TasksIn(u.active, id, b), TasksIn(u'.active, id, b);
    assert now == was + {p};
    forall q | q in now
      ensures u'.active[q] <= u'.buckets[b].value
    {
      assert q == p || q in was;
    }
  }

  lemma OtherBucketKept(u: UclampRq, u': UclampRq, id: nat -> nat, p: Task, v: nat, b: nat)
    requires b < |u.buckets| == |u'.buckets| && BucketOk(u, id, b) && p !in u.active && b != id(v)
    requires u'.buckets[b] == u.buckets[b] && u'.active == u.active[p := v]
    ensures BucketOk(u', id, b)
  {
    assert TasksIn(u'.active, id, b) == TasksIn(u.active, id, b);
  }

  /** No task active means no bucket occupied, and conversely. */
  lemma EmptyIff(u: UclampRq, id: nat -> nat, n: nat)
    requires Bucketing(id, n) && BucketsOk(u, id, n)
    ensures u.active == map[] <==> forall b :: 0 <= b < n ==> u.buckets[b].tasks == 0
  {
    if u.active == map[] {
      forall b | 0 <= b < n
        ensures u.buckets[b].tasks == 0
      {
        assert BucketOk(u, id, b) && TasksIn(u.active, id, b) == {};
      }
    } else {
      var p :| p in u.active;
      var b := id(u.active[p]);
      assert BucketOk(u, id, b) && p in TasksIn(u.active, id, b);
    }
  }

  lemma EnterKeepsMaximum(u: UclampRq, id: nat -> nat, n: nat, p: Task, v: nat, idle: bool)
    requires Bucketing(id, n) && ClampOk(u, id, n) && p !in u.active
    requires u.active == map[] ==> idle || u.value == 0
    requires idle ==> u.active == map[]
    ensures ClampOk(Enter(u, id, p, v, idle), id, n)
    ensures Enter(u, id, p, v, idle).value == if u.active == map[] || v > u.value then v else u.value
  {
    var u' := Enter(u, id, p, v, idle);
    EnterBuckets(u, id, n, p, v, idle);
    EmptyIff(u, id, n);
    var b := id(v);
    assert u'.buckets[b].tasks > 0;
    if u.active != map[] {
      var m :| 0 <= m < n && u.buckets[m].tasks > 0 && u.buckets[m].value == u.value;
      assert u'.buckets[if v > u.value then b else m].value == u'.value;
    }
  }

  // ---------- counting a task out ----------

  function Drop(u: UclampRq, id: nat -> nat, p: Task): UclampRq
    requires p in u.active && id(u.active[p]) < |u.buckets| && u.buckets[id(u.active[p])].tasks > 0
  {
    var b := id(u.active[p]);
    UclampRq(u.buckets[b := u.buckets[b].(tasks := u.buckets[b].tasks - 1)], u.value, u.active - {p})
  }

  lemma DropBuckets(u: UclampRq, id: nat -> nat, n: nat, p: Task)
    requires Bucketing(id, n) && BucketsOk(u, id, n) && p in u.active
    ensures u.buckets[id(u.active[p])].tasks > 0
    ensures BucketsOk(Drop(u, id, p), id, n)
  {
    var b0 := id(u.active[p]);
    assert BucketOk(u, id, b0) && p in TasksIn(u.active, id, b0);
    var u' := Drop(u, id, p);
    forall b | 0 <= b < n
      ensures BucketOk(u', id, b)
    {
      assert BucketOk(u, id, b);
      if b == b0 {
        assert TasksIn(u'.active, id, b) == TasksIn(u.active, id, b) - {p};
      } else {
        assert TasksIn(u'.active, id, b) == TasksIn(u.active, id, b);
      }
    }
  }

  /** The topmost occupied bucket holds the maximum: higher buckets hold higher values. */
  lemma TopBucketIsMaximum(u: UclampRq, id: nat -> nat, n: nat, top: nat)
    requires Bucketing(id, n) && BucketsOk(u, id, n) && top < n && u.buckets[top].tasks > 0
    requires forall b :: top < b < n ==> u.buckets[b].tasks == 0
    ensures IsMaximum(u, u.buckets[top].value)
  {
    forall b | 0 <= b < n && u.buckets[b].tasks > 0
      ensures u.buckets[b].value <= u.buckets[top].value
    {
      assert BucketOk(u, id, b) && BucketOk(u, id, top);
      assert u.buckets[top].value <= u.buckets[b].value ==> id(u.buckets[top].value) <= id(u.buckets[b].value);
    }
  }

  /** The clamp can stay if the bucket still has tasks or did not supply the maximum. */
  lemma DropKeepsMaximum(u: UclampRq, id: nat -> nat, n: nat, p: Task)
    requires Bucketing(id, n) && ClampOk(u, id, n) && p in u.active
    ensures var b := id(u.active[p]);
            && u.buckets[b].tasks > 0
            && u.buckets[b].value <= u.value
            && (u.buckets[b].tasks > 1 || u.buckets[b].value < u.value ==> IsMaximum(Drop(u, id, p), u.value))
  {
    DropBuckets(u, id, n, p);
    var b, u' := id(u.active[p]), Drop(u, id, p);
    if u.buckets[b].tasks > 1 || u.buckets[b].value < u.value {
      var m :| 0 <= m < n && u.buckets[m].tasks > 0 && u.buckets[m].value == u.value;
      assert u'.buckets[m].tasks > 0 && u'.buckets[m].value == u.value;
    }
  }

  lemma NewValue(u: UclampRq, id: nat -> nat, n: nat, value: nat)
    requires BucketsOk(u, id, n)
    ensures BucketsOk(u.(value := value), id, n)
    ensures IsMaximum(u, value) ==> IsMaximum(u.(value := value), value)
  {
    var u' := u.(value := value);
    forall b | 0 <= b < n
      ensures BucketOk(u', id, b)
    {
      assert BucketOk(u, id, b);
    }
  }

  lemma MaximumMeansActive(u: UclampRq, id: nat -> nat, n: nat)
    requires Bucketing(id, n) && BucketsOk(u, id, n)
    ensures |u.buckets| == n
    ensures u.active == map[] ==> forall v :: !IsMaximum(u, v)
    ensures u.active == map[] <==> forall b :: 0 <= b < n ==> u.buckets[b].tasks == 0
  {
    EmptyIff(u, id, n);
  }

  // ---------- the runqueue ----------

  class Rq {
    const buckets: nat
    const bucketId: nat -> nat
    var clamp: map<ClampId, UclampRq>
    var idleFlag: bool

    /** Between operations both clamps count the same tasks, each is exact, an empty runqueue has
        no minimum clamp, and it is marked idle exactly when empty. */
    ghost predicate Valid()
      reads this
    {
      && Bucketing(bucketId, buckets)
      && clamp.Keys == {ClampMin, ClampMax}
      && (forall id :: id in clamp ==> ClampOk(clamp[id], bucketId, buckets))
      && clamp[ClampMin].active.Keys == clamp[ClampMax].active.Keys
      && (idleFlag <==> clamp[ClampMax].active == map[])
      && (idleFlag ==> clamp[ClampMin].value == 0)
    }

    constructor (buckets: nat, bucketId: nat -> nat)
      requires Bucketing(bucketId, buckets)
      ensures Valid() && idleFlag && this.buckets == buckets && this.bucketId == bucketId
      ensures clamp[ClampMin].active == map[] == clamp[ClampMax].active
    {
      this.buckets, this.bucketId := buckets, bucketId;
      var none := seq(buckets, _ => Bucket(0, 0));
      clamp := map[ClampMin := UclampRq(none, 0, map[]), ClampMax := UclampRq(none, 1024, map[])];
      idleFlag := true;
      new;
      forall id, b | id in clamp && 0 <= b < buckets
        ensures BucketOk(clamp[id], bucketId, b)
      {
        assert TasksIn(clamp[id].active, bucketId, b) == {};
      }
    }

    /** Scan for the topmost occupied bucket. */
    method MaxValue(id: ClampId) returns (top: int)
      requires id in clamp
      ensures -1 <= top < |clamp[id].buckets|
      ensures top >= 0 ==> clamp[id].buckets[top].tasks > 0
      ensures forall b :: top < b < |clamp[id].buckets| ==> clamp[id].buckets[b].tasks == 0
    {
      top := |clamp[id].buckets| - 1;
      while top >= 0 && clamp[id].buckets[top].tasks == 0
        invariant -1 <= top < |clamp[id].buckets|
        invariant forall b :: top < b < |clamp[id].buckets| ==> clamp[id].buckets[b].tasks == 0
      {
        top := top - 1;
      }
    }

    /** Count a task in with its effective value. */
    method IncId(id: ClampId, p: Task, v: nat)
      requires Bucketing(bucketId, buckets) && id in clamp && ClampOk(clamp[id], bucketId, buckets)
      requires p !in clamp[id].active
      requires clamp[id].active == map[] ==> idleFlag || clamp[id].value == 0
      requires idleFlag ==> clamp[id].active == map[]
      modifies this`clamp
      ensures id in clamp && clamp == old(clamp)[id := clamp[id]]
      ensures ClampOk(clamp[id], bucketId, buckets) && clamp[id].active == old(clamp)[id].active[p := v]
      ensures clamp[id].value == if old(clamp)[id].active == map[] || v > old(clamp)[id].value then v
                                 else old(clamp)[id].value
    {
      EnterKeepsMaximum(clamp[id], bucketId, buckets, p, v, idleFlag);
      clamp := clamp[id := Enter(clamp[id], bucketId, p, v, idleFlag)];
    }

    /** Count a task out, if it was ever counted in. Neither warning fires: its bucket is occupied
        and no bucket value exceeds the clamp. An emptied maximum clamp keeps the last value and
        marks the runqueue idle; an emptied minimum clamp drops to zero. */
    method DecId(id: ClampId, p: Task) returns (warned: bool)
      requires Bucketing(bucketId, buckets) && id in clamp && ClampOk(clamp[id], bucketId, buckets)
      modifies this`clamp, this`idleFlag
      ensures !warned
      ensures id in clamp && clamp == old(clamp)[id := clamp[id]]
      ensures p !in old(clamp)[id].active ==> clamp == old(clamp) && idleFlag == old(idleFlag)
      ensures p in old(clamp)[id].active ==>
                && ClampOk(clamp[id], bucketId, buckets) && clamp[id].active == old(clamp)[id].active - {p}
                && (clamp[id].active == map[] ==>
                      clamp[id].value == if id.ClampMin? then 0 else old(clamp)[id].active[p])
                && idleFlag == (old(idleFlag) || (id.ClampMax? && clamp[id].active == map[]))
    {
      warned := false;
      if p !in clamp[id].active {
        return;
      }
      hide BucketsOk, IsMaximum;
      var u := clamp[id];
      var b := bucketId(u.active[p]);
      DropKeepsMaximum(u, bucketId, buckets, p);
      DropBuckets(u, bucketId, buckets, p);
      warned := u.buckets[b].tasks == 0 || u.buckets[b].value > u.value;
      var u' := Drop(u, bucketId, p);
      MaximumMeansActive(u', bucketId, buckets);
      clamp := clamp[id := u'];
      if u'.buckets[b].tasks > 0 || u.buckets[b].value < u.value {
        return;
      }
      var top := MaxValue(id);
      if top >= 0 {
        TopBucketIsMaximum(u', bucketId, buckets, top);
        NewValue(u', bucketId, buckets, u'.buckets[top].value);
        clamp := clamp[id := u'.(value := u'.buckets[top].value)];
      } else {
        idleFlag := idleFlag || id.ClampMax?;
        var value := if id.ClampMax? then u.active[p] else 0;
        clamp := clamp[id := u'.(value := value)];
      }
    }

    /** A task becomes runnable. `counted` is whether clamping is in use and covers the task. */
    method Inc(p: Task, lo: nat, hi: nat, counted: bool)
      requires Valid() && p !in clamp[ClampMin].active
      modifies this
      ensures Valid()
      ensures !counted ==> clamp == old(clamp)
      ensures counted ==> clamp[ClampMin].active == old(clamp)[ClampMin].active[p := lo]
                          && clamp[ClampMax].active == old(clamp)[ClampMax].active[p := hi]
    {
      if !counted {
        return;
      }
      IncId(ClampMin, p, lo);
      IncId(ClampMax, p, hi);
      idleFlag := false;
    }

    /** A task stops being runnable, possibly one that was queued before clamping was turned on. */
    method Dec(p: Task, counted: bool) returns (warned: bool)
      requires Valid()
      modifies this
      ensures Valid() && !warned
      ensures !counted || p !in old(clamp)[ClampMin].active ==> clamp == old(clamp)
      ensures counted ==> clamp[ClampMin].active == old(clamp)[ClampMin].active - {p}
                          && clamp[ClampMax].active == old(clamp)[ClampMax].active - {p}
    {
      warned := false;
      if !counted {
        return;
      }
      var w1 := DecId(ClampMin, p);
      var w2 := DecId(ClampMax, p);
      warned := w1 || w2;
    }

    /** Re-count one clamp of a counted task; a transient idle mark is cleared. */
    method ReincId(id: ClampId, p: Task, v: nat) returns (warned: bool)
      requires Bucketing(bucketId, buckets) && id in clamp && ClampOk(clamp[id], bucketId, buckets)
      requires p in clamp[id].active && !idleFlag
      modifies this`clamp, this`idleFlag
      ensures !warned && !idleFlag && id in clamp && clamp == old(clamp)[id := clamp[id]]
      ensures ClampOk(clamp[id], bucketId, buckets) && clamp[id].active == old(clamp)[id].active[p := v]
    {
      hide ClampOk, Bucketing;
      warned := DecId(id, p);
      IncId(id, p, v);
      assert (old(clamp)[id].active - {p})[p := v] == old(clamp)[id].active[p := v];
      if id.ClampMax? && idleFlag {
        idleFlag := false;
      }
    }

    /** A counted task's effective values changed. */
    method Update(p: Task, lo: nat, hi: nat) returns (warned: bool)
      requires Valid()
      modifies this
      ensures Valid() && !warned
      ensures p !in old(clamp)[ClampMin].active ==> clamp == old(clamp)
      ensures p in old(clamp)[ClampMin].active ==>
                && clamp[ClampMin].active == old(clamp)[ClampMin].active[p := lo]
                && clamp[ClampMax].active == old(clamp)[ClampMax].active[p := hi]
    {
      warned := false;
      if p !in clamp[ClampMin].active {
        return;
      }
      hide ClampOk, Bucketing;
      var w1 := ReincId(ClampMin, p, lo);
      var w2 := ReincId(ClampMax, p, hi);
      warned := w1 || w2;
    }
  }
}
