/** The hierarchical real-time run queue of one CPU: every group owns a priority array that is
    itself queued, as one entity, in the array of its parent group. The queue position of a group
    depends on what is queued below it, so an update takes the whole chain of ancestors off from
    the top down and puts it back from the bottom up. */
module RtQueue {
  import opened Common

  const MAX_RT_PRIO := 100

  /** An rt_rq; `Group(q)` is the entity by which the group that owns `q` is queued. */
  type Q = nat
  datatype Ent = Task(t: nat) | Group(q: Q)

  datatype Info = Info(q: Q, prio: nat)

  datatype RtRq = RtRq(queue: seq<seq<Ent>>, bitmap: seq<bool>, nr: int, highest: nat, throttled: bool)

  /** The groups of the CPU: the queue each group's entity belongs on. */
  datatype Tree = Tree(top: Q, parent: map<Q, Q>, height: map<Q, nat>) {
    ghost predicate Valid() {
      && top in height && top !in parent
      && (forall q :: q in height <==> q == top || q in parent)
      && (forall q :: q in parent ==> parent[q] in height && height[q] < height[parent[q]] <= height[top])
    }

    function Parent(q: Q): Q {
      if q in parent then parent[q] else top
    }

    function Below(q: Q): nat {
      if q in height && top in height && height[q] < height[top] then height[top] - height[q] else 0
    }
  }

  datatype State = State(rqs: map<Q, RtRq>, onRq: set<Ent>, onList: set<Ent>, info: map<nat, Info>)

  function EmptyRq(): RtRq {
    RtRq(seq(MAX_RT_PRIO, _ => []), seq(MAX_RT_PRIO, _ => false), 0, MAX_RT_PRIO - 1, false)
  }

  function Rq(s: State, q: Q): RtRq {
    if q in s.rqs then s.rqs[q] else EmptyRq()
  }

  function Home(tree: Tree, s: State, e: Ent): Q {
    match e
    case Task(t) => if t in s.info then s.info[t].q else tree.top
    case Group(q) => tree.Parent(q)
  }

  function Prio(s: State, e: Ent): nat {
    match e
    case Task(t) => if t in s.info then s.info[t].prio else 0
    case Group(q) => Rq(s, q).highest
  }

  function Nr(s: State, e: Ent): int {
    match e
    case Task(_) => 1
    case Group(q) => Rq(s, q).nr
  }

  // ---------- one priority array ----------

  /** The first set bit, or the length: the delimiter bit follows the array. */
  function FirstBit(bits: seq<bool>): nat {
    if bits == [] || bits[0] then 0 else 1 + FirstBit(bits[1..])
  }

  lemma {:induction false} FirstBitIsFirst(bits: seq<bool>)
    ensures FirstBit(bits) <= |bits| && (FirstBit(bits) < |bits| ==> bits[FirstBit(bits)])
    ensures forall i :: 0 <= i < FirstBit(bits) ==> !bits[i]
  {
    if bits != [] && !bits[0] {
      FirstBitIsFirst(bits[1..]);
    }
  }

  /** The list without the entity. */
  function Without(list: seq<Ent>, e: Ent): seq<Ent> {
    if list == [] then [] else if list[0] == e then list[1..] else [list[0]] + Without(list[1..], e)
  }

  function Sum(s: State, list: seq<Ent>): int {
    if list == [] then 0 else Nr(s, list[0]) + Sum(s, list[1..])
  }

  function Total(s: State, queue: seq<seq<Ent>>): int {
    if queue == [] then 0 else Sum(s, queue[0]) + Total(s, queue[1..])
  }

  lemma {:induction false} WithoutSpec(s: State, list: seq<Ent>, e: Ent)
    requires Distinct(list)
    ensures Distinct(Without(list, e))
    ensures forall x :: x in Without(list, e) <==> x in list && x != e
    ensures Sum(s, Without(list, e)) == Sum(s, list) - if e in list then Nr(s, e) else 0
  {
    if list != [] {
      var rest := list[1..];
      assert list == [list[0]] + rest;
      assert list[0] !in rest;
      WithoutSpec(s, rest, e);
    }
  }

  lemma {:induction false} SumAppend(s: State, list: seq<Ent>, e: Ent)
    ensures Sum(s, list + [e]) == Sum(s, list) + Nr(s, e) == Sum(s, [e] + list)
  {
    assert ([e] + list)[1..] == list;
    if list == [] {
      assert list + [e] == [e];
    } else {
      assert (list + [e])[1..] == list[1..] + [e];
      SumAppend(s, list[1..], e);
    }
  }

  lemma {:induction false} TotalUpdate(s: State, queue: seq<seq<Ent>>, i: nat, list: seq<Ent>)
    requires i < |queue|
    ensures Total(s, queue[i := list]) == Total(s, queue) - Sum(s, queue[i]) + Sum(s, list)
  {
    if i == 0 {
      assert queue[i := list][1..] == queue[1..];
    } else {
      assert queue[i := list][1..] == queue[1..][i - 1 := list];
      TotalUpdate(s, queue[1..], i - 1, list);
    }
  }

  lemma {:induction false} SumSame(s: State, s': State, list: seq<Ent>)
    requires forall e :: e in list ==> Nr(s', e) == Nr(s, e)
    ensures Sum(s', list) == Sum(s, list)
  {
    if list != [] {
      SumSame(s, s', list[1..]);
    }
  }

  lemma {:induction false} TotalSame(s: State, s': State, queue: seq<seq<Ent>>)
    requires forall i, e :: 0 <= i < |queue| && e in queue[i] ==> Nr(s', e) == Nr(s, e)
    ensures Total(s', queue) == Total(s, queue)
  {
    if queue != [] {
      SumSame(s, s', queue[0]);
      assert forall i :: 0 <= i < |queue[1..]| ==> queue[1..][i] == queue[i + 1];
      TotalSame(s, s', queue[1..]);
    }
  }

  lemma {:induction false} SumPositive(s: State, list: seq<Ent>)
    requires forall e :: e in list ==> Nr(s, e) > 0
    ensures Sum(s, list) >= 0 && (Sum(s, list) == 0 <==> list == [])
  {
    if list != [] {
      SumPositive(s, list[1..]);
    }
  }

  lemma {:induction false} TotalPositive(s: State, queue: seq<seq<Ent>>)
    requires forall i, e :: 0 <= i < |queue| && e in queue[i] ==> Nr(s, e) > 0
    ensures Total(s, queue) >= 0
    ensures Total(s, queue) == 0 <==> forall i :: 0 <= i < |queue| ==> queue[i] == []
  {
    if queue != [] {
      SumPositive(s, queue[0]);
      assert forall i :: 0 <= i < |queue[1..]| ==> queue[1..][i] == queue[i + 1];
      TotalPositive(s, queue[1..]);
      assert (forall i :: 0 <= i < |queue| ==> queue[i] == []) <==>
        (queue[0] == [] && forall i :: 0 <= i < |queue[1..]| ==> queue[1..][i] == []) by {
        if queue[0] == [] && forall i :: 0 <= i < |queue[1..]| ==> queue[1..][i] == [] {
          forall i | 0 <= i < |queue|
            ensures queue[i] == []
          {
            if i > 0 {
              assert queue[1..][i - 1] == [];
            }
          }
        }
      }
    }
  }

  // ---------- the invariant ----------

  ghost predicate ListedOk(tree: Tree, s: State, e: Ent) {
    && Prio(s, e) < MAX_RT_PRIO && Nr(s, e) > 0
    && match e
       case Task(t) => t in s.info && s.info[t].q in tree.height
       case Group(q) => q in tree.parent
  }

  /** Level `i` of the array holds exactly the listed entities of this queue with that priority,
      each once, and its bit says whether there are any. */
  ghost predicate LevelOk(tree: Tree, s: State, q: Q, i: nat)
    requires i < |Rq(s, q).queue| && i < |Rq(s, q).bitmap|
  {
    var list := Rq(s, q).queue[i];
    && (Rq(s, q).bitmap[i] <==> list != [])
    && Distinct(list)
    && (forall e :: e in list <==> e in s.onList && Home(tree, s, e) == q && Prio(s, e) == i)
  }

  /** The cached priority is the smallest queued one, and the largest priority if none is. */
  predicate HighestOk(r: RtRq) {
    && r.highest < MAX_RT_PRIO == |r.queue|
    && (forall i :: 0 <= i < r.highest ==> r.queue[i] == [])
    && (r.queue[r.highest] == [] ==> r.highest == MAX_RT_PRIO - 1)
  }

  ghost predicate LocalOk(tree: Tree, s: State, q: Q) {
    var r := Rq(s, q);
    && |r.queue| == |r.bitmap| == MAX_RT_PRIO
    && (forall i :: 0 <= i < MAX_RT_PRIO ==> LevelOk(tree, s, q, i))
    && r.nr == Total(s, r.queue)
    && HighestOk(r)
  }

  /** Every array is consistent with what is listed. */
  ghost predicate ArraysOk(tree: Tree, s: State) {
    && tree.Valid()
    && s.rqs.Keys == tree.height.Keys
    && s.onRq == s.onList
    && (forall e :: e in s.onList ==> ListedOk(tree, s, e))
    && (forall q :: q in tree.height ==> LocalOk(tree, s, q))
  }

  /** A group is queued exactly when something is queued in it and it is not throttled. */
  predicate GroupOk(s: State, q: Q) {
    Group(q) in s.onList <==> Rq(s, q).nr > 0 && !Rq(s, q).throttled
  }

  ghost predicate Inv(tree: Tree, s: State) {
    ArraysOk(tree, s) && forall q :: q in tree.parent ==> GroupOk(s, q)
  }

  // ---------- one entity on or off its array ----------

  function SetRq(s: State, q: Q, r: RtRq): State {
    s.(rqs := s.rqs[q := r])
  }

  /** Takes the entity off its list. */
  function Delist(tree: Tree, s: State, e: Ent): State {
    var q, i := Home(tree, s, e), Prio(s, e);
    var r := Rq(s, q);
    if i < |r.queue| && i < |r.bitmap| then
      var list := Without(r.queue[i], e);
      SetRq(s, q, r.(queue := r.queue[i := list], bitmap := if list == [] then r.bitmap[i := false] else r.bitmap))
        .(onList := s.onList - {e})
    else s
  }

  /** Uncounts the entity, which has left its list. */
  function DecTasks(tree: Tree, s: State, e: Ent): State {
    var q, i := Home(tree, s, e), Prio(s, e);
    var r := Rq(s, q);
    var nr := r.nr - Nr(s, e);
    var highest := if nr == 0 then MAX_RT_PRIO - 1 else if i == r.highest then FirstBit(r.bitmap) else r.highest;
    SetRq(s, q, r.(nr := nr, highest := highest))
  }

  function DequeueOne(tree: Tree, s: State, e: Ent): State {
    DecTasks(tree, Delist(tree, s, e).(onRq := s.onRq - {e}), e)
  }

  /** Puts the entity on its list. */
  function Enlist(tree: Tree, s: State, e: Ent, atHead: bool): State {
    var q, i := Home(tree, s, e), Prio(s, e);
    var r := Rq(s, q);
    if i < |r.queue| && i < |r.bitmap| then
      var list := if atHead then [e] + r.queue[i] else r.queue[i] + [e];
      SetRq(s, q, r.(queue := r.queue[i := list], bitmap := r.bitmap[i := true])).(onList := s.onList + {e})
    else s
  }

  function IncTasks(tree: Tree, s: State, e: Ent): State {
    var q, i := Home(tree, s, e), Prio(s, e);
    var r := Rq(s, q);
    SetRq(s, q, r.(nr := r.nr + Nr(s, e), highest := if i < r.highest then i else r.highest))
  }

  /** A throttled or empty group is not queued. */
  predicate Declined(s: State, e: Ent) {
    e.Group? && (Rq(s, e.q).throttled || Rq(s, e.q).nr == 0)
  }

  function EnqueueOne(tree: Tree, s: State, e: Ent, atHead: bool): State {
    if Declined(s, e) then
      if e in s.onList then Delist(tree, s, e) else s
    else
      IncTasks(tree, Enlist(tree, s, e, atHead).(onRq := s.onRq + {e}), e)
  }

  /** Nothing that is listed looks at queue `q`. */
  predicate Detached(tree: Tree, s: State, q: Q) {
    q in tree.height && Group(q) !in s.onList
  }

  /** What the two states agree on when only queue `q` and the listing of `e` changed. */
  ghost predicate OnlyAt(tree: Tree, s: State, s': State, q: Q, e: Ent) {
    && s'.info == s.info
    && s'.rqs.Keys == s.rqs.Keys
    && (forall p :: p in s.rqs && p != q ==> s'.rqs[p] == s.rqs[p])
    && Rq(s', q).throttled == Rq(s, q).throttled
    && s'.onRq - {e} == s.onRq - {e} && s'.onList - {e} == s.onList - {e}
  }

  /** The entity's home is not looked at by the entity or by anything listed. */
  ghost predicate Frame(tree: Tree, s: State, s': State, e: Ent) {
    var q := Home(tree, s, e);
    OnlyAt(tree, s, s', q, e) && Detached(tree, s, q) && e != Group(q)
  }

  lemma SameView(tree: Tree, s: State, s': State, e: Ent, x: Ent)
    requires Frame(tree, s, s', e) && (x == e || x in s.onList || x in s'.onList)
    ensures Home(tree, s', x) == Home(tree, s, x) && Prio(s', x) == Prio(s, x) && Nr(s', x) == Nr(s, x)
    ensures x != e ==> (x in s'.onList <==> x in s.onList)
  {
    assert x != e ==> (x in s'.onList - {e} <==> x in s.onList - {e});
  }

  lemma LevelStaysOk(tree: Tree, s: State, s': State, e: Ent, p: Q, i: nat)
    requires ArraysOk(tree, s) && Frame(tree, s, s', e) && p in tree.height && p != Home(tree, s, e) && i < MAX_RT_PRIO
    requires LocalOk(tree, s, p)
    ensures i < |Rq(s', p).queue| && i < |Rq(s', p).bitmap| && LevelOk(tree, s', p, i)
  {
    hide Total, HighestOk;
    assert Rq(s', p) == Rq(s, p);
    assert LevelOk(tree, s, p, i);
    forall x
      ensures x in Rq(s', p).queue[i] <==> x in s'.onList && Home(tree, s', x) == p && Prio(s', x) == i
    {
      if x == e || x in s.onList || x in s'.onList {
        SameView(tree, s, s', e, x);
      }
    }
  }

  /** Changing one queue that nothing listed looks at leaves every other array consistent. */
  lemma OthersStayOk(tree: Tree, s: State, s': State, e: Ent, p: Q)
    requires ArraysOk(tree, s) && Frame(tree, s, s', e) && p in tree.height && p != Home(tree, s, e)
    ensures LocalOk(tree, s', p)
  {
    hide LevelOk, ListedOk;
    assert LocalOk(tree, s, p);
    assert Rq(s', p) == Rq(s, p);
    forall i | 0 <= i < MAX_RT_PRIO
      ensures LevelOk(tree, s', p, i)
    {
      LevelStaysOk(tree, s, s', e, p, i);
    }
    TotalAfter(tree, s, s', e, p);
  }

  /** The sum over one array's lists is the same in both states. */
  lemma TotalAfter(tree: Tree, s: State, s': State, e: Ent, p: Q)
    requires ArraysOk(tree, s) && Frame(tree, s, s', e) && LocalOk(tree, s, p)
    ensures Total(s', Rq(s, p).queue) == Total(s, Rq(s, p).queue)
  {
    var queue := Rq(s, p).queue;
    forall i, x | 0 <= i < |queue| && x in queue[i]
      ensures Nr(s', x) == Nr(s, x)
    {
      assert LevelOk(tree, s, p, i);
      SameView(tree, s, s', e, x);
    }
    TotalSame(s, s', queue);
  }

  /** A level of the home array is consistent if only the entity came to it or left it. */
  lemma HomeLevelOk(tree: Tree, s: State, s': State, e: Ent, i: nat)
    requires ArraysOk(tree, s) && Frame(tree, s, s', e) && i < MAX_RT_PRIO
    requires i < |Rq(s', Home(tree, s, e)).queue| && i < |Rq(s', Home(tree, s, e)).bitmap|
    requires LocalOk(tree, s, Home(tree, s, e))
    requires var list := Rq(s', Home(tree, s, e)).queue[i];
      && (Rq(s', Home(tree, s, e)).bitmap[i] <==> list != []) && Distinct(list)
      && (forall x :: x in list <==>
            if x == e then i == Prio(s, e) && e in s'.onList else x in Rq(s, Home(tree, s, e)).queue[i])
    ensures LevelOk(tree, s', Home(tree, s, e), i)
  {
    var q := Home(tree, s, e);
    assert LevelOk(tree, s, q, i);
    forall x
      ensures x in Rq(s', q).queue[i] <==> x in s'.onList && Home(tree, s', x) == q && Prio(s', x) == i
    {
      if x == e || x in s.onList || x in s'.onList {
        SameView(tree, s, s', e, x);
      }
    }
  }

  lemma StillListed(tree: Tree, s: State, s': State, e: Ent)
    requires ArraysOk(tree, s) && Frame(tree, s, s', e) && (e in s'.onList ==> ListedOk(tree, s, e))
    ensures forall x :: x in s'.onList ==> ListedOk(tree, s', x)
  {
    forall x | x in s'.onList
      ensures ListedOk(tree, s', x)
    {
      SameView(tree, s, s', e, x);
      assert x != e ==> ListedOk(tree, s, x);
    }
  }

  /** Assembles the invariant of all arrays after one entity came to or left its home array. */
  lemma ArraysStayOk(tree: Tree, s: State, s': State, e: Ent)
    requires ArraysOk(tree, s) && Frame(tree, s, s', e) && LocalOk(tree, s', Home(tree, s, e))
    requires s'.onRq == s'.onList && (e in s'.onList ==> ListedOk(tree, s, e))
    ensures ArraysOk(tree, s')
  {
    hide LocalOk;
    forall p | p in tree.height
      ensures LocalOk(tree, s', p)
    {
      if p != Home(tree, s, e) {
        OthersStayOk(tree, s, s', e, p);
      }
    }
    StillListed(tree, s, s', e);
  }

  lemma NotOwnHome(tree: Tree, s: State, e: Ent)
    requires tree.Valid() && ListedOk(tree, s, e)
    ensures Home(tree, s, e) in tree.height && e != Group(Home(tree, s, e))
  {
  }

  predicate ArrayAt(s: State, q: Q, i: nat) {
    q in s.rqs && i < |s.rqs[q].queue| && i < |s.rqs[q].bitmap|
  }

  /** What taking an entity off changes in its array. */
  lemma DequeuedArray(tree: Tree, s: State, e: Ent)
    requires ArrayAt(s, Home(tree, s, e), Prio(s, e)) && e != Group(Home(tree, s, e))
    ensures var s', q, i := DequeueOne(tree, s, e), Home(tree, s, e), Prio(s, e);
      var r, list := Rq(s, q), Without(Rq(s, q).queue[i], e);
      && OnlyAt(tree, s, s', q, e) && s'.onList == s.onList - {e} && s'.onRq == s.onRq - {e}
      && Rq(s', q).queue == r.queue[i := list]
      && Rq(s', q).bitmap == (if list == [] then r.bitmap[i := false] else r.bitmap)
      && Rq(s', q).nr == r.nr - Nr(s, e)
      && Rq(s', q).highest == (if Rq(s', q).nr == 0 then MAX_RT_PRIO - 1
                               else if i == r.highest then FirstBit(Rq(s', q).bitmap) else r.highest)
  {
    hide FirstBit, Without;
    var s1 := Delist(tree, s, e).(onRq := s.onRq - {e});
    assert Home(tree, s1, e) == Home(tree, s, e) && Prio(s1, e) == Prio(s, e) && Nr(s1, e) == Nr(s, e);
  }

  lemma DequeueShape(tree: Tree, s: State, e: Ent)
    requires ArraysOk(tree, s) && e in s.onList && Detached(tree, s, Home(tree, s, e))
    ensures ListedOk(tree, s, e) && LocalOk(tree, s, Home(tree, s, e))
    ensures var s', q, i := DequeueOne(tree, s, e), Home(tree, s, e), Prio(s, e);
      var r, list := Rq(s, q), Without(Rq(s, q).queue[i], e);
      && Frame(tree, s, s', e) && s'.onList == s.onList - {e} == s'.onRq
      && Rq(s', q).queue == r.queue[i := list]
      && Rq(s', q).bitmap == (if list == [] then r.bitmap[i := false] else r.bitmap)
      && Rq(s', q).nr == r.nr - Nr(s, e)
      && Rq(s', q).highest == (if Rq(s', q).nr == 0 then MAX_RT_PRIO - 1
                               else if i == r.highest then FirstBit(Rq(s', q).bitmap) else r.highest)
  {
    hide LevelOk, HighestOk, Total, FirstBit, Without, DequeueOne;
    assert ListedOk(tree, s, e) && LocalOk(tree, s, Home(tree, s, e));
    NotOwnHome(tree, s, e);
    DequeuedArray(tree, s, e);
  }

  lemma DequeuedLevel(tree: Tree, s: State, e: Ent, j: nat)
    requires ArraysOk(tree, s) && e in s.onList && Detached(tree, s, Home(tree, s, e)) && j < MAX_RT_PRIO
    requires var r := Rq(DequeueOne(tree, s, e), Home(tree, s, e)); |r.queue| == |r.bitmap| == MAX_RT_PRIO
    ensures LevelOk(tree, DequeueOne(tree, s, e), Home(tree, s, e), j)
  {
    hide DequeueOne, HighestOk, Total, FirstBit;
    DequeueShape(tree, s, e);
    var s', q, i := DequeueOne(tree, s, e), Home(tree, s, e), Prio(s, e);
    assert LevelOk(tree, s, q, i) && LevelOk(tree, s, q, j);
    WithoutSpec(s, Rq(s, q).queue[i], e);
    HomeLevelOk(tree, s, s', e, j);
  }

  lemma DequeuedTotal(tree: Tree, s: State, e: Ent)
    requires ArraysOk(tree, s) && e in s.onList && Detached(tree, s, Home(tree, s, e))
    ensures var s', q := DequeueOne(tree, s, e), Home(tree, s, e);
      Rq(s', q).nr == Total(s', Rq(s', q).queue)
  {
    hide DequeueOne, HighestOk, FirstBit, Frame;
    DequeueShape(tree, s, e);
    var s', q, i := DequeueOne(tree, s, e), Home(tree, s, e), Prio(s, e);
    var queue := Rq(s, q).queue;
    assert LevelOk(tree, s, q, i);
    TotalAfter(tree, s, s', e, q);
    WithoutSpec(s', queue[i], e);
    TotalUpdate(s', queue, i, Without(queue[i], e));
    SameView(tree, s, s', e, e);
  }

  /** Whether anything is counted is whether anything is queued. */
  lemma CountedIffQueued(tree: Tree, s: State, q: Q)
    requires forall e :: e in s.onList ==> ListedOk(tree, s, e)
    requires |Rq(s, q).queue| == |Rq(s, q).bitmap| == MAX_RT_PRIO
    requires forall i :: 0 <= i < MAX_RT_PRIO ==> LevelOk(tree, s, q, i)
    ensures Total(s, Rq(s, q).queue) >= 0
    ensures Total(s, Rq(s, q).queue) == 0 <==> forall i :: 0 <= i < MAX_RT_PRIO ==> Rq(s, q).queue[i] == []
  {
    var queue := Rq(s, q).queue;
    forall i, x | 0 <= i < |queue| && x in queue[i]
      ensures Nr(s, x) > 0
    {
      assert LevelOk(tree, s, q, i);
      assert ListedOk(tree, s, x);
    }
    TotalPositive(s, queue);
  }

  /** Removing an entity from level `i` updates the cached priority as the code does. */
  lemma HighestAfterRemoval(r: RtRq, r': RtRq, i: nat)
    requires HighestOk(r) && i < MAX_RT_PRIO && r.queue[i] != []
    requires |r'.queue| == |r'.bitmap| == MAX_RT_PRIO
    requires forall j :: 0 <= j < MAX_RT_PRIO ==> (r'.bitmap[j] <==> r'.queue[j] != [])
    requires forall j :: 0 <= j < MAX_RT_PRIO && j != i ==> r'.queue[j] == r.queue[j]
    requires r'.nr == 0 <==> forall j :: 0 <= j < MAX_RT_PRIO ==> r'.queue[j] == []
    requires r'.highest == if r'.nr == 0 then MAX_RT_PRIO - 1
                           else if i == r.highest then FirstBit(r'.bitmap) else r.highest
    ensures HighestOk(r') && r.highest <= i
  {
    FirstBitIsFirst(r'.bitmap);
  }

  /** Taking an entity off, with its ancestors already off, keeps every array consistent, and none
      of the warnings on the way can fire. */
  lemma DequeueOneOk(tree: Tree, s: State, e: Ent)
    requires ArraysOk(tree, s) && e in s.onList && Detached(tree, s, Home(tree, s, e))
    ensures ArraysOk(tree, DequeueOne(tree, s, e)) && Frame(tree, s, DequeueOne(tree, s, e), e)
    ensures DequeueOne(tree, s, e).onList == s.onList - {e}
    ensures Prio(s, e) < MAX_RT_PRIO && Rq(s, Home(tree, s, e)).nr > 0 && Rq(s, Home(tree, s, e)).highest <= Prio(s, e)
  {
    hide DequeueOne, FirstBit, Total;
    DequeueShape(tree, s, e);
    var s', q, i := DequeueOne(tree, s, e), Home(tree, s, e), Prio(s, e);
    forall j | 0 <= j < MAX_RT_PRIO
      ensures LevelOk(tree, s', q, j)
    {
      DequeuedLevel(tree, s, e, j);
    }
    DequeuedTotal(tree, s, e);
    StillListed(tree, s, s', e);
    CountedIffQueued(tree, s', q);
    CountedIffQueued(tree, s, q);
    assert LevelOk(tree, s, q, i);
    Levels(tree, s', q);
    HighestAfterRemoval(Rq(s, q), Rq(s', q), i);
    hide LevelOk, HighestOk;
    ArraysStayOk(tree, s, s', e);
  }

  lemma Levels(tree: Tree, s: State, q: Q)
    requires |Rq(s, q).queue| == |Rq(s, q).bitmap| == MAX_RT_PRIO
    requires forall i :: 0 <= i < MAX_RT_PRIO ==> LevelOk(tree, s, q, i)
    ensures forall i :: 0 <= i < MAX_RT_PRIO ==> (Rq(s, q).bitmap[i] <==> Rq(s, q).queue[i] != [])
  {
    forall i | 0 <= i < MAX_RT_PRIO
      ensures Rq(s, q).bitmap[i] <==> Rq(s, q).queue[i] != []
    {
      assert LevelOk(tree, s, q, i);
    }
  }

  ghost predicate Known(tree: Tree, s: State, e: Ent) {
    match e
    case Task(t) => t in s.info && s.info[t].q in tree.height && s.info[t].prio < MAX_RT_PRIO
    case Group(q) => q in tree.parent
  }

  lemma NotDeclined(tree: Tree, s: State, e: Ent)
    requires ArraysOk(tree, s) && Known(tree, s, e) && !Declined(s, e)
    ensures ListedOk(tree, s, e)
  {
    if e.Group? {
      assert LocalOk(tree, s, e.q);
      CountedIffQueued(tree, s, e.q);
    }
  }

  /** What putting an entity on changes in its array. */
  lemma EnqueuedArray(tree: Tree, s: State, e: Ent, atHead: bool)
    requires ArrayAt(s, Home(tree, s, e), Prio(s, e)) && e != Group(Home(tree, s, e)) && !Declined(s, e)
    ensures var s', q, i := EnqueueOne(tree, s, e, atHead), Home(tree, s, e), Prio(s, e);
      var r := Rq(s, q);
      && OnlyAt(tree, s, s', q, e) && s'.onList == s.onList + {e} && s'.onRq == s.onRq + {e}
      && Rq(s', q).queue == r.queue[i := if atHead then [e] + r.queue[i] else r.queue[i] + [e]]
      && Rq(s', q).bitmap == r.bitmap[i := true]
      && Rq(s', q).nr == r.nr + Nr(s, e)
      && Rq(s', q).highest == (if i < r.highest then i else r.highest)
  {
    var s1 := Enlist(tree, s, e, atHead).(onRq := s.onRq + {e});
    assert Home(tree, s1, e) == Home(tree, s, e) && Prio(s1, e) == Prio(s, e) && Nr(s1, e) == Nr(s, e);
  }

  lemma EnqueueShape(tree: Tree, s: State, e: Ent, atHead: bool)
    requires ArraysOk(tree, s) && e !in s.onList && Detached(tree, s, Home(tree, s, e))
    requires ListedOk(tree, s, e) && !Declined(s, e)
    ensures LocalOk(tree, s, Home(tree, s, e))
    ensures var s', q, i := EnqueueOne(tree, s, e, atHead), Home(tree, s, e), Prio(s, e);
      var r := Rq(s, q);
      && Frame(tree, s, s', e) && s'.onList == s.onList + {e} == s'.onRq
      && Rq(s', q).queue == r.queue[i := if atHead then [e] + r.queue[i] else r.queue[i] + [e]]
      && Rq(s', q).bitmap == r.bitmap[i := true]
      && Rq(s', q).nr == r.nr + Nr(s, e)
      && Rq(s', q).highest == (if i < r.highest then i else r.highest)
  {
    hide LevelOk, HighestOk, Total, EnqueueOne, Declined;
    assert LocalOk(tree, s, Home(tree, s, e));
    NotOwnHome(tree, s, e);
    EnqueuedArray(tree, s, e, atHead);
  }

  lemma EnqueuedLevel(tree: Tree, s: State, e: Ent, atHead: bool, j: nat)
    requires ArraysOk(tree, s) && e !in s.onList && Detached(tree, s, Home(tree, s, e))
    requires ListedOk(tree, s, e) && !Declined(s, e)
    requires var r := Rq(EnqueueOne(tree, s, e, atHead), Home(tree, s, e)); j < |r.queue| == |r.bitmap| == MAX_RT_PRIO
    ensures LevelOk(tree, EnqueueOne(tree, s, e, atHead), Home(tree, s, e), j)
  {
    hide EnqueueOne, HighestOk, Total, ArraysOk, Frame, ListedOk, Declined;
    EnqueueShape(tree, s, e, atHead);
    PrioBound(tree, s, e);
    var s', q := EnqueueOne(tree, s, e, atHead), Home(tree, s, e);
    assert LevelOk(tree, s, q, j);
    JoinedList(Rq(s, q).queue[j], e, atHead);
    HomeLevelOk(tree, s, s', e, j);
  }

  lemma JoinedList(list: seq<Ent>, e: Ent, atHead: bool)
    requires Distinct(list) && e !in list
    ensures var list' := if atHead then [e] + list else list + [e];
      Distinct(list') && list' != [] && forall x :: x in list' <==> x == e || x in list
  {
  }

  lemma EnqueuedTotal(tree: Tree, s: State, e: Ent, atHead: bool)
    requires ArraysOk(tree, s) && e !in s.onList && Detached(tree, s, Home(tree, s, e))
    requires ListedOk(tree, s, e) && !Declined(s, e)
    ensures var s', q := EnqueueOne(tree, s, e, atHead), Home(tree, s, e);
      Rq(s', q).nr == Total(s', Rq(s', q).queue)
  {
    hide EnqueueOne, HighestOk, Frame;
    EnqueueShape(tree, s, e, atHead);
    var s', q, i := EnqueueOne(tree, s, e, atHead), Home(tree, s, e), Prio(s, e);
    var queue := Rq(s, q).queue;
    TotalAfter(tree, s, s', e, q);
    SumAppend(s', queue[i], e);
    TotalUpdate(s', queue, i, Rq(s', q).queue[i]);
    SameView(tree, s, s', e, e);
  }

  lemma HighestAfterInsertion(r: RtRq, r': RtRq, i: nat)
    requires HighestOk(r) && i < MAX_RT_PRIO == |r'.queue| && r'.queue[i] != []
    requires forall j :: 0 <= j < MAX_RT_PRIO && j != i ==> r'.queue[j] == r.queue[j]
    requires r'.highest == if i < r.highest then i else r.highest
    ensures HighestOk(r')
  {
  }

  lemma EnqueuedHome(tree: Tree, s: State, e: Ent, atHead: bool)
    requires ArraysOk(tree, s) && e !in s.onList && Detached(tree, s, Home(tree, s, e))
    requires ListedOk(tree, s, e) && !Declined(s, e)
    ensures LocalOk(tree, EnqueueOne(tree, s, e, atHead), Home(tree, s, e))
  {
    hide EnqueueOne, Total, ArraysOk, LevelOk, HighestOk, Frame, Declined, ListedOk, Detached;
    EnqueueShape(tree, s, e, atHead);
    var s', q := EnqueueOne(tree, s, e, atHead), Home(tree, s, e);
    assert Prio(s, e) < MAX_RT_PRIO by {
      PrioBound(tree, s, e);
    }
    forall j | 0 <= j < MAX_RT_PRIO
      ensures LevelOk(tree, s', q, j)
    {
      EnqueuedLevel(tree, s, e, atHead, j);
    }
    EnqueuedTotal(tree, s, e, atHead);
    HighestAfterInsertion(Rq(s, q), Rq(s', q), Prio(s, e));
  }

  lemma PrioBound(tree: Tree, s: State, e: Ent)
    requires ListedOk(tree, s, e)
    ensures Prio(s, e) < MAX_RT_PRIO
  {
  }

  /** Putting an entity on, with its ancestors off, keeps every array consistent. */
  lemma EnqueueOneOk(tree: Tree, s: State, e: Ent, atHead: bool)
    requires ArraysOk(tree, s) && e !in s.onList && Detached(tree, s, Home(tree, s, e)) && Known(tree, s, e)
    ensures ArraysOk(tree, EnqueueOne(tree, s, e, atHead)) && Frame(tree, s, EnqueueOne(tree, s, e, atHead), e)
    ensures EnqueueOne(tree, s, e, atHead).onList == if Declined(s, e) then s.onList else s.onList + {e}
    ensures !Declined(s, e) ==> ListedOk(tree, s, e)
  {
    hide EnqueueOne, Total, LocalOk;
    if Declined(s, e) {
      DeclinedStays(tree, s, e, atHead);
      KnownHome(tree, s, e);
    } else {
      NotDeclined(tree, s, e);
      EnqueueShape(tree, s, e, atHead);
      EnqueuedHome(tree, s, e, atHead);
      ArraysStayOk(tree, s, EnqueueOne(tree, s, e, atHead), e);
    }
  }

  lemma DeclinedStays(tree: Tree, s: State, e: Ent, atHead: bool)
    requires Declined(s, e) && e !in s.onList
    ensures EnqueueOne(tree, s, e, atHead) == s
  {
  }

  lemma KnownHome(tree: Tree, s: State, e: Ent)
    requires tree.Valid() && Known(tree, s, e)
    ensures Home(tree, s, e) in tree.height && e != Group(Home(tree, s, e))
  {
  }

  // ---------- the chain of ancestors ----------

  /** The groups from `q` upwards whose entities are queued somewhere: all but the top. */
  ghost function Up(tree: Tree, q: Q): set<Ent>
    requires tree.Valid() && q in tree.height
    decreases tree.Below(q)
  {
    if q == tree.top then {} else {Group(q)} + Up(tree, tree.parent[q])
  }

  /** Takes the entity and its ancestors off, from the top down. */
  function Unstack(tree: Tree, s: State, e: Ent): State
    requires tree.Valid() && Home(tree, s, e) in tree.height
    decreases tree.Below(Home(tree, s, e))
  {
    var q := Home(tree, s, e);
    var s1 := if q == tree.top then s else Unstack(tree, s, Group(q));
    if e in s1.onRq then DequeueOne(tree, s1, e) else s1
  }

  /** Puts the entity and its ancestors on, from the bottom up. */
  function Restack(tree: Tree, s: State, e: Ent, atHead: bool): State
    requires tree.Valid() && Home(tree, s, e) in tree.height
    decreases tree.Below(Home(tree, s, e))
  {
    var q := Home(tree, s, e);
    var s1 := EnqueueOne(tree, s, e, atHead);
    if q == tree.top then s1 else Restack(tree, s1, Group(q), atHead)
  }

  lemma {:induction false} UpIsAbove(tree: Tree, q: Q, x: Ent)
    requires tree.Valid() && q in tree.height && x in Up(tree, q)
    ensures x.Group? && x.q in tree.parent && tree.height[q] <= tree.height[x.q]
    decreases tree.Below(q)
  {
    if x != Group(q) {
      UpIsAbove(tree, tree.parent[q], x);
    }
  }

  lemma NotAboveItself(tree: Tree, s: State, e: Ent)
    requires tree.Valid() && Known(tree, s, e) && Home(tree, s, e) in tree.height
    ensures e !in Up(tree, Home(tree, s, e))
  {
    if e in Up(tree, Home(tree, s, e)) {
      UpIsAbove(tree, Home(tree, s, e), e);
    }
  }

  /** Which tasks are queued, what they are and which groups are throttled: what the rest of the
      state has to follow. */
  ghost predicate SameInputs(s: State, s': State) {
    s'.info == s.info && forall q :: Rq(s', q).throttled == Rq(s, q).throttled
  }

  lemma {:induction false} UnstackOk(tree: Tree, s: State, e: Ent)
    requires ArraysOk(tree, s) && Known(tree, s, e) && Home(tree, s, e) in tree.height
    ensures var s' := Unstack(tree, s, e);
      && ArraysOk(tree, s') && SameInputs(s, s')
      && s'.onList == s.onList - {e} - Up(tree, Home(tree, s, e))
      && (forall p :: p in tree.parent && Group(p) !in Up(tree, Home(tree, s, e)) ==> Rq(s', p) == Rq(s, p))
    decreases tree.Below(Home(tree, s, e))
  {
    hide ArraysOk, DequeueOne;
    assert tree.Valid() && s.rqs.Keys == tree.height.Keys by {
      Basics(tree, s);
    }
    var q := Home(tree, s, e);
    var s1 := if q == tree.top then s else Unstack(tree, s, Group(q));
    if q != tree.top {
      UnstackOk(tree, s, Group(q));
    }
    NotAboveItself(tree, s, e);
    Basics(tree, s1);
    if e in s1.onRq {
      TopNotListed(tree, s1);
      assert Known(tree, s1, e) && Home(tree, s1, e) == q;
      DequeueOneOk(tree, s1, e);
      FrameInputs(tree, s1, DequeueOne(tree, s1, e), e);
      hide Known, Detached, Frame;
    }
  }

  lemma FrameInputs(tree: Tree, s: State, s': State, e: Ent)
    requires Frame(tree, s, s', e)
    ensures SameInputs(s, s') && forall p :: p != Home(tree, s, e) ==> Rq(s', p) == Rq(s, p)
  {
  }

  lemma Basics(tree: Tree, s: State)
    requires ArraysOk(tree, s)
    ensures tree.Valid() && s.rqs.Keys == tree.height.Keys && s.onRq == s.onList
  {
  }

  lemma TopNotListed(tree: Tree, s: State)
    requires ArraysOk(tree, s)
    ensures Group(tree.top) !in s.onList
  {
    assert Group(tree.top) in s.onList ==> ListedOk(tree, s, Group(tree.top));
  }

  lemma StaysGroupOk(tree: Tree, s: State, s1: State, e: Ent, p: Q)
    requires ArraysOk(tree, s) && Frame(tree, s, s1, e) && p in tree.parent && p != Home(tree, s, e) && e !in s.onList
    requires s1.onList == if Declined(s, e) then s.onList else s.onList + {e}
    requires Group(p) != e ==> GroupOk(s, p)
    ensures GroupOk(s1, p)
  {
    assert Rq(s1, p) == Rq(s, p);
    if Group(p) == e {
      assert LocalOk(tree, s, p);
      CountedIffQueued(tree, s, p);
    }
  }

  /** The entity and its ancestors are off, and only their groups may be inconsistent. */
  ghost predicate Opened(tree: Tree, s: State, e: Ent) {
    && ArraysOk(tree, s) && Known(tree, s, e) && Home(tree, s, e) in tree.height
    && e !in s.onList && s.onList !! Up(tree, Home(tree, s, e))
    && (forall q :: q in tree.parent && Group(q) !in Up(tree, Home(tree, s, e)) && Group(q) != e ==> GroupOk(s, q))
  }

  /** Putting the entity on closes its level of the chain. */
  lemma OpenedStep(tree: Tree, s: State, e: Ent, atHead: bool)
    requires Opened(tree, s, e)
    ensures var s', q := EnqueueOne(tree, s, e, atHead), Home(tree, s, e);
      && SameInputs(s, s') && s'.onList == (if Declined(s, e) then s.onList else s.onList + {e})
      && (forall p :: p != q ==> Rq(s', p) == Rq(s, p))
      && if q == tree.top then Inv(tree, s') else Opened(tree, s', Group(q))
  {
    hide ArraysOk, EnqueueOne;
    Basics(tree, s);
    var q, s1 := Home(tree, s, e), EnqueueOne(tree, s, e, atHead);
    NotAboveItself(tree, s, e);
    TopNotListed(tree, s);
    EnqueueOneOk(tree, s, e, atHead);
    Basics(tree, s1);
    forall p | p in tree.parent && Group(p) !in Up(tree, q)
      ensures GroupOk(s1, p)
    {
      StaysGroupOk(tree, s, s1, e, p);
    }
    if q != tree.top {
      assert Home(tree, s1, Group(q)) == tree.parent[q];
    }
  }

  /** Putting the chain back makes every group consistent again. */
  lemma {:induction false} RestackOk(tree: Tree, s: State, e: Ent, atHead: bool)
    requires Opened(tree, s, e)
    ensures var s' := Restack(tree, s, e, atHead);
      && Inv(tree, s') && SameInputs(s, s')
      && (forall t :: Task(t) in s'.onList <==> Task(t) in s.onList || Task(t) == e)
      && (forall p :: p in tree.parent && Group(p) !in Up(tree, Home(tree, s, e)) ==> Rq(s', p) == Rq(s, p))
    decreases tree.Below(Home(tree, s, e))
  {
    hide ArraysOk, EnqueueOne;
    Basics(tree, s);
    OpenedStep(tree, s, e, atHead);
    var q := Home(tree, s, e);
    if q != tree.top {
      RestackOk(tree, EnqueueOne(tree, s, e, atHead), Group(q), atHead);
    }
  }

  // ---------- the operations ----------

  /** Every group but the one of this entity is consistent. */
  ghost predicate InvBut(tree: Tree, s: State, e: Ent) {
    && ArraysOk(tree, s) && Known(tree, s, e)
    && forall q :: q in tree.parent && Group(q) != e ==> GroupOk(s, q)
  }

  lemma UnstackOpens(tree: Tree, s: State, e: Ent)
    requires InvBut(tree, s, e)
    ensures Home(tree, s, e) in tree.height && Opened(tree, Unstack(tree, s, e), e)
  {
    hide ArraysOk, Unstack;
    Basics(tree, s);
    KnownHome(tree, s, e);
    UnstackOk(tree, s, e);
  }

  /** Any task that leaves is not put back; the groups above it are. */
  function Regroup(tree: Tree, s: State, e: Ent, atHead: bool): State
    requires tree.Valid() && Home(tree, s, e) in tree.height
  {
    var q := Home(tree, s, e);
    if e.Group? then Restack(tree, s, e, atHead)
    else if q == tree.top then s
    else Restack(tree, s, Group(q), atHead)
  }

  /** One round of the loop that puts the groups back. */
  lemma RegroupStep(tree: Tree, s: State, e: Ent, atHead: bool)
    requires Opened(tree, s, e)
    ensures var s', q := if e.Group? then EnqueueOne(tree, s, e, atHead) else s, Home(tree, s, e);
      if q == tree.top then Regroup(tree, s, e, atHead) == s'
      else
        && Opened(tree, s', Group(q)) && Home(tree, s', Group(q)) in tree.height
        && tree.Below(Home(tree, s', Group(q))) < tree.Below(q)
        && Regroup(tree, s, e, atHead) == Regroup(tree, s', Group(q), atHead)
  {
    hide ArraysOk, EnqueueOne;
    Basics(tree, s);
    if e.Group? {
      OpenedStep(tree, s, e, atHead);
    } else if Home(tree, s, e) != tree.top {
      OpenedAbove(tree, s, e);
    }
  }

  lemma OpenedAbove(tree: Tree, s: State, e: Ent)
    requires Opened(tree, s, e) && e.Task? && Home(tree, s, e) != tree.top
    ensures Opened(tree, s, Group(Home(tree, s, e)))
  {
    hide ArraysOk;
    Basics(tree, s);
    NotAboveItself(tree, s, Group(Home(tree, s, e)));
  }

  lemma RegroupOk(tree: Tree, s: State, e: Ent, atHead: bool)
    requires Opened(tree, s, e)
    ensures var s' := Regroup(tree, s, e, atHead);
      Inv(tree, s') && SameInputs(s, s') && forall t :: Task(t) in s'.onList <==> Task(t) in s.onList
  {
    hide ArraysOk, Restack;
    Basics(tree, s);
    var q := Home(tree, s, e);
    if e.Group? {
      RestackOk(tree, s, e, atHead);
    } else if q != tree.top {
      OpenedAbove(tree, s, e);
      RestackOk(tree, s, Group(q), atHead);
    }
  }

  // ---------- the order of the lists ----------

  /** The entities of a list that are not among those moved, in order. */
  function Others(list: seq<Ent>, moved: set<Ent>): seq<Ent> {
    if list == [] then [] else (if list[0] in moved then [] else [list[0]]) + Others(list[1..], moved)
  }

  ghost predicate QueueKept(r: RtRq, r': RtRq, moved: set<Ent>) {
    && |r'.queue| == |r.queue|
    && forall i :: 0 <= i < |r.queue| ==> Others(r'.queue[i], moved) == Others(r.queue[i], moved)
  }

  /** At every level of every array the entities that were not moved are the same, in the same order. */
  ghost predicate OthersKept(s: State, s': State, moved: set<Ent>) {
    forall q :: QueueKept(Rq(s, q), Rq(s', q), moved)
  }

  /** The entity and the groups above it: what an operation on the entity moves. */
  ghost function Chain(tree: Tree, s: State, e: Ent): set<Ent>
    requires tree.Valid() && Home(tree, s, e) in tree.height
  {
    {e} + Up(tree, Home(tree, s, e))
  }

  /** The entity is the last of its list, or the first if `atHead`. */
  predicate AtChosenEnd(tree: Tree, s: State, e: Ent, atHead: bool) {
    var queue, i := Rq(s, Home(tree, s, e)).queue, Prio(s, e);
    i < |queue| && queue[i] != [] && e == if atHead then queue[i][0] else queue[i][|queue[i]| - 1]
  }

  /** Of the entities moved, those that are queued stand at the chosen end of their lists. */
  ghost predicate ChainAtEnd(tree: Tree, s: State, e: Ent, atHead: bool) {
    && tree.Valid() && Home(tree, s, e) in tree.height
    && forall x :: x in Chain(tree, s, e) && x in s.onList ==> AtChosenEnd(tree, s, x, atHead)
  }

  /** The entity and every group above it are the first of their lists. */
  ghost predicate ChainHeads(tree: Tree, s: State, e: Ent)
    requires tree.Valid() && Home(tree, s, e) in tree.height
  {
    forall x :: x in Chain(tree, s, e) ==> AtChosenEnd(tree, s, x, true)
  }

  /** What an operation on the entity does to the lists: it moves the entity and the groups above it to
      the chosen ends, and nothing else. */
  ghost predicate InOrder(tree: Tree, s: State, s': State, e: Ent, atHead: bool) {
    && tree.Valid() && Home(tree, s, e) in tree.height
    && OthersKept(s, s', Chain(tree, s, e)) && ChainAtEnd(tree, s', e, atHead)
  }

  ghost predicate ListsUnchanged(s: State, s': State) {
    forall q :: Rq(s', q).queue == Rq(s, q).queue
  }

  lemma {:induction false} OthersWithout(list: seq<Ent>, e: Ent, moved: set<Ent>)
    requires e in moved
    ensures Others(Without(list, e), moved) == Others(list, moved)
  {
    if list != [] && list[0] != e {
      OthersWithout(list[1..], e, moved);
    }
  }

  lemma {:induction false} OthersWith(list: seq<Ent>, e: Ent, moved: set<Ent>)
    requires e in moved
    ensures Others(list + [e], moved) == Others(list, moved) == Others([e] + list, moved)
  {
    assert ([e] + list)[1..] == list;
    if list == [] {
      assert list + [e] == [e];
    } else {
      assert (list + [e])[1..] == list[1..] + [e];
      OthersWith(list[1..], e, moved);
    }
  }

  lemma DequeueKeepsOthers(tree: Tree, s: State, e: Ent, moved: set<Ent>)
    requires ArrayAt(s, Home(tree, s, e), Prio(s, e)) && e != Group(Home(tree, s, e)) && e in moved
    ensures OthersKept(s, DequeueOne(tree, s, e), moved)
  {
    hide DequeueOne, Without, Others;
    DequeuedArray(tree, s, e);
    OthersWithout(Rq(s, Home(tree, s, e)).queue[Prio(s, e)], e, moved);
  }

  lemma EnqueueKeepsOthers(tree: Tree, s: State, e: Ent, atHead: bool, moved: set<Ent>)
    requires ArrayAt(s, Home(tree, s, e), Prio(s, e)) && e != Group(Home(tree, s, e)) && e in moved && !Declined(s, e)
    ensures OthersKept(s, EnqueueOne(tree, s, e, atHead), moved)
    ensures AtChosenEnd(tree, EnqueueOne(tree, s, e, atHead), e, atHead)
  {
    hide EnqueueOne, Others;
    EnqueuedArray(tree, s, e, atHead);
    OthersWith(Rq(s, Home(tree, s, e)).queue[Prio(s, e)], e, moved);
  }

  lemma OthersKeptTwice(s: State, s1: State, s2: State, moved: set<Ent>)
    requires OthersKept(s, s1, moved) && OthersKept(s1, s2, moved)
    ensures OthersKept(s, s2, moved)
  {
    forall q
      ensures QueueKept(Rq(s, q), Rq(s2, q), moved)
    {
      assert QueueKept(Rq(s, q), Rq(s1, q), moved) && QueueKept(Rq(s1, q), Rq(s2, q), moved);
    }
  }

  lemma {:induction false} UnstackKeepsOthers(tree: Tree, s: State, e: Ent, moved: set<Ent>)
    requires ArraysOk(tree, s) && Known(tree, s, e) && Home(tree, s, e) in tree.height
    requires tree.Valid() && Chain(tree, s, e) <= moved
    ensures OthersKept(s, Unstack(tree, s, e), moved)
    decreases tree.Below(Home(tree, s, e))
  {
    hide ArraysOk, DequeueOne, OthersKept;
    Basics(tree, s);
    KnownHome(tree, s, e);
    var q := Home(tree, s, e);
    var s1 := if q == tree.top then s else Unstack(tree, s, Group(q));
    NothingMoved(s, moved);
    if q != tree.top {
      UnstackKeepsOthers(tree, s, Group(q), moved);
    }
    UnstackReady(tree, s, e);
    if e in s1.onRq {
      DequeueKeepsOthers(tree, s1, e, moved);
      OthersKeptTwice(s, s1, DequeueOne(tree, s1, e), moved);
    }
  }

  lemma NothingMoved(s: State, moved: set<Ent>)
    ensures OthersKept(s, s, moved)
  {
  }

  /** Putting the chain back moves nothing else, and every entity of it that is queued again stands at
      the chosen end of its list. */
  lemma {:induction false} RestackInOrder(tree: Tree, s: State, e: Ent, atHead: bool, moved: set<Ent>)
    requires Opened(tree, s, e) && tree.Valid() && Chain(tree, s, e) <= moved
    ensures OthersKept(s, Restack(tree, s, e, atHead), moved)
    ensures Home(tree, Restack(tree, s, e, atHead), e) == Home(tree, s, e)
    ensures ChainAtEnd(tree, Restack(tree, s, e, atHead), e, atHead)
    decreases tree.Below(Home(tree, s, e))
  {
    hide ArraysOk, EnqueueOne, OthersKept, AtChosenEnd, Opened, Restack;
    OpenedBasics(tree, s, e);
    OpenedStep(tree, s, e, atHead);
    var q, s1 := Home(tree, s, e), EnqueueOne(tree, s, e, atHead);
    OneInOrder(tree, s, e, atHead, moved);
    RestackUnfolds(tree, s, e, atHead);
    if q != tree.top {
      RestackInOrder(tree, s1, Group(q), atHead, moved);
      var s' := Restack(tree, s1, Group(q), atHead);
      OthersKeptTwice(s, s1, s', moved);
      RestackOk(tree, s1, Group(q), atHead);
      LaterLeavesAlone(tree, s, s1, e, atHead);
    }
  }

  lemma RestackUnfolds(tree: Tree, s: State, e: Ent, atHead: bool)
    requires tree.Valid() && Home(tree, s, e) in tree.height
    ensures var q, s1 := Home(tree, s, e), EnqueueOne(tree, s, e, atHead);
      Restack(tree, s, e, atHead) == if q == tree.top then s1 else Restack(tree, s1, Group(q), atHead)
  {
  }

  lemma OneInOrder(tree: Tree, s: State, e: Ent, atHead: bool, moved: set<Ent>)
    requires Opened(tree, s, e) && e in moved
    ensures OthersKept(s, EnqueueOne(tree, s, e, atHead), moved)
    ensures e in EnqueueOne(tree, s, e, atHead).onList ==> AtChosenEnd(tree, EnqueueOne(tree, s, e, atHead), e, atHead)
  {
    hide ArraysOk, EnqueueOne, OthersKept, AtChosenEnd;
    Basics(tree, s);
    EnqueueReady(tree, s, e);
    KnownHome(tree, s, e);
    if Declined(s, e) {
      DeclinedStays(tree, s, e, atHead);
      NothingMoved(s, moved);
    } else {
      EnqueueKeepsOthers(tree, s, e, atHead, moved);
    }
  }

  /** What is done further up leaves the entity where it has been put. */
  lemma LaterLeavesAlone(tree: Tree, s: State, s1: State, e: Ent, atHead: bool)
    requires tree.Valid() && Known(tree, s, e) && Home(tree, s, e) in tree.parent && SameInputs(s, s1)
    requires Opened(tree, s1, Group(Home(tree, s, e))) && Home(tree, s1, e) == Home(tree, s, e)
    ensures var s' := Restack(tree, s1, Group(Home(tree, s, e)), atHead);
      && (AtChosenEnd(tree, s1, e, atHead) ==> AtChosenEnd(tree, s', e, atHead))
      && (e in s'.onList ==> e in s1.onList)
  {
    hide ArraysOk, Restack, Opened;
    var q := Home(tree, s, e);
    OpenedBasics(tree, s1, Group(q));
    RestackOk(tree, s1, Group(q), atHead);
    KnownHome(tree, s, e);
    NotAboveItself(tree, s, e);
    NotAboveItself(tree, s1, Group(q));
    RestackLists(tree, s1, Group(q), atHead, e);
  }

  /** Restacking lists nothing but the chain. */
  lemma {:induction false} RestackLists(tree: Tree, s: State, e: Ent, atHead: bool, x: Ent)
    requires Opened(tree, s, e) && tree.Valid() && Home(tree, s, e) in tree.height && x !in Chain(tree, s, e)
    ensures x in Restack(tree, s, e, atHead).onList ==> x in s.onList
    decreases tree.Below(Home(tree, s, e))
  {
    hide ArraysOk, EnqueueOne, Opened;
    OpenedBasics(tree, s, e);
    OpenedStep(tree, s, e, atHead);
    var q, s1 := Home(tree, s, e), EnqueueOne(tree, s, e, atHead);
    if q != tree.top {
      RestackLists(tree, s1, Group(q), atHead, x);
    }
  }

  // ---------- which task is picked ----------

  /** No group from `q` up to the top is throttled. */
  ghost predicate OpenUp(tree: Tree, s: State, q: Q)
    requires tree.Valid() && q in tree.height
    decreases tree.Below(q)
  {
    !Rq(s, q).throttled && (q == tree.top || OpenUp(tree, s, tree.parent[q]))
  }

  ghost predicate Reachable(tree: Tree, s: State, t: nat)
    requires tree.Valid()
  {
    Task(t) in s.onRq && t in s.info && s.info[t].q in tree.height && OpenUp(tree, s, s.info[t].q)
  }

  /** A listed entity's priority is at least its queue's cached one, and the queue is not empty. */
  lemma ListedBound(tree: Tree, s: State, e: Ent)
    requires Inv(tree, s) && e in s.onList
    ensures var q := Home(tree, s, e); q in tree.height && Rq(s, q).highest <= Prio(s, e) && Rq(s, q).nr > 0
  {
    var q := Home(tree, s, e);
    assert ListedOk(tree, s, e);
    NotOwnHome(tree, s, e);
    assert LocalOk(tree, s, q);
    assert LevelOk(tree, s, q, Prio(s, e));
    CountedIffQueued(tree, s, q);
  }

  /** Through unthrottled groups the cached priorities only get smaller towards the top. */
  lemma {:induction false} TopBound(tree: Tree, s: State, q: Q)
    requires Inv(tree, s) && q in tree.height && OpenUp(tree, s, q) && Rq(s, q).nr > 0
    ensures Rq(s, tree.top).nr > 0 && Rq(s, tree.top).highest <= Rq(s, q).highest && !Rq(s, tree.top).throttled
    decreases tree.Below(q)
  {
    if q != tree.top {
      assert GroupOk(s, q);
      ListedBound(tree, s, Group(q));
      TopBound(tree, s, tree.parent[q]);
    }
  }

  lemma ReachableBound(tree: Tree, s: State, t: nat)
    requires Inv(tree, s) && Reachable(tree, s, t)
    ensures Rq(s, tree.top).nr > 0 && Rq(s, tree.top).highest <= s.info[t].prio && !Rq(s, tree.top).throttled
  {
    ListedBound(tree, s, Task(t));
    TopBound(tree, s, s.info[t].q);
  }

  /** In a non-empty queue the first set bit is the cached priority, and its list has a head. */
  lemma FirstQueued(tree: Tree, s: State, q: Q)
    requires Inv(tree, s) && q in tree.height && Rq(s, q).nr > 0
    ensures var r := Rq(s, q); var i := FirstBit(r.bitmap);
      && i == r.highest < MAX_RT_PRIO == |r.queue| && r.queue[i] != []
      && r.queue[i][0] in s.onList && Home(tree, s, r.queue[i][0]) == q && Prio(s, r.queue[i][0]) == i
  {
    hide Inv;
    assert LocalOk(tree, s, q) && forall e :: e in s.onList ==> ListedOk(tree, s, e) by {
      InvParts(tree, s, q);
    }
    CountedIffQueued(tree, s, q);
    Levels(tree, s, q);
    FirstBitIsFirst(Rq(s, q).bitmap);
    assert LevelOk(tree, s, q, Rq(s, q).highest);
  }

  lemma InvParts(tree: Tree, s: State, q: Q)
    requires Inv(tree, s) && q in tree.height
    ensures LocalOk(tree, s, q) && forall e :: e in s.onList ==> ListedOk(tree, s, e)
  {
  }

  // ---------- the run queue ----------

  lemma {:induction false} EmptyTotal(s: State, queue: seq<seq<Ent>>)
    requires forall i :: 0 <= i < |queue| ==> queue[i] == []
    ensures Total(s, queue) == 0
  {
    if queue != [] {
      EmptyTotal(s, queue[1..]);
    }
  }

  /** The real-time part of a CPU's run queue. `rtQueued` says whether it counts towards the CPU's
      number of runnable tasks, and `nrRunning` is its part of that number. */
  class RtRunqueue {
    const tree: Tree
    var rqs: map<Q, RtRq>
    var onRq: set<Ent>
    var onList: set<Ent>
    var info: map<nat, Info>
    var rtQueued: bool
    var nrRunning: int
    var warned: bool

    function View(): State
      reads this
    {
      State(rqs, onRq, onList, info)
    }

    ghost predicate TopOk()
      reads this
    {
      && (rtQueued <==> Rq(View(), tree.top).nr > 0 && !Rq(View(), tree.top).throttled)
      && nrRunning == if rtQueued then Rq(View(), tree.top).nr else 0
    }

    ghost predicate Valid()
      reads this
    {
      Inv(tree, View()) && TopOk()
    }

    predicate Throttled(q: Q)
      reads this
    {
      Rq(View(), q).throttled
    }

    constructor (tree: Tree)
      requires tree.Valid()
      ensures this.tree == tree && Valid() && onRq == {} && info == map[] && !warned
      ensures forall q :: !Throttled(q)
    {
      this.tree := tree;
      rqs := map q | q in tree.height :: EmptyRq();
      onRq, onList, info := {}, {}, map[];
      rtQueued, nrRunning, warned := false, 0, false;
      new;
      EmptyTotal(View(), EmptyRq().queue);
      forall q | q in tree.height
        ensures LocalOk(tree, View(), q)
      {
        assert Rq(View(), q) == EmptyRq();
      }
    }

    /** The entity leaves its list. */
    method DelistRtEntity(e: Ent)
      requires ArrayAt(View(), Home(tree, View(), e), Prio(View(), e))
      modifies this`rqs, this`onList
      ensures View() == Delist(tree, old(View()), e)
    {
      var q, i := Home(tree, View(), e), Prio(View(), e);
      var r := rqs[q];
      var list := Without(r.queue[i], e);
      r := r.(queue := r.queue[i := list]);
      if list == [] {
        r := r.(bitmap := r.bitmap[i := false]);
      }
      rqs := rqs[q := r];
      onList := onList - {e};
    }

    method DecRtTasks(e: Ent)
      requires Home(tree, View(), e) in rqs
      modifies this`rqs, this`warned
      ensures View() == DecTasks(tree, old(View()), e)
      ensures warned == (old(warned) || !Countable(old(View()), Home(tree, old(View()), e), e))
    {
      var q, i := Home(tree, View(), e), Prio(View(), e);
      var r := rqs[q];
      warned := warned || i >= MAX_RT_PRIO || r.nr == 0;
      r := r.(nr := r.nr - Nr(View(), e));
      if r.nr != 0 {
        warned := warned || i < r.highest;
        if i == r.highest {
          r := r.(highest := FirstBit(r.bitmap));
        }
      } else {
        r := r.(highest := MAX_RT_PRIO - 1);
      }
      rqs := rqs[q := r];
    }

    /** One entity leaves its array: the list, then the counts. */
    method DequeueAlone(e: Ent)
      requires ArrayAt(View(), Home(tree, View(), e), Prio(View(), e))
      modifies this`rqs, this`onRq, this`onList, this`warned
      ensures View() == DequeueOne(tree, old(View()), e)
      ensures warned == (old(warned) || e !in old(onList) || !Countable(old(View()), Home(tree, old(View()), e), e))
    {
      warned := warned || e !in onList;
      DelistRtEntity(e);
      onRq := onRq - {e};
      DecRtTasks(e);
    }

    method EnlistRtEntity(e: Ent, atHead: bool)
      requires ArrayAt(View(), Home(tree, View(), e), Prio(View(), e))
      modifies this`rqs, this`onList
      ensures View() == Enlist(tree, old(View()), e, atHead)
    {
      var q, i := Home(tree, View(), e), Prio(View(), e);
      var r := rqs[q];
      var list := if atHead then [e] + r.queue[i] else r.queue[i] + [e];
      rqs := rqs[q := r.(queue := r.queue[i := list], bitmap := r.bitmap[i := true])];
      onList := onList + {e};
    }

    method IncRtTasks(e: Ent)
      requires Home(tree, View(), e) in rqs
      modifies this`rqs, this`warned
      ensures View() == IncTasks(tree, old(View()), e) && warned == (old(warned) || Prio(old(View()), e) >= MAX_RT_PRIO)
    {
      var q, i := Home(tree, View(), e), Prio(View(), e);
      warned := warned || i >= MAX_RT_PRIO;
      var r := rqs[q];
      r := r.(nr := r.nr + Nr(View(), e));
      if i < r.highest {
        r := r.(highest := i);
      }
      rqs := rqs[q := r];
    }

    /** One entity joins its array, unless it is a throttled or empty group. */
    method EnqueueAlone(e: Ent, atHead: bool)
      requires ArrayAt(View(), Home(tree, View(), e), Prio(View(), e))
      modifies this`rqs, this`onRq, this`onList, this`warned
      ensures View() == EnqueueOne(tree, old(View()), e, atHead)
      ensures var bad := e in old(onList) || Prio(old(View()), e) >= MAX_RT_PRIO;
              warned == (old(warned) || (!Declined(old(View()), e) && bad))
    {
      if Declined(View(), e) {
        if e in onList {
          DelistRtEntity(e);
        }
        return;
      }
      warned := warned || e in onList;
      EnlistRtEntity(e, atHead);
      onRq := onRq + {e};
      IncRtTasks(e);
    }

    ghost predicate TopCounted()
      reads this
    {
      && (rtQueued ==> Rq(View(), tree.top).nr > 0)
      && nrRunning == if rtQueued then Rq(View(), tree.top).nr else 0
    }

    method DequeueTopRtRq(count: int)
      modifies this`rtQueued, this`nrRunning, this`warned
      ensures !rtQueued && nrRunning == old(nrRunning) - (if old(rtQueued) then count else 0)
      ensures warned == (old(warned) || (old(rtQueued) && old(nrRunning) == 0))
    {
      if !rtQueued {
        return;
      }
      warned := warned || nrRunning == 0;
      nrRunning := nrRunning - count;
      rtQueued := false;
    }

    method EnqueueTopRtRq()
      requires tree.top in rqs && rqs[tree.top].nr >= 0
      requires TopCounted() && (rtQueued ==> !rqs[tree.top].throttled)
      modifies this`rtQueued, this`nrRunning
      ensures TopOk()
    {
      if rtQueued {
        return;
      }
      if rqs[tree.top].throttled {
        return;
      }
      if rqs[tree.top].nr != 0 {
        nrRunning := nrRunning + rqs[tree.top].nr;
        rtQueued := true;
      }
    }

    /** The entity and its ancestors, linked upwards. */
    method Ancestors(e: Ent) returns (stack: seq<Ent>)
      requires tree.Valid() && Known(tree, View(), e)
      ensures Stacked(tree, View(), stack, e) && Home(tree, View(), stack[|stack| - 1]) == tree.top
    {
      KnownHome(tree, View(), e);
      var last := e;
      stack := [e];
      while Home(tree, View(), last) != tree.top
        invariant Stacked(tree, View(), stack, e) && stack[|stack| - 1] == last
        decreases tree.Below(Home(tree, View(), last))
      {
        last := Group(Home(tree, View(), last));
        stack := stack + [last];
      }
    }

    /** The entity and all its ancestors leave their arrays, from the top down. */
    method DequeueRtStack(e: Ent)
      requires InvBut(tree, View(), e) && TopCounted()
      modifies this`rqs, this`onRq, this`onList, this`rtQueued, this`nrRunning, this`warned
      ensures Home(tree, old(View()), e) in tree.height && View() == Unstack(tree, old(View()), e)
      ensures !rtQueued && nrRunning == 0 && warned == old(warned)
    {
      ghost var s0 := View();
      hide ArraysOk, DequeueOne, GroupOk, Countable;
      Basics(tree, s0);
      var stack := Ancestors(e);
      var count := rqs[tree.top].nr;
      var k := |stack|;
      while k > 0
        invariant 0 <= k <= |stack|
        invariant View() == if k == |stack| then s0 else Unstack(tree, s0, stack[k])
        invariant warned == old(warned)
        modifies this`rqs, this`onRq, this`onList, this`warned
      {
        k := k - 1;
        UnstackReady(tree, s0, stack[k]);
        if stack[k] in onRq {
          DequeueAlone(stack[k]);
        }
      }
      DequeueTopRtRq(count);
    }

    /** Enqueues the entity: its whole chain leaves and comes back, with the entity on it. */
    method EnqueueRtEntity(e: Ent, atHead: bool)
      requires InvBut(tree, View(), e) && TopCounted()
      modifies this`rqs, this`onRq, this`onList, this`rtQueued, this`nrRunning, this`warned
      ensures Valid() && warned == old(warned)
      ensures Home(tree, old(View()), e) in tree.height && Opened(tree, Unstack(tree, old(View()), e), e)
      ensures View() == Restack(tree, Unstack(tree, old(View()), e), e, atHead)
    {
      hide Opened, Unstack, EnqueueOne, Inv, InvBut;
      UnstackOpens(tree, View(), e);
      DequeueRtStack(e);
      ghost var s1 := View();
      OpenedBasics(tree, s1, e);
      var cur, more := e, true;
      while more
        invariant warned == old(warned)
        invariant more ==> Opened(tree, View(), cur) && Home(tree, View(), cur) in tree.height
        invariant more ==> Restack(tree, View(), cur, atHead) == Restack(tree, s1, e, atHead)
        invariant !more ==> Inv(tree, View()) && View() == Restack(tree, s1, e, atHead)
        modifies this`rqs, this`onRq, this`onList, this`warned
        decreases if more then 1 + tree.Below(Home(tree, View(), cur)) else 0
      {
        EnqueueReady(tree, View(), cur);
        OpenedStep(tree, View(), cur, atHead);
        OpenedBasics(tree, View(), cur);
        var q := Home(tree, View(), cur);
        EnqueueAlone(cur, atHead);
        if q == tree.top {
          more := false;
        } else {
          cur := Group(q);
        }
      }
      TopReady(tree, View());
      EnqueueTopRtRq();
    }

    /** Dequeues the entity: a task stays off, and so does a group that is empty or throttled. */
    method DequeueRtEntity(e: Ent, atHead: bool)
      requires InvBut(tree, View(), e) && TopCounted()
      modifies this`rqs, this`onRq, this`onList, this`rtQueued, this`nrRunning, this`warned
      ensures Valid() && warned == old(warned)
      ensures Home(tree, old(View()), e) in tree.height && Opened(tree, Unstack(tree, old(View()), e), e)
      ensures View() == Regroup(tree, Unstack(tree, old(View()), e), e, atHead)
    {
      hide Opened, Unstack, EnqueueOne, Inv, InvBut, Regroup;
      UnstackOpens(tree, View(), e);
      DequeueRtStack(e);
      ghost var s1 := View();
      OpenedBasics(tree, s1, e);
      var cur, more := e, true;
      while more
        invariant warned == old(warned)
        invariant more ==> Opened(tree, View(), cur) && Home(tree, View(), cur) in tree.height
        invariant more ==> Regroup(tree, View(), cur, atHead) == Regroup(tree, s1, e, atHead)
        invariant !more ==> View() == Regroup(tree, s1, e, atHead)
        modifies this`rqs, this`onRq, this`onList, this`warned
        decreases if more then 1 + tree.Below(Home(tree, View(), cur)) else 0
      {
        EnqueueReady(tree, View(), cur);
        RegroupStep(tree, View(), cur, atHead);
        OpenedBasics(tree, View(), cur);
        var q := Home(tree, View(), cur);
        if cur.Group? && rqs[cur.q].nr != 0 {
          EnqueueAlone(cur, atHead);
        } else if cur.Group? {
          DeclinedStays(tree, View(), cur, atHead);
        }
        if q == tree.top {
          more := false;
        } else {
          cur := Group(q);
        }
      }
      RegroupOk(tree, s1, e, atHead);
      TopReady(tree, View());
      EnqueueTopRtRq();
    }

    /** A task becomes runnable at a priority in a group: it joins the end (or the head) of its list
        and every group above follows. */
    method EnqueueTask(t: nat, q: Q, prio: nat, atHead: bool)
      requires Valid() && Task(t) !in onRq && q in tree.height && prio < MAX_RT_PRIO
      modifies this
      ensures Valid() && warned == old(warned)
      ensures info == old(info)[t := Info(q, prio)] && forall p :: Throttled(p) == old(Throttled(p))
      ensures forall x :: Task(x) in onRq <==> x == t || Task(x) in old(onRq)
      ensures Rq(View(), q).queue == Placed(old(Rq(View(), q).queue), prio, Task(t), atHead)
      ensures InOrder(tree, old(View()).(info := info), View(), Task(t), atHead)
    {
      hide Inv, InvBut, Opened, Unstack, Restack, Placed, ArraysOk, InOrder;
      ghost var s := View();
      UnlistedIffOff(tree, s);
      info := info[t := Info(q, prio)];
      ghost var s0 := View();
      InfoChange(tree, s, s0, t);
      EnqueueOrder(tree, s0, t, atHead);
      EnqueueEffect(tree, s0, Task(t), atHead);
      EnqueueMoves(tree, s0, Task(t), atHead);
      EnqueueRtEntity(Task(t), atHead);
    }

    /** A task stops being runnable. */
    method DequeueTask(t: nat, atHead: bool)
      requires Valid() && Task(t) in onRq
      modifies this`rqs, this`onRq, this`onList, this`rtQueued, this`nrRunning, this`warned
      ensures Valid() && warned == old(warned)
      ensures forall p :: Throttled(p) == old(Throttled(p))
      ensures forall x :: Task(x) in onRq <==> x != t && Task(x) in old(onRq)
      ensures t in info
      ensures Rq(View(), info[t].q).queue == Removed(old(Rq(View(), info[t].q).queue), info[t].prio, Task(t))
      ensures InOrder(tree, old(View()), View(), Task(t), atHead)
    {
      ghost var s := View();
      ListedTask(tree, s, t);
      DequeueEffect(tree, s, Task(t), atHead);
      DequeueMoves(tree, s, Task(t), atHead);
      DequeueOrder(tree, s, t, atHead);
      hide Inv, InvBut, Opened, Unstack, Regroup, Removed, InOrder;
      DequeueRtEntity(Task(t), atHead);
    }

    /** The group has used up its runtime. */
    method ThrottleRtRq(q: Q)
      requires Valid() && q in tree.height
      modifies this`rqs, this`onRq, this`onList, this`rtQueued, this`nrRunning, this`warned
      ensures Valid() && warned == old(warned)
      ensures forall p :: Throttled(p) == (p == q || old(Throttled(p)))
      ensures forall x :: Task(x) in onRq <==> Task(x) in old(onRq)
      ensures if Group(q) in old(onRq) then InOrder(tree, old(View()), View(), Group(q), false)
              else ListsUnchanged(old(View()), View())
    {
      hide Inv, InOrder, InvBut, Opened, Unstack, Regroup, ListsUnchanged;
      ghost var s := View();
      InvBasics(tree, s);
      rqs := rqs[q := rqs[q].(throttled := true)];
      FlagChange(tree, s, View(), q);
      if q == tree.top {
        DequeueTopRtRq(rqs[q].nr);
      } else if Group(q) in onRq {
        DequeueEffect(tree, View(), Group(q), false);
        DequeueMoves(tree, View(), Group(q), false);
        ghost var s1 := View();
        DequeueRtEntity(Group(q), false);
        OrderFrom(tree, s, s1, View(), Group(q), false);
      }
    }

    /** Everything is consistent but for one group that may have to be queued. */
    ghost predicate ValidBut(q: Q)
      reads this
    {
      && q in tree.height && TopCounted()
      && if q == tree.top then Inv(tree, View()) && (rtQueued ==> !Throttled(q))
         else
           && InvBut(tree, View(), Group(q)) && TopOk()
           && (Group(q) in onList ==> !Throttled(q) && Rq(View(), q).nr > 0)
    }

    /** Queue a group that is not throttled, if there is anything in it and it is not queued yet. */
    method SchedRtRqEnqueue(q: Q)
      requires ValidBut(q) && !Throttled(q)
      modifies this`rqs, this`onRq, this`onList, this`rtQueued, this`nrRunning, this`warned
      ensures Valid() && warned == old(warned)
      ensures forall p :: Throttled(p) == old(Throttled(p))
      ensures forall x :: Task(x) in onRq <==> Task(x) in old(onRq)
      ensures if q != tree.top && Group(q) !in old(onRq) && old(Rq(View(), q)).nr != 0
              then InOrder(tree, old(View()), View(), Group(q), false)
              else ListsUnchanged(old(View()), View())
    {
      hide ArraysOk;
      Basics(tree, View());
      CountNonNegative(tree, View(), q);
      CountNonNegative(tree, View(), tree.top);
      if rqs[q].nr != 0 {
        if q == tree.top {
          EnqueueTopRtRq();
        } else if Group(q) !in onRq {
          EnqueueEffect(tree, View(), Group(q), false);
          EnqueueMoves(tree, View(), Group(q), false);
          hide Inv, InvBut, Opened, Unstack, Restack, InOrder;
          EnqueueRtEntity(Group(q), false);
        }
      }
    }

    /** The group's runtime has been replenished. */
    method UnthrottleRtRq(q: Q)
      requires Valid() && q in tree.height
      modifies this`rqs, this`onRq, this`onList, this`rtQueued, this`nrRunning, this`warned
      ensures Valid() && warned == old(warned)
      ensures forall p :: Throttled(p) == (p != q && old(Throttled(p)))
      ensures forall x :: Task(x) in onRq <==> Task(x) in old(onRq)
      ensures if q != tree.top && old(Throttled(q)) && old(Rq(View(), q)).nr != 0
              then InOrder(tree, old(View()), View(), Group(q), false)
              else ListsUnchanged(old(View()), View())
    {
      hide Inv, InOrder;
      ghost var s := View();
      WhenQueued(tree, s, q);
      ClearThrottled(q);
      ghost var s1 := View();
      SchedRtRqEnqueue(q);
      if InOrder(tree, s1, View(), Group(q), false) {
        OrderFrom(tree, s, s1, View(), Group(q), false);
      }
    }

    /** A CPU comes online: the group's flag is cleared and nothing is queued. That keeps everything
        consistent if and only if the group was not throttled or had nothing in it; in any case
        queueing the group, as the period timer does, repairs it. */
    method ClearThrottled(q: Q)
      requires Valid() && q in tree.height
      modifies this`rqs
      ensures Valid() <==> !old(Throttled(q)) || Rq(View(), q).nr == 0
      ensures ValidBut(q) && Rq(View(), q) == old(Rq(View(), q)).(throttled := false)
      ensures forall p :: Throttled(p) == (p != q && old(Throttled(p)))
      ensures ListsUnchanged(old(View()), View())
    {
      hide ArraysOk;
      Basics(tree, View());
      ghost var s := View();
      CountNonNegative(tree, s, q);
      if q != tree.top {
        assert GroupOk(s, q);
      }
      rqs := rqs[q := rqs[q].(throttled := false)];
      FlagChange(tree, s, View(), q);
    }

    /** Follows the first set bit down from the top. Nothing is picked exactly when no runnable task
        is reachable through unthrottled groups, and otherwise the picked task is one of those of the
        smallest priority value; it and every group above it are at the heads of their lists. */
    method PickTask() returns (picked: Option<nat>)
      requires Valid()
      ensures picked.None? <==> forall t :: !Reachable(tree, View(), t)
      ensures picked.Some? ==>
        && Reachable(tree, View(), picked.value)
        && (forall t :: Reachable(tree, View(), t) ==> info[picked.value].prio <= info[t].prio)
        && ChainHeads(tree, View(), Task(picked.value))
    {
      ghost var s := View();
      hide Inv, LevelOk;
      TopReady(tree, s);
      forall t | Reachable(tree, s, t)
        ensures rtQueued && Rq(s, tree.top).highest <= s.info[t].prio
      {
        ReachableBound(tree, s, t);
      }
      if !rtQueued {
        return None;
      }
      var q := tree.top;
      var e := Descend(q);
      while e.Group?
        invariant q in tree.height && OpenUp(tree, s, q)
        invariant e in onList && Home(tree, s, e) == q && Prio(s, e) == Rq(s, tree.top).highest
        invariant ChainHeads(tree, s, e)
        decreases tree.height[q]
      {
        ListedGroup(tree, s, e.q);
        q := e.q;
        e := Descend(q);
      }
      ListedTask(tree, s, e.t);
      assert Reachable(tree, View(), e.t);
      return Some(e.t);
    }

    /** The first entity of the first non-empty list. */
    method Descend(q: Q) returns (e: Ent)
      requires Inv(tree, View()) && q in tree.height && Rq(View(), q).nr > 0
      ensures e in onList && Home(tree, View(), e) == q && Prio(View(), e) == Rq(View(), q).highest
      ensures AtChosenEnd(tree, View(), e, true)
    {
      FirstQueued(tree, View(), q);
      var r := rqs[q];
      var idx := FirstBit(r.bitmap);
      assert idx < MAX_RT_PRIO && r.queue[idx] != [];
      e := r.queue[idx][0];
    }
  }

  lemma ListedGroup(tree: Tree, s: State, q: Q)
    requires Inv(tree, s) && Group(q) in s.onList
    ensures q in tree.parent && q in tree.height && Rq(s, q).nr > 0 && !Rq(s, q).throttled
    ensures tree.height[q] < tree.height[tree.parent[q]]
  {
    assert ListedOk(tree, s, Group(q));
    assert GroupOk(s, q);
  }

  lemma UnlistedIffOff(tree: Tree, s: State)
    requires Inv(tree, s)
    ensures s.onRq == s.onList
  {
  }

  lemma ListedTask(tree: Tree, s: State, t: nat)
    requires Inv(tree, s) && Task(t) in s.onList
    ensures Task(t) in s.onRq && t in s.info && s.info[t].q in tree.height
  {
    assert ListedOk(tree, s, Task(t));
  }

  function Placed(queue: seq<seq<Ent>>, i: nat, e: Ent, atHead: bool): seq<seq<Ent>> {
    if i < |queue| then queue[i := if atHead then [e] + queue[i] else queue[i] + [e]] else queue
  }

  function Removed(queue: seq<seq<Ent>>, i: nat, e: Ent): seq<seq<Ent>> {
    if i < |queue| then queue[i := Without(queue[i], e)] else queue
  }

  /** Neither the throttled flags nor what is known of tasks that are off matter to the arrays. */
  lemma ArraysIgnore(tree: Tree, s: State, s': State)
    requires ArraysOk(tree, s) && s'.onRq == s.onRq && s'.onList == s.onList && s'.rqs.Keys == s.rqs.Keys
    requires forall q :: Rq(s', q).(throttled := false) == Rq(s, q).(throttled := false)
    requires forall t :: Task(t) in s.onList && t in s.info ==> t in s'.info && s'.info[t] == s.info[t]
    ensures ArraysOk(tree, s')
  {
    forall e | e in s.onList
      ensures ListedOk(tree, s', e) && Home(tree, s', e) == Home(tree, s, e) && Prio(s', e) == Prio(s, e)
    {
      assert ListedOk(tree, s, e);
      assert e.Group? ==> Rq(s', e.q).(throttled := false) == Rq(s, e.q).(throttled := false);
    }
    forall q | q in tree.height
      ensures LocalOk(tree, s', q)
    {
      assert Rq(s', q).(throttled := false) == Rq(s, q).(throttled := false);
      LocalIgnores(tree, s, s', q);
    }
  }

  lemma LocalIgnores(tree: Tree, s: State, s': State, q: Q)
    requires LocalOk(tree, s, q) && s'.onList == s.onList
    requires forall p :: Rq(s', p).(throttled := false) == Rq(s, p).(throttled := false)
    requires forall e :: e in s.onList ==> Home(tree, s', e) == Home(tree, s, e) && Prio(s', e) == Prio(s, e)
    ensures LocalOk(tree, s', q)
  {
    var r, r' := Rq(s, q), Rq(s', q);
    assert r'.(throttled := false) == r.(throttled := false);
    assert r'.queue == r.queue && r'.bitmap == r.bitmap && r'.nr == r.nr && r'.highest == r.highest;
    forall i | 0 <= i < MAX_RT_PRIO
      ensures LevelOk(tree, s', q, i)
    {
      assert LevelOk(tree, s, q, i);
    }
    forall x: Ent
      ensures Nr(s', x) == Nr(s, x)
    {
      assert x.Group? ==> Rq(s', x.q).(throttled := false) == Rq(s, x.q).(throttled := false);
    }
    TotalSame(s, s', r.queue);
  }

  lemma InfoChange(tree: Tree, s: State, s': State, t: nat)
    requires Inv(tree, s) && Task(t) !in s.onList && t in s'.info
    requires s' == s.(info := s.info[t := s'.info[t]]) && s'.info[t].q in tree.height && s'.info[t].prio < MAX_RT_PRIO
    ensures Inv(tree, s') && InvBut(tree, s', Task(t))
  {
    ArraysIgnore(tree, s, s');
    forall q | q in tree.parent
      ensures GroupOk(s', q)
    {
      assert GroupOk(s, q);
    }
  }

  lemma FlagChange(tree: Tree, s: State, s': State, q: Q)
    requires Inv(tree, s) && q in s.rqs && q in s'.rqs
    requires s' == SetRq(s, q, s.rqs[q].(throttled := s'.rqs[q].throttled))
    ensures if q == tree.top then Inv(tree, s') else InvBut(tree, s', Group(q))
    ensures q != tree.top && GroupOk(s', q) ==> Inv(tree, s')
    ensures ListsUnchanged(s, s')
  {
    hide LocalOk, ListedOk;
    ArraysIgnore(tree, s, s');
    forall p | p in tree.parent && p != q
      ensures GroupOk(s', p)
    {
      assert GroupOk(s, p);
    }
  }

  lemma UnstackedTasks(tree: Tree, s: State, e: Ent)
    requires InvBut(tree, s, e)
    ensures tree.Valid() && Home(tree, s, e) in tree.height
    ensures Opened(tree, Unstack(tree, s, e), e) && SameInputs(s, Unstack(tree, s, e))
    ensures forall t :: Task(t) in Unstack(tree, s, e).onList <==> Task(t) in s.onList && Task(t) != e
  {
    hide ArraysOk, Unstack;
    UnstackOpens(tree, s, e);
    Basics(tree, s);
    UnstackOk(tree, s, e);
    var q := Home(tree, s, e);
    forall t | Task(t) in Up(tree, q)
      ensures false
    {
      UpIsAbove(tree, q, Task(t));
    }
  }

  /** Enqueueing an entity changes which tasks are queued by that entity only. */
  lemma EnqueueEffect(tree: Tree, s: State, e: Ent, atHead: bool)
    requires InvBut(tree, s, e)
    ensures Home(tree, s, e) in tree.height && Opened(tree, Unstack(tree, s, e), e)
    ensures var s' := Restack(tree, Unstack(tree, s, e), e, atHead);
      && SameInputs(s, s') && s'.onRq == s'.onList
      && forall t :: Task(t) in s'.onList <==> Task(t) in s.onList || Task(t) == e
  {
    hide Unstack, Restack, Opened, InvBut, ArraysOk;
    UnstackedTasks(tree, s, e);
    var s1 := Unstack(tree, s, e);
    OpenedBasics(tree, s1, e);
    RestackOk(tree, s1, e, atHead);
    Basics(tree, Restack(tree, s1, e, atHead));
  }

  lemma DequeueEffect(tree: Tree, s: State, e: Ent, atHead: bool)
    requires InvBut(tree, s, e)
    ensures Home(tree, s, e) in tree.height && Opened(tree, Unstack(tree, s, e), e)
    ensures var s' := Regroup(tree, Unstack(tree, s, e), e, atHead);
      && SameInputs(s, s') && s'.onRq == s'.onList
      && forall t :: Task(t) in s'.onList <==> Task(t) in s.onList && Task(t) != e
  {
    hide Unstack, Regroup, Opened, InvBut, ArraysOk;
    UnstackedTasks(tree, s, e);
    var s1 := Unstack(tree, s, e);
    OpenedBasics(tree, s1, e);
    RegroupOk(tree, s1, e, atHead);
    Basics(tree, Regroup(tree, s1, e, atHead));
  }

  lemma EnqueueMoves(tree: Tree, s: State, e: Ent, atHead: bool)
    requires InvBut(tree, s, e)
    ensures Home(tree, s, e) in tree.height && Opened(tree, Unstack(tree, s, e), e)
    ensures InOrder(tree, s, Restack(tree, Unstack(tree, s, e), e, atHead), e, atHead)
  {
    hide Unstack, Restack, Opened, ArraysOk, OthersKept, AtChosenEnd;
    Basics(tree, s);
    UnstackOpens(tree, s, e);
    UnstackOk(tree, s, e);
    var s1, moved := Unstack(tree, s, e), Chain(tree, s, e);
    UnstackKeepsOthers(tree, s, e, moved);
    RestackInOrder(tree, s1, e, atHead, moved);
    OthersKeptTwice(s, s1, Restack(tree, s1, e, atHead), moved);
  }

  lemma DequeueMoves(tree: Tree, s: State, e: Ent, atHead: bool)
    requires InvBut(tree, s, e)
    ensures Home(tree, s, e) in tree.height && Opened(tree, Unstack(tree, s, e), e)
    ensures InOrder(tree, s, Regroup(tree, Unstack(tree, s, e), e, atHead), e, atHead)
  {
    hide Unstack, Restack, Opened, ArraysOk, OthersKept, AtChosenEnd, Known;
    Basics(tree, s);
    UnstackOpens(tree, s, e);
    DequeueEffect(tree, s, e, atHead);
    if e.Group? {
      EnqueueMoves(tree, s, e, atHead);
    } else {
      var q, s1, moved := Home(tree, s, e), Unstack(tree, s, e), Chain(tree, s, e);
      SameHome(tree, s, e);
      UnstackKeepsOthers(tree, s, e, moved);
      if q != tree.top {
        OpenedAbove(tree, s1, e);
        RestackInOrder(tree, s1, Group(q), atHead, moved);
        OthersKeptTwice(s, s1, Restack(tree, s1, Group(q), atHead), moved);
      }
    }
  }

  lemma SameHome(tree: Tree, s: State, e: Ent)
    requires ArraysOk(tree, s) && Known(tree, s, e) && Home(tree, s, e) in tree.height
    ensures tree.Valid() && Home(tree, Unstack(tree, s, e), e) == Home(tree, s, e)
  {
    hide ArraysOk, Unstack;
    Basics(tree, s);
    UnstackOk(tree, s, e);
  }

  lemma InvBasics(tree: Tree, s: State)
    requires Inv(tree, s)
    ensures tree.Valid() && s.rqs.Keys == tree.height.Keys && s.onRq == s.onList && Group(tree.top) !in s.onList
  {
    hide ArraysOk;
    Basics(tree, s);
    TopNotListed(tree, s);
  }

  lemma WhenQueued(tree: Tree, s: State, q: Q)
    requires Inv(tree, s) && q in tree.height
    ensures q != tree.top ==> (Group(q) in s.onRq <==> !Rq(s, q).throttled && Rq(s, q).nr != 0)
  {
    hide ArraysOk;
    Basics(tree, s);
    CountNonNegative(tree, s, q);
    if q != tree.top {
      assert GroupOk(s, q);
    }
  }

  /** The order is a matter of the lists alone. */
  lemma OrderFrom(tree: Tree, s: State, s1: State, s': State, e: Ent, atHead: bool)
    requires InOrder(tree, s1, s', e, atHead) && ListsUnchanged(s, s1) && s1.info == s.info
    ensures InOrder(tree, s, s', e, atHead)
  {
    var moved := Chain(tree, s, e);
    forall q
      ensures QueueKept(Rq(s, q), Rq(s', q), moved)
    {
      assert QueueKept(Rq(s1, q), Rq(s', q), moved);
    }
  }

  /** The chain above leaves the task's own array alone, so only the task moves in it. */
  lemma EnqueueOrder(tree: Tree, s: State, t: nat, atHead: bool)
    requires InvBut(tree, s, Task(t)) && Task(t) !in s.onList
    ensures Home(tree, s, Task(t)) in tree.height && Opened(tree, Unstack(tree, s, Task(t)), Task(t))
    ensures var s', q := Restack(tree, Unstack(tree, s, Task(t)), Task(t), atHead), Home(tree, s, Task(t));
      Rq(s', q).queue == Placed(Rq(s, q).queue, s.info[t].prio, Task(t), atHead)
  {
    hide ArraysOk, DequeueOne, Restack;
    var e := Task(t);
    Basics(tree, s);
    UnstackOpens(tree, s, e);
    var q, s1 := Home(tree, s, e), Unstack(tree, s, e);
    assert Rq(s1, q) == Rq(s, q) && s1.info == s.info by {
      UnstackLeavesHome(tree, s, t);
    }
    EnqueueReady(tree, s1, e);
    RestackFirst(tree, s1, e, atHead);
  }

  lemma DequeueOrder(tree: Tree, s: State, t: nat, atHead: bool)
    requires InvBut(tree, s, Task(t)) && Task(t) in s.onList
    ensures Home(tree, s, Task(t)) in tree.height && Opened(tree, Unstack(tree, s, Task(t)), Task(t))
    ensures var s', q := Regroup(tree, Unstack(tree, s, Task(t)), Task(t), atHead), Home(tree, s, Task(t));
      Rq(s', q).queue == Removed(Rq(s, q).queue, s.info[t].prio, Task(t))
  {
    hide ArraysOk, DequeueOne, Restack, Unstack, Opened, Without;
    var e := Task(t);
    Basics(tree, s);
    UnstackOpens(tree, s, e);
    var q, s1 := Home(tree, s, e), Unstack(tree, s, e);
    assert Rq(s1, q).queue == Removed(Rq(s, q).queue, s.info[t].prio, e) && s1.info == s.info by {
      UnstackLeavesHome(tree, s, t);
    }
    if q != tree.top {
      OpenedAbove(tree, s1, e);
      OpenedBasics(tree, s1, Group(q));
      RestackOk(tree, s1, Group(q), atHead);
      NotAboveItself(tree, s1, Group(q));
    }
  }

  lemma UnstackLeavesHome(tree: Tree, s: State, t: nat)
    requires ArraysOk(tree, s) && Known(tree, s, Task(t))
    ensures Home(tree, s, Task(t)) in tree.height
    ensures var s1, q := Unstack(tree, s, Task(t)), Home(tree, s, Task(t));
      && s1.info == s.info
      && if Task(t) in s.onList then Rq(s1, q).queue == Removed(Rq(s, q).queue, s.info[t].prio, Task(t))
         else Rq(s1, q) == Rq(s, q)
  {
    hide ArraysOk, DequeueOne;
    Basics(tree, s);
    var q := Home(tree, s, Task(t));
    if q != tree.top {
      UnstackOk(tree, s, Group(q));
      NotAboveItself(tree, s, Group(q));
    }
    var s0 := if q == tree.top then s else Unstack(tree, s, Group(q));
    Basics(tree, s0);
    if Task(t) in s.onList {
      assert q == tree.top || Task(t) !in Up(tree, q) by {
        NotAboveItself(tree, s, Task(t));
      }
      TopNotListed(tree, s0);
      DequeueShape(tree, s0, Task(t));
    }
  }

  lemma RestackFirst(tree: Tree, s: State, e: Ent, atHead: bool)
    requires Opened(tree, s, e) && e.Task?
    ensures Home(tree, s, e) in tree.height && tree.Valid()
    ensures var s', q := Restack(tree, s, e, atHead), Home(tree, s, e);
      Rq(s', q) == Rq(EnqueueOne(tree, s, e, atHead), q)
  {
    hide ArraysOk, EnqueueOne;
    Basics(tree, s);
    OpenedStep(tree, s, e, atHead);
    var q, s1 := Home(tree, s, e), EnqueueOne(tree, s, e, atHead);
    if q != tree.top {
      RestackOk(tree, s1, Group(q), atHead);
      NotAboveItself(tree, s1, Group(q));
    }
  }

  lemma OpenedBasics(tree: Tree, s: State, e: Ent)
    requires Opened(tree, s, e)
    ensures tree.Valid() && Home(tree, s, e) in tree.height && s.rqs.Keys == tree.height.Keys
    ensures Known(tree, s, e) && (e.Group? ==> e.q in tree.height)
  {
  }

  lemma CountNonNegative(tree: Tree, s: State, q: Q)
    requires ArraysOk(tree, s) && q in tree.height
    ensures q in s.rqs && Rq(s, q).nr >= 0
  {
    assert LocalOk(tree, s, q);
    CountedIffQueued(tree, s, q);
  }

  lemma TopReady(tree: Tree, s: State)
    requires Inv(tree, s)
    ensures tree.Valid() && tree.top in s.rqs && s.rqs[tree.top].nr >= 0
  {
    assert LocalOk(tree, s, tree.top);
    CountedIffQueued(tree, s, tree.top);
  }

  /** The entity followed by ancestors of it. */
  ghost predicate Stacked(tree: Tree, s: State, stack: seq<Ent>, e: Ent)
    requires tree.Valid()
  {
    && |stack| > 0 && stack[0] == e
    && (forall k :: 0 <= k < |stack| ==> Known(tree, s, stack[k]) && Home(tree, s, stack[k]) in tree.height)
    && (forall k :: 0 <= k < |stack| - 1 ==>
          Home(tree, s, stack[k]) != tree.top && stack[k + 1] == Group(Home(tree, s, stack[k])))
  }

  /** Where the entity's turn to leave comes, it can leave without a warning. */
  lemma UnstackReady(tree: Tree, s: State, e: Ent)
    requires ArraysOk(tree, s) && Known(tree, s, e) && Home(tree, s, e) in tree.height
    ensures var q := Home(tree, s, e);
      var s1 := if q == tree.top then s else Unstack(tree, s, Group(q));
      && Home(tree, s1, e) == q && s1.onRq == s1.onList
      && (e in s1.onRq ==> ArrayAt(s1, q, Prio(s1, e)) && Countable(s1, q, e))
  {
    hide ArraysOk, DequeueOne, Unstack;
    Basics(tree, s);
    var q := Home(tree, s, e);
    var s1 := if q == tree.top then s else Unstack(tree, s, Group(q));
    if q != tree.top {
      UnstackOk(tree, s, Group(q));
    }
    Basics(tree, s1);
    TopNotListed(tree, s1);
    if e in s1.onRq {
      DequeueReady(tree, s1, e);
    }
  }

  /** The entity can be uncounted without a warning. */
  predicate Countable(s: State, q: Q, e: Ent) {
    && Prio(s, e) < MAX_RT_PRIO && Rq(s, q).nr != 0
    && (Rq(s, q).nr != Nr(s, e) ==> Rq(s, q).highest <= Prio(s, e))
  }

  lemma DequeueReady(tree: Tree, s: State, e: Ent)
    requires ArraysOk(tree, s) && e in s.onList && Detached(tree, s, Home(tree, s, e))
    ensures ArrayAt(s, Home(tree, s, e), Prio(s, e)) && Countable(s, Home(tree, s, e), e)
  {
    DequeueOneOk(tree, s, e);
    assert LocalOk(tree, s, Home(tree, s, e));
  }

  lemma EnqueueReady(tree: Tree, s: State, e: Ent)
    requires Opened(tree, s, e)
    ensures e !in s.onList && ArrayAt(s, Home(tree, s, e), Prio(s, e)) && Prio(s, e) < MAX_RT_PRIO
  {
    assert LocalOk(tree, s, Home(tree, s, e));
    if e.Group? {
      assert LocalOk(tree, s, e.q);
    }
  }
}
