/** The deadline-ordered timeline of a fair runqueue, augmented in every node with the smallest
    virtual runtime and the smallest slice of its subtree.

    The red-black balancing lives outside the scheduler: every statement about a timeline holds
    for any search tree with the right augmentation, whatever its shape. */
module EevdfTree {
  import opened Common
  import opened VirtualTime

  datatype Tree =
    | Leaf
    | Node(left: Tree, se: Entity, minVruntime: int, minSlice: nat, right: Tree)

  /** The entities in tree order. */
  function InOrder(t: Tree): seq<Entity> {
    match t
    case Leaf => []
    case Node(l, se, _, _, r) => InOrder(l) + [se] + InOrder(r)
  }

  function MinVruntimeWith(v: int, t: Tree): int {
    if t.Node? && v > t.minVruntime then t.minVruntime else v
  }

  function MinSliceWith(s: nat, t: Tree): nat {
    if t.Node? && t.minSlice < s then t.minSlice else s
  }

  /** Recompute the augmentation of one node from its own entity and its two children. */
  function MinUpdate(l: Tree, se: Entity, r: Tree): Tree {
    Node(l, se,
         MinVruntimeWith(MinVruntimeWith(se.vruntime, r), l),
         MinSliceWith(MinSliceWith(se.slice, r), l), r)
  }

  /** Every node carries what `MinUpdate` would compute for it. */
  predicate Augmented(t: Tree) {
    t.Leaf? || (Augmented(t.left) && Augmented(t.right) && t == MinUpdate(t.left, t.se, t.right))
  }

  predicate DeadlineSorted(es: seq<Entity>) {
    forall i, j :: 0 <= i < j < |es| ==> es[i].deadline <= es[j].deadline
  }

  predicate WellFormed(t: Tree) {
    Augmented(t) && DeadlineSorted(InOrder(t))
  }

  /** The heap side of the timeline: the cached value bounds every virtual runtime of the subtree
      from below and one of its entities attains it; the same for slices. */
  lemma AugmentationIsMinimum(t: Tree) returns (i: nat, k: nat)
    requires t.Node? && Augmented(t)
    ensures i < |InOrder(t)| && InOrder(t)[i].vruntime == t.minVruntime
    ensures k < |InOrder(t)| && InOrder(t)[k].slice == t.minSlice
    ensures forall j :: 0 <= j < |InOrder(t)| ==> t.minVruntime <= InOrder(t)[j].vruntime
    ensures forall j :: 0 <= j < |InOrder(t)| ==> t.minSlice <= InOrder(t)[j].slice
  {
    i := MinVruntimeIsMinimum(t);
    k := MinSliceIsMinimum(t);
  }

  lemma {:induction false} MinVruntimeIsMinimum(t: Tree) returns (i: nat)
    requires t.Node? && Augmented(t)
    ensures i < |InOrder(t)| && InOrder(t)[i].vruntime == t.minVruntime
    ensures forall j :: 0 <= j < |InOrder(t)| ==> t.minVruntime <= InOrder(t)[j].vruntime
  {
    var n := |InOrder(t.left)|;
    i := n;
    if t.right.Node? {
      var i' := MinVruntimeIsMinimum(t.right);
      if t.right.minVruntime < t.se.vruntime { i := n + 1 + i'; }
    }
    if t.left.Node? {
      var i' := MinVruntimeIsMinimum(t.left);
      if t.left.minVruntime < MinVruntimeWith(t.se.vruntime, t.right) { i := i'; }
    }
  }

  lemma {:induction false} MinSliceIsMinimum(t: Tree) returns (k: nat)
    requires t.Node? && Augmented(t)
    ensures k < |InOrder(t)| && InOrder(t)[k].slice == t.minSlice
    ensures forall j :: 0 <= j < |InOrder(t)| ==> t.minSlice <= InOrder(t)[j].slice
  {
    var n := |InOrder(t.left)|;
    k := n;
    if t.right.Node? {
      var k' := MinSliceIsMinimum(t.right);
      if t.right.minSlice < t.se.slice { k := n + 1 + k'; }
    }
    if t.left.Node? {
      var k' := MinSliceIsMinimum(t.left);
      if t.left.minSlice < MinSliceWith(t.se.slice, t.right) { k := k'; }
    }
  }

  // ---------- insertion ----------

  /** Descend left past strictly later deadlines only, then refresh the path. */
  function Insert(t: Tree, se: Entity): Tree {
    match t
    case Leaf => MinUpdate(Leaf, se, Leaf)
    case Node(l, x, _, _, r) =>
      if se.deadline < x.deadline then MinUpdate(Insert(l, se), x, r) else MinUpdate(l, x, Insert(r, se))
  }

  lemma RegroupLeft(a: seq<Entity>, m: seq<Entity>, b: seq<Entity>, c: seq<Entity>)
    ensures (a + m + b) + c == a + m + (b + c)
    ensures (a + b) + c == a + (b + c)
  {
  }

  /** Subtrees of a sorted tree are sorted and separated by the root's deadline. */
  lemma SubtreesSorted(t: Tree)
    requires t.Node? && DeadlineSorted(InOrder(t))
    ensures DeadlineSorted(InOrder(t.left)) && DeadlineSorted(InOrder(t.right))
    ensures forall e :: e in InOrder(t.left) ==> e.deadline <= t.se.deadline
    ensures forall e :: e in InOrder(t.right) ==> t.se.deadline <= e.deadline
  {
    SplitSorted(InOrder(t.left), t.se, InOrder(t.right));
  }

  lemma SplitSorted(l: seq<Entity>, x: Entity, r: seq<Entity>)
    requires DeadlineSorted(l + [x] + r)
    ensures DeadlineSorted(l) && DeadlineSorted(r)
    ensures forall e :: e in l ==> e.deadline <= x.deadline
    ensures forall e :: e in r ==> x.deadline <= e.deadline
  {
    var s := l + [x] + r;
    var n := |l|;
    forall i, j | 0 <= i < j < |l|
      ensures l[i].deadline <= l[j].deadline
    {
      assert s[i] == l[i] && s[j] == l[j];
    }
    forall i, j | 0 <= i < j < |r|
      ensures r[i].deadline <= r[j].deadline
    {
      assert s[n + 1 + i] == r[i] && s[n + 1 + j] == r[j];
    }
    forall i | 0 <= i < |l|
      ensures l[i].deadline <= x.deadline
    {
      assert s[i] == l[i] && s[n] == x;
    }
    forall i | 0 <= i < |r|
      ensures x.deadline <= r[i].deadline
    {
      assert s[n] == x && s[n + 1 + i] == r[i];
    }
  }

  lemma {:induction false} InsertPosition(t: Tree, se: Entity) returns (a: seq<Entity>, b: seq<Entity>)
    requires DeadlineSorted(InOrder(t))
    ensures InOrder(t) == a + b && InOrder(Insert(t, se)) == a + [se] + b
    ensures forall e :: e in a ==> e.deadline <= se.deadline
    ensures forall e :: e in b ==> se.deadline < e.deadline
  {
    match t
    case Leaf =>
      a, b := [], [];
    case Node(l, x, _, _, r) =>
      SubtreesSorted(t);
      var tail := [x] + InOrder(r);
      var head := InOrder(l) + [x];
      if se.deadline < x.deadline {
        var a', b' := InsertPosition(l, se);
        a, b := a', b' + tail;
        RegroupLeft(a', [se], b', tail);
        RegroupLeft(InOrder(l), [], [x], InOrder(r));
        RegroupLeft(InOrder(Insert(l, se)), [], [x], InOrder(r));
      } else {
        var a', b' := InsertPosition(r, se);
        a, b := head + a', b';
        RegroupLeft(head, a', [se], b');
        RegroupLeft(head, [], a', b');
        RegroupLeft(head, [], a' + [se], b');
        RegroupLeft(head, [], a', [se]);
      }
  }

  /** Insertion puts the entity after every entity with a deadline no later than its own, keeps
      everything else in place and leaves a well-formed timeline. */
  lemma InsertSpec(t: Tree, se: Entity) returns (a: seq<Entity>, b: seq<Entity>)
    requires WellFormed(t)
    ensures InOrder(t) == a + b && InOrder(Insert(t, se)) == a + [se] + b
    ensures forall e :: e in a ==> e.deadline <= se.deadline
    ensures forall e :: e in b ==> se.deadline < e.deadline
    ensures WellFormed(Insert(t, se))
  {
    a, b := InsertPosition(t, se);
    InsertKeepsSorted(a, se, b);
    InsertKeepsAugmented(t, se);
  }

  lemma InsertKeepsSorted(a: seq<Entity>, se: Entity, b: seq<Entity>)
    requires DeadlineSorted(a + b)
    requires forall e :: e in a ==> e.deadline <= se.deadline
    requires forall e :: e in b ==> se.deadline < e.deadline
    ensures DeadlineSorted(a + [se] + b)
  {
    var s := a + [se] + b;
    forall i, j | 0 <= i < j < |s|
      ensures s[i].deadline <= s[j].deadline
    {
      var i', j' := (if i <= |a| then i else i - 1), (if j <= |a| then j else j - 1);
      if i == |a| {
        assert s[j] in b;
      } else if j == |a| {
        assert s[i] in a;
      } else {
        assert s[i] == (a + b)[i'] && s[j] == (a + b)[j'];
      }
    }
  }

  lemma {:induction false} InsertKeepsAugmented(t: Tree, se: Entity)
    requires Augmented(t)
    ensures Augmented(Insert(t, se))
  {
    if t.Node? {
      InsertKeepsAugmented(t.left, se);
      InsertKeepsAugmented(t.right, se);
    }
  }

  // ---------- removal ----------

  function First(t: Tree): Entity
    requires t.Node?
  {
    if t.left.Leaf? then t.se else First(t.left)
  }

  function DropFirst(t: Tree): Tree
    requires t.Node?
  {
    if t.left.Leaf? then t.right else MinUpdate(DropFirst(t.left), t.se, t.right)
  }

  function Join(l: Tree, r: Tree): Tree {
    if r.Leaf? then l else MinUpdate(l, First(r), DropFirst(r))
  }

  /** Unlink one entity and refresh the path above it. */
  function Erase(t: Tree, se: Entity): Tree
    requires se in InOrder(t)
  {
    if se in InOrder(t.left) then MinUpdate(Erase(t.left, se), t.se, t.right)
    else if se == t.se then Join(t.left, t.right)
    else MinUpdate(t.left, t.se, Erase(t.right, se))
  }

  lemma {:induction false} FirstSpec(t: Tree)
    requires t.Node?
    ensures InOrder(t) == [First(t)] + InOrder(DropFirst(t))
    ensures Augmented(t) ==> Augmented(DropFirst(t))
  {
    if t.left.Node? {
      FirstSpec(t.left);
    }
  }

  /** Removal takes out exactly one occurrence of the entity and leaves a well-formed timeline. */
  lemma {:induction false} EraseSpec(t: Tree, se: Entity) returns (a: seq<Entity>, b: seq<Entity>)
    requires se in InOrder(t) && WellFormed(t)
    ensures InOrder(t) == a + [se] + b && InOrder(Erase(t, se)) == a + b
    ensures WellFormed(Erase(t, se))
  {
    a, b := ErasePosition(t, se);
    EraseKeepsAugmented(t, se);
    var s, s' := InOrder(t), InOrder(Erase(t, se));
    forall i, j | 0 <= i < j < |s'|
      ensures s'[i].deadline <= s'[j].deadline
    {
      var i', j' := (if i < |a| then i else i + 1), (if j < |a| then j else j + 1);
      assert s'[i] == s[i'] && s'[j] == s[j'];
    }
  }

  lemma {:induction false} ErasePosition(t: Tree, se: Entity) returns (a: seq<Entity>, b: seq<Entity>)
    requires se in InOrder(t)
    ensures InOrder(t) == a + [se] + b && InOrder(Erase(t, se)) == a + b
  {
    var l, x, r := InOrder(t.left), [t.se], InOrder(t.right);
    if se in l {
      var a', b' := ErasePosition(t.left, se);
      a, b := a', b' + (x + r);
      RegroupLeft(a', [se], b', x + r);
      RegroupLeft(l, [], x, r);
      RegroupLeft(a' + b', [], x, r);
    } else if se == t.se {
      a, b := l, r;
      if t.right.Node? {
        FirstSpec(t.right);
        RegroupLeft(l, [], [First(t.right)], InOrder(DropFirst(t.right)));
      }
    } else {
      var a', b' := ErasePosition(t.right, se);
      a, b := (l + x) + a', b';
      RegroupLeft(l + x, a', [se], b');
      RegroupLeft(l + x, [], a', b');
      RegroupLeft(l + x, [], a' + [se], b');
      RegroupLeft(l + x, [], a', [se]);
    }
  }

  lemma {:induction false} EraseKeepsAugmented(t: Tree, se: Entity)
    requires se in InOrder(t) && Augmented(t)
    ensures Augmented(Erase(t, se))
  {
    if se in InOrder(t.left) {
      EraseKeepsAugmented(t.left, se);
    } else if se == t.se {
      if t.right.Node? {
        FirstSpec(t.right);
      }
    } else {
      EraseKeepsAugmented(t.right, se);
    }
  }

  // ---------- picking ----------

  /** The reference: look at every entity once and keep the eligible one with the earliest
      deadline, the first such one on a tie. `all` are the entities that define the average. */
  ghost function Scan(es: seq<Entity>, all: seq<Entity>, shift: nat): Option<Entity> {
    if es == [] then None
    else
      var best, e := Scan(es[..|es| - 1], all, shift), es[|es| - 1];
      if Eligible(all, shift, e.vruntime) && (best.None? || e.deadline < best.value.deadline)
      then Some(e) else best
  }

  /** What the scan means: an eligible entity no other eligible entity beats, and nothing only
      when nothing is eligible. */
  lemma {:induction false} ScanIsEarliestEligible(es: seq<Entity>, all: seq<Entity>, shift: nat)
    ensures Scan(es, all, shift).Some? ==>
              var b := Scan(es, all, shift).value;
              && b in es && Eligible(all, shift, b.vruntime)
              && forall e :: e in es && Eligible(all, shift, e.vruntime) ==> b.deadline <= e.deadline
    ensures Scan(es, all, shift).None? ==>
              forall e :: e in es ==> !Eligible(all, shift, e.vruntime)
  {
    if es != [] {
      var front, last := es[..|es| - 1], es[|es| - 1];
      ScanIsEarliestEligible(front, all, shift);
      assert es == front + [last];
      assert forall e :: e in es <==> e in front || e == last;
    }
  }

  lemma {:induction false} ScanOfConcat(a: seq<Entity>, b: seq<Entity>, all: seq<Entity>, shift: nat)
    requires forall e :: e in a ==> !Eligible(all, shift, e.vruntime)
    ensures Scan(a + b, all, shift) == Scan(b, all, shift)
  {
    if b == [] {
      assert a + b == a;
      ScanIsEarliestEligible(a, all, shift);
    } else {
      assert (a + b)[..|a + b| - 1] == a + b[..|b| - 1];
      ScanOfConcat(a, b[..|b| - 1], all, shift);
    }
  }

  /** Once the scan of a prefix found an entity, later deadlines cannot replace it. */
  lemma {:induction false} ScanKeepsEarlier(a: seq<Entity>, b: seq<Entity>, all: seq<Entity>, shift: nat)
    requires DeadlineSorted(a + b) && Scan(a, all, shift).Some?
    ensures Scan(a + b, all, shift) == Scan(a, all, shift)
  {
    if b == [] {
      assert a + b == a;
    } else {
      var front := b[..|b| - 1];
      assert (a + b)[..|a + b| - 1] == a + front;
      assert forall i :: 0 <= i < |a + front| ==> (a + front)[i] == (a + b)[i];
      ScanKeepsEarlier(a, front, all, shift);
      ScanIsEarliestEligible(a, all, shift);
      var best := Scan(a, all, shift).value;
      var i :| 0 <= i < |a| && a[i] == best;
      assert (a + b)[i] == best && (a + b)[|a + b| - 1] == b[|b| - 1];
    }
  }

  /** Pruning is exact: the subtree minimum is eligible if and only if some entity below is. */
  lemma PruneTestIsExact(t: Tree, all: seq<Entity>, shift: nat)
    requires t.Node? && Augmented(t)
    ensures Eligible(all, shift, t.minVruntime)
       <==> exists e :: e in InOrder(t) && Eligible(all, shift, e.vruntime)
  {
    var i, _ := AugmentationIsMinimum(t);
    if Eligible(all, shift, t.minVruntime) {
      assert InOrder(t)[i] in InOrder(t);
    }
    forall e | e in InOrder(t) && Eligible(all, shift, e.vruntime)
      ensures Eligible(all, shift, t.minVruntime)
    {
      EligibleDownward(all, shift, t.minVruntime, e.vruntime);
    }
  }

  /** One step of the descent keeps the answer: the scan of a subtree is the scan of its left
      child, of its root, or of its right child. */
  lemma DescendStep(t: Tree, all: seq<Entity>, shift: nat)
    requires t.Node? && WellFormed(t)
    ensures WellFormed(t.left) && WellFormed(t.right)
    ensures t.left.Node? && Eligible(all, shift, t.left.minVruntime)
        ==> Scan(InOrder(t), all, shift) == Scan(InOrder(t.left), all, shift)
    ensures !(t.left.Node? && Eligible(all, shift, t.left.minVruntime)) ==>
              Scan(InOrder(t), all, shift)
              == if Eligible(all, shift, t.se.vruntime) then Some(t.se) else Scan(InOrder(t.right), all, shift)
  {
    var l, r := InOrder(t.left), InOrder(t.right);
    SubtreesSorted(t);
    RegroupLeft(l, [], [t.se], r);
    if t.left.Node? {
      PruneTestIsExact(t.left, all, shift);
    }
    if t.left.Node? && Eligible(all, shift, t.left.minVruntime) {
      ScanIsEarliestEligible(l, all, shift);
      ScanKeepsEarlier(l, [t.se] + r, all, shift);
    } else {
      ScanOfConcat(l, [t.se] + r, all, shift);
      ScanFromRoot(t.se, r, all, shift);
    }
  }

  lemma ScanFromRoot(e: Entity, r: seq<Entity>, all: seq<Entity>, shift: nat)
    requires DeadlineSorted(r) && forall x :: x in r ==> e.deadline <= x.deadline
    ensures Scan([e] + r, all, shift)
         == if Eligible(all, shift, e.vruntime) then Some(e) else Scan(r, all, shift)
  {
    var one := [e];
    assert one[..0] == [];
    if Eligible(all, shift, e.vruntime) {
      ScanKeepsEarlier(one, r, all, shift);
    } else {
      ScanOfConcat(one, r, all, shift);
    }
  }
}
