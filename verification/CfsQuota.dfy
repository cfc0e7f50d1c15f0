/** Checking a proposed bandwidth limit against the whole task-group tree.

    The check walks the tree from its root and records in every group the tightest limit that
    applies to it. Limits are the normalised quota-to-period ratios. */
module CfsQuota {
  import opened TaskGroups

  datatype Quota = Inf | Fin(q: nat)

  /** The limits in force, with the one being proposed for `tg`. */
  datatype Proposal = Proposal(own: map<Gid, Quota>, tg: Gid, quota: Quota)

  type Hierarchical = map<Gid, Quota>

  const EINVAL: int := 22

  function Get(m: map<Gid, Quota>, g: Gid): Quota {
    if g in m then m[g] else Inf
  }

  function NormalizedQuota(d: Proposal, g: Gid): Quota {
    if g == d.tg then d.quota else Get(d.own, g)
  }

  function Tighter(a: Quota, b: Quota): Quota {
    if a.Inf? then b else if b.Inf? || a.q <= b.q then a else b
  }

  /** The visitor: on the unified hierarchy a child takes the tighter of its own and its parent's
      limit; on the legacy one it inherits only when it has none, and must not exceed it. */
  function SchedulableDown(h: Hierarchy, d: Proposal, unified: bool, m: Hierarchical, g: Gid): (Hierarchical, int) {
    if g !in h.parent then (m[g := Inf], 0)
    else
      var quota, parentQuota := NormalizedQuota(d, g), Get(m, h.parent[g]);
      if quota.Inf? then (m[g := parentQuota], 0)
      else if parentQuota.Inf? then (m[g := quota], 0)
      else if unified then (m[g := if quota.q <= parentQuota.q then quota else parentQuota], 0)
      else if quota.q > parentQuota.q then (m, -EINVAL)
      else (m[g := quota], 0)
  }

  function Visitor(h: Hierarchy, d: Proposal, unified: bool): (Hierarchical, Gid) -> (Hierarchical, int) {
    (m, g) => SchedulableDown(h, d, unified, m, g)
  }

  function Nop(m: Hierarchical, g: Gid): (Hierarchical, int) {
    (m, 0)
  }

  // ---------- what the walk should compute ----------

  /** The limit a group would have: the proposal put among those in force. */
  function Limit(d: Proposal, g: Gid): Quota {
    Get(d.own[d.tg := d.quota], g)
  }

  lemma NormalizedIsLimit(d: Proposal, g: Gid)
    ensures NormalizedQuota(d, g) == Limit(d, g)
  {
  }

  /** The tightest limit on the way from the root, which itself has none. */
  function PathMin(h: Hierarchy, d: Proposal, g: Gid): Quota
    requires h.Valid() && g in h.children
    decreases h.level[g]
  {
    if g !in h.parent then Inf else Tighter(Limit(d, g), PathMin(h, d, h.parent[g]))
  }

  /** `r` is the minimum of the finite limits on the path from `g` to the root, or infinite if
      there is none. */
  ghost predicate IsPathMinimum(h: Hierarchy, d: Proposal, g: Gid, r: Quota)
    requires h.Valid() && g in h.children
  {
    && (forall a :: a in h.parent && h.Under(a, g) && Limit(d, a).Fin? ==> r.Fin? && r.q <= Limit(d, a).q)
    && (r.Fin? ==> exists a :: a in h.parent && h.Under(a, g) && Limit(d, a) == r)
  }

  lemma {:induction false} PathMinIsMinimum(h: Hierarchy, d: Proposal, g: Gid)
    requires h.Valid() && g in h.children
    ensures IsPathMinimum(h, d, g, PathMin(h, d, g))
    decreases h.level[g]
  {
    if g in h.parent {
      var p := h.parent[g];
      PathMinIsMinimum(h, d, p);
      forall a | a in h.parent
        ensures h.Under(a, g) <==> a == g || h.Under(a, p)
      {
      }
    }
  }

  /** A limit respects every limit above it. */
  predicate Respects(h: Hierarchy, d: Proposal, g: Gid)
    requires h.Valid() && g in h.children
  {
    g in h.parent && Limit(d, g).Fin? && PathMin(h, d, h.parent[g]).Fin? ==>
      Limit(d, g).q <= PathMin(h, d, h.parent[g]).q
  }

  /** The same, one limit above at a time. */
  ghost predicate ExceedsNone(h: Hierarchy, d: Proposal, g: Gid)
    requires h.Valid() && g in h.children
  {
    forall a :: a in h.parent && h.Under(a, g) && a != g && g in h.parent && Limit(d, g).Fin? && Limit(d, a).Fin? ==>
      Limit(d, g).q <= Limit(d, a).q
  }

  lemma RespectsIsExceedsNone(h: Hierarchy, d: Proposal, g: Gid)
    requires h.Valid() && g in h.children
    ensures Respects(h, d, g) <==> ExceedsNone(h, d, g)
  {
    if g in h.parent {
      var p := h.parent[g];
      PathMinIsMinimum(h, d, p);
      forall a | a in h.parent
        ensures h.Under(a, g) && a != g <==> h.Under(a, p)
      {
        if h.Under(a, p) {
          UnderIsDeeper(h, a, p);
        }
      }
    }
  }

  // ---------- the walk computes it ----------

  lemma {:induction false} FoldConcat<S>(down: (S, Gid) -> (S, int), up: (S, Gid) -> (S, int), s: S,
                                         a: seq<Event>, b: seq<Event>)
    ensures Fold(down, up, s, a + b)
         == if Fold(down, up, s, a).1 != 0 then Fold(down, up, s, a) else Fold(down, up, Fold(down, up, s, a).0, b)
    decreases |a|
  {
    if a == [] {
      assert a + b == b;
    } else {
      var result := if a[0].Down? then down(s, a[0].g) else up(s, a[0].g);
      assert (a + b)[0] == a[0] && (a + b)[1..] == a[1..] + b;
      FoldConcat(down, up, result.0, a[1..], b);
    }
  }

  function Result(h: Hierarchy, d: Proposal, unified: bool, m: Hierarchical, tr: seq<Event>): (Hierarchical, int) {
    Fold(Visitor(h, d, unified), Nop, m, tr)
  }

  ghost function Subtree(h: Hierarchy, g: Gid): set<Gid>
    requires h.Valid()
  {
    set x | x in h.children && h.Under(g, x)
  }

  ghost function ChildSubtrees(h: Hierarchy, g: Gid, i: nat): set<Gid>
    requires h.Valid() && g in h.children
  {
    set x | x in h.children && UnderSomeChild(h, g, i, x)
  }

  /** What folding over part of the tree does: it fills in the groups in `part` and no others,
      and it fails exactly when one of them exceeds what it inherits on the legacy hierarchy. */
  ghost predicate Fills(h: Hierarchy, d: Proposal, unified: bool, m: Hierarchical,
                        part: set<Gid>, r: (Hierarchical, int))
    requires h.Valid()
  {
    && (r.1 == 0 <==> unified || forall x :: x in part && x in h.children ==> Respects(h, d, x))
    && (r.1 == 0 ==>
          && (forall x :: x in part && x in h.children ==> x in r.0 && r.0[x] == PathMin(h, d, x))
          && (forall x :: x !in part ==> (x in r.0 <==> x in m) && Get(r.0, x) == Get(m, x)))
  }

  /** Filling one part and, if that succeeded, a disjoint one fills both. */
  lemma FillsCompose(h: Hierarchy, d: Proposal, unified: bool, m: Hierarchical,
                     a: set<Gid>, r1: (Hierarchical, int), b: set<Gid>, r2: (Hierarchical, int))
    requires h.Valid() && a !! b && Fills(h, d, unified, m, a, r1)
    requires r1.1 == 0 ==> Fills(h, d, unified, r1.0, b, r2)
    ensures Fills(h, d, unified, m, a + b, if r1.1 != 0 then r1 else r2)
  {
    hide Respects, PathMin;
  }

  lemma {:induction false} TraceFills(h: Hierarchy, d: Proposal, unified: bool, m: Hierarchical, g: Gid)
    requires h.Valid() && g in h.children
    requires g in h.parent ==> Get(m, h.parent[g]) == PathMin(h, d, h.parent[g])
    ensures Fills(h, d, unified, m, Subtree(h, g), Result(h, d, unified, m, Trace(h, g)))
    decreases h.height - h.level[g], |h.children[g]| + 1
  {
    hide SchedulableDown, Respects;
    var r1 := SchedulableDown(h, d, unified, m, g);
    OwnGroupFills(h, d, unified, m, g);
    if r1.1 == 0 {
      assert g in {g};
      ChildrenFill(h, d, unified, r1.0, g, 0);
    }
    SubtreeSplit(h, g);
    FillsCompose(h, d, unified, m, {g}, r1, ChildSubtrees(h, g, 0), Result(h, d, unified, r1.0, TraceFrom(h, g, 0)));
    TraceResult(h, d, unified, m, g);
  }

  /** Folding over a group's trace: the group itself, then its children. */
  lemma TraceResult(h: Hierarchy, d: Proposal, unified: bool, m: Hierarchical, g: Gid)
    requires h.Valid() && g in h.children
    ensures var r1 := SchedulableDown(h, d, unified, m, g);
            Result(h, d, unified, m, Trace(h, g))
            == if r1.1 != 0 then r1 else Result(h, d, unified, r1.0, TraceFrom(h, g, 0))
  {
    hide SchedulableDown, TraceFrom, Hierarchy.Valid;
    var tr := TraceFrom(h, g, 0);
    assert Trace(h, g) == [Down(g)] + (tr + [Up(g)]);
    FoldGroup(Visitor(h, d, unified), m, g, tr);
    hide Fold, Trace;
  }

  lemma FoldGroup(down: (Hierarchical, Gid) -> (Hierarchical, int), m: Hierarchical, g: Gid, tr: seq<Event>)
    ensures var r1 := down(m, g);
            Fold(down, Nop, m, [Down(g)] + (tr + [Up(g)])) == if r1.1 != 0 then r1 else Fold(down, Nop, r1.0, tr)
  {
    var all, last := [Down(g)] + (tr + [Up(g)]), [Up(g)];
    var m1 := down(m, g).0;
    FoldConcat(down, Nop, m1, tr, last);
    assert all[1..] == tr + [Up(g)] && last[1..] == [];
  }

  lemma OwnGroupFills(h: Hierarchy, d: Proposal, unified: bool, m: Hierarchical, g: Gid)
    requires h.Valid() && g in h.children
    requires g in h.parent ==> Get(m, h.parent[g]) == PathMin(h, d, h.parent[g])
    ensures Fills(h, d, unified, m, {g}, SchedulableDown(h, d, unified, m, g))
  {
  }

  /** A subtree is its top and, disjoint from it, the subtrees of its children. */
  lemma SubtreeSplit(h: Hierarchy, g: Gid)
    requires h.Valid() && g in h.children
    ensures Subtree(h, g) == {g} + ChildSubtrees(h, g, 0) && g !in ChildSubtrees(h, g, 0)
  {
    forall x | x in h.children
      ensures h.Under(g, x) <==> x == g || UnderSomeChild(h, g, 0, x)
    {
      if h.Under(g, x) && x != g {
        var i := ChildAbove(h, g, x);
      } else if UnderSomeChild(h, g, 0, x) {
        var j :| 0 <= j < |h.children[g]| && h.Under(h.children[g][j], x);
        UnderTransitive(h, g, h.children[g][j], x);
      }
    }
    forall j | 0 <= j < |h.children[g]|
      ensures !h.Under(h.children[g][j], g)
    {
      if h.Under(h.children[g][j], g) {
        UnderIsDeeper(h, h.children[g][j], g);
      }
    }
  }

  lemma {:induction false} ChildrenFill(h: Hierarchy, d: Proposal, unified: bool, m: Hierarchical, g: Gid, i: nat)
    requires h.Valid() && g in h.children && i <= |h.children[g]|
    requires Get(m, g) == PathMin(h, d, g)
    ensures Fills(h, d, unified, m, ChildSubtrees(h, g, i), Result(h, d, unified, m, TraceFrom(h, g, i)))
    decreases h.height - h.level[g], |h.children[g]| - i
  {
    if i == |h.children[g]| {
      assert ChildSubtrees(h, g, i) == {};
    } else {
      var c, tr := h.children[g][i], TraceFrom(h, g, i + 1);
      TraceFills(h, d, unified, m, c);
      FoldConcat(Visitor(h, d, unified), Nop, m, Trace(h, c), tr);
      var r := Result(h, d, unified, m, Trace(h, c));
      SiblingsSplit(h, g, i);
      SubtreeSplit(h, g);
      assert g !in Subtree(h, c);
      if r.1 == 0 {
        ChildrenFill(h, d, unified, r.0, g, i + 1);
      }
      FillsCompose(h, d, unified, m, Subtree(h, c), r, ChildSubtrees(h, g, i + 1), Result(h, d, unified, r.0, tr));
    }
  }

  /** The subtrees of the children from `i` on are those of child `i` and, disjoint, the rest. */
  lemma SiblingsSplit(h: Hierarchy, g: Gid, i: nat)
    requires h.Valid() && g in h.children && i < |h.children[g]|
    ensures ChildSubtrees(h, g, i) == Subtree(h, h.children[g][i]) + ChildSubtrees(h, g, i + 1)
    ensures Subtree(h, h.children[g][i]) !! ChildSubtrees(h, g, i + 1)
  {
    var c := h.children[g][i];
    forall x | x in h.children
      ensures UnderSomeChild(h, g, i, x) <==> h.Under(c, x) || UnderSomeChild(h, g, i + 1, x)
      ensures !(h.Under(c, x) && UnderSomeChild(h, g, i + 1, x))
    {
      if h.Under(c, x) && UnderSomeChild(h, g, i + 1, x) {
        var j :| i + 1 <= j < |h.children[g]| && h.Under(h.children[g][j], x);
        SameLevelAncestors(h, c, h.children[g][j], x);
      }
    }
  }

  // ---------- what a failing walk leaves behind ----------

  /** Every group is entered after its parent, or after a group already done. */
  ghost predicate Ordered(h: Hierarchy, done: set<Gid>, tr: seq<Event>)
    decreases |tr|
  {
    if tr == [] then true
    else if tr[0].Up? then Ordered(h, done, tr[1..])
    else
      && tr[0].g in h.children && (tr[0].g in h.parent ==> h.parent[tr[0].g] in done)
      && Ordered(h, done + {tr[0].g}, tr[1..])
  }

  lemma {:induction false} OrderedConcat(h: Hierarchy, done: set<Gid>, more: set<Gid>, a: seq<Event>, b: seq<Event>)
    requires Ordered(h, done, a) && Ordered(h, done, b) && done <= more
    ensures Ordered(h, more, a + b)
    decreases |a| + |b|
  {
    if a != [] {
      assert (a + b)[0] == a[0] && (a + b)[1..] == a[1..] + b;
      if a[0].Up? {
        OrderedConcat(h, done, more, a[1..], b);
      } else {
        assert Ordered(h, done + {a[0].g}, b) by {
          OrderedConcat(h, done, done + {a[0].g}, [], b);
          assert [] + b == b;
        }
        OrderedConcat(h, done + {a[0].g}, more + {a[0].g}, a[1..], b);
      }
    } else {
      assert a + b == b;
      if b != [] {
        var d := if b[0].Up? then {} else {b[0].g};
        assert [] + b[1..] == b[1..] && done + {} == done && more + {} == more;
        OrderedConcat(h, done + d, more + d, [], b[1..]);
      }
    }
  }

  lemma {:induction false} TraceOrdered(h: Hierarchy, g: Gid, done: set<Gid>)
    requires h.Valid() && g in h.children && (g in h.parent ==> h.parent[g] in done)
    ensures Ordered(h, done, Trace(h, g))
    decreases h.height - h.level[g], |h.children[g]| + 1
  {
    var tr := TraceFrom(h, g, 0);
    ChildrenOrdered(h, g, 0, done + {g});
    assert Ordered(h, done + {g}, [Up(g)]);
    OrderedConcat(h, done + {g}, done + {g}, tr, [Up(g)]);
    assert Trace(h, g)[0] == Down(g) && Trace(h, g)[1..] == tr + [Up(g)];
  }

  lemma {:induction false} ChildrenOrdered(h: Hierarchy, g: Gid, i: nat, done: set<Gid>)
    requires h.Valid() && g in h.children && i <= |h.children[g]| && g in done
    ensures Ordered(h, done, TraceFrom(h, g, i))
    decreases h.height - h.level[g], |h.children[g]| - i
  {
    if i < |h.children[g]| {
      TraceOrdered(h, h.children[g][i], done);
      ChildrenOrdered(h, g, i + 1, done);
      OrderedConcat(h, done, done, Trace(h, h.children[g][i]), TraceFrom(h, g, i + 1));
    }
  }

  /** The place of the first group entered that exceeds a limit above it, or the end. */
  ghost function FirstRefusal(h: Hierarchy, d: Proposal, unified: bool, tr: seq<Event>): (k: nat)
    requires h.Valid()
    ensures k <= |tr|
    ensures k < |tr| ==> tr[k].Down? && tr[k].g in h.children && !unified && !Respects(h, d, tr[k].g)
  {
    if tr == [] then 0
    else if tr[0].Down? && tr[0].g in h.children && !unified && !Respects(h, d, tr[0].g) then 0
    else 1 + FirstRefusal(h, d, unified, tr[1..])
  }

  lemma {:induction false} NoneRefusedBefore(h: Hierarchy, d: Proposal, unified: bool, tr: seq<Event>, j: nat)
    requires h.Valid() && j < FirstRefusal(h, d, unified, tr)
    ensures tr[j].Down? && tr[j].g in h.children ==> unified || Respects(h, d, tr[j].g)
    decreases j
  {
    if j > 0 {
      NoneRefusedBefore(h, d, unified, tr[1..], j - 1);
    }
  }

  /** What a walk has written: the groups entered before the first refusal have the tightest limit on
      their path, whether the walk then failed or not; every other group keeps what it had. */
  ghost predicate Written(h: Hierarchy, d: Proposal, unified: bool, m: Hierarchical,
                          tr: seq<Event>, r: (Hierarchical, int))
    requires h.Valid()
  {
    var k := FirstRefusal(h, d, unified, tr);
    && (r.1 == 0 <==> k == |tr|)
    && (forall x :: x in h.children && Down(x) in tr[..k] ==> x in r.0 && r.0[x] == PathMin(h, d, x))
    && (forall x :: Down(x) !in tr[..k] ==> (x in r.0 <==> x in m) && Get(r.0, x) == Get(m, x))
  }

  lemma {:induction false} WalkWrites(h: Hierarchy, d: Proposal, unified: bool, m: Hierarchical,
                                         tr: seq<Event>, done: set<Gid>)
    requires h.Valid() && Ordered(h, done, tr)
    requires forall x :: x in done && x in h.children ==> Get(m, x) == PathMin(h, d, x)
    ensures Written(h, d, unified, m, tr, Result(h, d, unified, m, tr))
    decreases |tr|
  {
    if tr != [] {
      var e, rest := tr[0], tr[1..];
      if e.Up? {
        WalkWrites(h, d, unified, m, rest, done);
        WrittenAfterUp(h, d, unified, m, tr, Result(h, d, unified, m, rest));
      } else {
        var step := SchedulableDown(h, d, unified, m, e.g);
        OwnGroupFills(h, d, unified, m, e.g);
        if step.1 == 0 {
          OneMoreDone(h, d, unified, m, e.g, step, done);
          WalkWrites(h, d, unified, step.0, rest, done + {e.g});
          WrittenAfterDown(h, d, unified, m, tr, step, Result(h, d, unified, step.0, rest));
        }
      }
    }
  }

  lemma OneMoreDone(h: Hierarchy, d: Proposal, unified: bool, m: Hierarchical, g: Gid,
                    step: (Hierarchical, int), done: set<Gid>)
    requires h.Valid() && g in h.children && step.1 == 0 && Fills(h, d, unified, m, {g}, step)
    requires forall x :: x in done && x in h.children ==> Get(m, x) == PathMin(h, d, x)
    ensures forall x :: x in done + {g} && x in h.children ==> Get(step.0, x) == PathMin(h, d, x)
  {
    hide PathMin, Respects;
  }

  lemma WrittenAfterUp(h: Hierarchy, d: Proposal, unified: bool, m: Hierarchical, tr: seq<Event>,
                       r: (Hierarchical, int))
    requires h.Valid() && tr != [] && tr[0].Up? && Written(h, d, unified, m, tr[1..], r)
    ensures Written(h, d, unified, m, tr, r)
  {
    hide PathMin, Respects, Hierarchy.Valid;
    var k := FirstRefusal(h, d, unified, tr[1..]);
    assert FirstRefusal(h, d, unified, tr) == k + 1;
    hide FirstRefusal;
    assert tr[..k + 1] == [tr[0]] + tr[1..][..k];
  }

  lemma WrittenAfterDown(h: Hierarchy, d: Proposal, unified: bool, m: Hierarchical, tr: seq<Event>,
                         step: (Hierarchical, int), r: (Hierarchical, int))
    requires h.Valid() && tr != [] && tr[0].Down? && tr[0].g in h.children && step.1 == 0
    requires Fills(h, d, unified, m, {tr[0].g}, step) && Written(h, d, unified, step.0, tr[1..], r)
    ensures Written(h, d, unified, m, tr, r)
  {
    hide PathMin, Respects, Hierarchy.Valid;
    var g, rest := tr[0].g, tr[1..];
    var k := FirstRefusal(h, d, unified, rest);
    assert g in {g};
    assert FirstRefusal(h, d, unified, tr) == k + 1;
    hide FirstRefusal;
    assert tr[..k + 1] == [tr[0]] + rest[..k];
    forall x | x in h.children && Down(x) in tr[..k + 1]
      ensures x in r.0 && r.0[x] == PathMin(h, d, x)
    {
      if Down(x) !in rest[..k] {
        assert x == g;
      }
    }
    forall x | Down(x) !in tr[..k + 1]
      ensures (x in r.0 <==> x in m) && Get(r.0, x) == Get(m, x)
    {
      assert Down(x) !in rest[..k] && x !in {g};
    }
    hide Fills, Get;
  }

  /** Validate a proposal for the whole tree. When it succeeds every group has recorded exactly the
      minimum finite limit on its path to the root, or infinity. On the unified hierarchy it
      always succeeds; on the legacy one if and only if no group exceeds a limit above it. When it
      fails, the groups entered before the first one that exceeds keep the refused proposal's
      values, and only they. */
  method CfsSchedulable(h: Hierarchy, root: Gid, d: Proposal, unified: bool, m: Hierarchical)
    returns (out: Hierarchical, ret: int)
    requires h.Valid() && root in h.children && root !in h.parent
    ensures ret == 0 ==> forall g :: g in h.children && h.Under(root, g) ==>
                           g in out && IsPathMinimum(h, d, g, out[g])
    ensures ret == 0 <==> unified || forall g :: g in h.children && h.Under(root, g) ==> ExceedsNone(h, d, g)
    ensures Written(h, d, unified, m, Trace(h, root), (out, ret))
  {
    hide Written, Fold, Respects, ExceedsNone, SchedulableDown;
    forall g | g in h.children
      ensures Respects(h, d, g) <==> ExceedsNone(h, d, g)
    {
      RespectsIsExceedsNone(h, d, g);
    }
    out, ret := WalkTgTreeFrom(h, root, Visitor(h, d, unified), Nop, m);
    TraceFills(h, d, unified, m, root);
    TraceOrdered(h, root, {});
    WalkWrites(h, d, unified, m, Trace(h, root), {});
    if ret == 0 {
      forall g | g in h.children && h.Under(root, g)
        ensures g in out && IsPathMinimum(h, d, g, out[g])
      {
        PathMinIsMinimum(h, d, g);
      }
    }
  }
}
