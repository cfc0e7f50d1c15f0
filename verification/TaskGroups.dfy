/** The task-group tree and the walk every hierarchical update uses.

    Groups are linked by parent pointers and ordered sibling lists. The walk keeps no stack: it
    finds its way back through the parent pointer and the position in the sibling list. */
module TaskGroups {

  type Gid = nat

  /** `level` and `height` exist for termination arguments only: a finite tree always has them. */
  datatype Hierarchy = Hierarchy(parent: map<Gid, Gid>, children: map<Gid, seq<Gid>>,
                                 level: map<Gid, nat>, height: nat)
  {
    ghost predicate Valid() {
      && level.Keys == children.Keys
      && parent.Keys <= children.Keys
      && (forall g :: g in children ==> level[g] <= height)
      && (forall g :: g in parent ==>
            parent[g] in children && g in children[parent[g]] && level[g] == level[parent[g]] + 1)
      && (forall g, i :: g in children && 0 <= i < |children[g]| ==>
            children[g][i] in parent && parent[children[g][i]] == g)
      && (forall g, i, j :: g in children && 0 <= i < j < |children[g]| ==> children[g][i] != children[g][j])
    }

    /** `g` is `from` or one of its descendants. */
    predicate Under(from: Gid, g: Gid)
      requires Valid() && g in children
      decreases level[g]
    {
      g == from || (g in parent && Under(from, parent[g]))
    }
  }

  datatype Event = Down(g: Gid) | Up(g: Gid)

  function IndexOf(s: seq<Gid>, x: Gid): (i: nat)
    requires x in s
    ensures i < |s| && s[i] == x
  {
    if s[0] == x then 0 else 1 + IndexOf(s[1..], x)
  }

  // ---------- what the walk should visit ----------

  /** Preorder on the way down, postorder on the way up. */
  function Trace(h: Hierarchy, g: Gid): seq<Event>
    requires h.Valid() && g in h.children
    decreases h.height - h.level[g], |h.children[g]| + 1
  {
    [Down(g)] + TraceFrom(h, g, 0) + [Up(g)]
  }

  /** The traces of the children of `g` from the `i`-th on. */
  function TraceFrom(h: Hierarchy, g: Gid, i: nat): seq<Event>
    requires h.Valid() && g in h.children && i <= |h.children[g]|
    decreases h.height - h.level[g], |h.children[g]| - i
  {
    if i == |h.children[g]| then [] else Trace(h, h.children[g][i]) + TraceFrom(h, g, i + 1)
  }

  /** What is left of the walk of `from` once `g` has been left for good. */
  function After(h: Hierarchy, from: Gid, g: Gid): seq<Event>
    requires h.Valid() && g in h.children && h.Under(from, g)
    decreases h.level[g]
  {
    if g == from then []
    else
      var p := h.parent[g];
      TraceFrom(h, p, IndexOf(h.children[p], g) + 1) + ([Up(p)] + After(h, from, p))
  }

  /** Run the visitors over a list of events, stopping at the first failure. */
  function Fold<S>(down: (S, Gid) -> (S, int), up: (S, Gid) -> (S, int), data: S, tr: seq<Event>): (S, int)
    decreases |tr|
  {
    if tr == [] then (data, 0)
    else
      var (data', ret) := if tr[0].Down? then down(data, tr[0].g) else up(data, tr[0].g);
      if ret != 0 then (data', ret) else Fold(down, up, data', tr[1..])
  }

  // ---------- the walk ----------

  /** The two places the walk can be at: about to enter a group or about to leave it. */
  function Rest(h: Hierarchy, from: Gid, g: Gid, entering: bool): seq<Event>
    requires h.Valid() && g in h.children && h.Under(from, g)
  {
    (if entering then Trace(h, g) else [Up(g)]) + After(h, from, g)
  }

  lemma EnterLeaf(h: Hierarchy, from: Gid, g: Gid)
    requires h.Valid() && g in h.children && h.Under(from, g) && h.children[g] == []
    ensures Rest(h, from, g, true) == [Down(g)] + Rest(h, from, g, false)
  {
    assert TraceFrom(h, g, 0) == [];
  }

  lemma IndexOfChild(h: Hierarchy, g: Gid, i: nat)
    requires h.Valid() && g in h.children && i < |h.children[g]|
    ensures IndexOf(h.children[g], h.children[g][i]) == i
  {
  }

  lemma ChildFacts(h: Hierarchy, g: Gid, i: nat)
    requires h.Valid() && g in h.children && i < |h.children[g]|
    ensures var c := h.children[g][i];
            c in h.children && c in h.parent && h.parent[c] == g && h.level[c] == h.level[g] + 1
  {
  }

  lemma ParentFacts(h: Hierarchy, g: Gid)
    requires h.Valid() && g in h.children && g in h.parent
    ensures h.parent[g] in h.children && g in h.children[h.parent[g]] && h.level[g] == h.level[h.parent[g]] + 1
  {
  }

  /** The walk continues at a child: what follows `head` is that child's trace and the rest. */
  lemma ContinueAtChild(h: Hierarchy, from: Gid, g: Gid, i: nat)
    requires h.Valid() && g in h.children && h.Under(from, g) && i < |h.children[g]|
    ensures var c := h.children[g][i];
            && h.Under(from, c)
            && TraceFrom(h, g, i) + ([Up(g)] + After(h, from, g)) == Rest(h, from, c, true)
  {
    hide Hierarchy.Valid;
    var c := h.children[g][i];
    ChildFacts(h, g, i);
    IndexOfChild(h, g, i);
    if c == from {
      UnderIsDeeper(h, from, g);
    }
    assert After(h, from, c) == TraceFrom(h, g, i + 1) + ([Up(g)] + After(h, from, g));
  }

  lemma {:induction false} UnderIsDeeper(h: Hierarchy, from: Gid, g: Gid)
    requires h.Valid() && g in h.children && from in h.children && h.Under(from, g)
    ensures h.level[from] <= h.level[g] && (h.level[from] == h.level[g] ==> from == g)
    decreases h.level[g]
  {
    if g != from {
      UnderIsDeeper(h, from, h.parent[g]);
    }
  }

  lemma EnterFirstChild(h: Hierarchy, from: Gid, g: Gid)
    requires h.Valid() && g in h.children && h.Under(from, g) && h.children[g] != []
    ensures h.Under(from, h.children[g][0])
    ensures Rest(h, from, g, true) == [Down(g)] + Rest(h, from, h.children[g][0], true)
  {
    ContinueAtChild(h, from, g, 0);
  }

  /** Leaving a group that is not the start leads to its next sibling or out of its parent. */
  lemma LeaveGroup(h: Hierarchy, from: Gid, g: Gid)
    requires h.Valid() && g in h.children && h.Under(from, g) && g != from
    ensures var p := h.parent[g];
            var i := IndexOf(h.children[p], g) + 1;
            && h.Under(from, p)
            && (i < |h.children[p]| ==>
                  && h.Under(from, h.children[p][i])
                  && After(h, from, g) == Rest(h, from, h.children[p][i], true))
            && (i == |h.children[p]| ==> After(h, from, g) == Rest(h, from, p, false))
  {
    hide Hierarchy.Valid;
    ParentFacts(h, g);
    var p := h.parent[g];
    var i := IndexOf(h.children[p], g) + 1;
    if i < |h.children[p]| {
      ContinueAtChild(h, from, p, i);
    } else {
      assert TraceFrom(h, p, i) == [];
    }
  }

  /** The goto-based walk visits exactly the recursive trace of the subtree, in order, up to and
      including the first visitor that fails. It follows parent pointers and sibling lists and
      keeps no stack, yet always comes to an end. */
  method WalkTgTreeFrom<S>(h: Hierarchy, from: Gid, down: (S, Gid) -> (S, int), up: (S, Gid) -> (S, int), data: S)
    returns (out: S, ret: int)
    requires h.Valid() && from in h.children
    ensures (out, ret) == Fold(down, up, data, Trace(h, from))
  {
    var parent, entering := from, true;
    out := data;
    assert Rest(h, from, from, true) == Trace(h, from);
    while true
      invariant parent in h.children && h.Under(from, parent)
      invariant Fold(down, up, out, Rest(h, from, parent, entering)) == Fold(down, up, data, Trace(h, from))
      decreases |Rest(h, from, parent, entering)|
    {
      if entering {
        var result := down(out, parent);
        out, ret := result.0, result.1;
        if h.children[parent] == [] {
          EnterLeaf(h, from, parent);
        } else {
          EnterFirstChild(h, from, parent);
        }
        if ret != 0 {
          return;
        }
        if h.children[parent] == [] {
          entering := false;
        } else {
          parent := h.children[parent][0];
        }
      } else {
        var result := up(out, parent);
        out, ret := result.0, result.1;
        assert Rest(h, from, parent, false)[1..] == After(h, from, parent);
        if ret != 0 || parent == from {
          return;
        }
        LeaveGroup(h, from, parent);
        var child := parent;
        parent := h.parent[child];
        var i := IndexOf(h.children[parent], child) + 1;
        if i < |h.children[parent]| {
          parent, entering := h.children[parent][i], true;
        }
      }
    }
  }

  // ---------- what the trace visits ----------

  function Visits(tr: seq<Event>, e: Event): nat {
    multiset(tr)[e]
  }

  /** Each descendant is entered and left exactly once, nothing else is visited. */
  lemma {:induction false} TraceVisitsSubtreeOnce(h: Hierarchy, g: Gid, x: Gid)
    requires h.Valid() && g in h.children && x in h.children
    ensures Visits(Trace(h, g), Down(x)) == (if h.Under(g, x) then 1 else 0)
    ensures Visits(Trace(h, g), Up(x)) == (if h.Under(g, x) then 1 else 0)
    decreases h.height - h.level[g], |h.children[g]| + 1
  {
    var mid := TraceFrom(h, g, 0);
    assert multiset(Trace(h, g)) == multiset([Down(g)]) + multiset(mid) + multiset([Up(g)]);
    ChildrenVisitedOnce(h, g, 0, x);
    if x == g {
      forall i | 0 <= i < |h.children[g]|
        ensures !h.Under(h.children[g][i], g)
      {
        if h.Under(h.children[g][i], g) {
          UnderIsDeeper(h, h.children[g][i], g);
        }
      }
    } else if h.Under(g, x) {
      var i := ChildAbove(h, g, x);
    } else {
      forall i | 0 <= i < |h.children[g]|
        ensures !h.Under(h.children[g][i], x)
      {
        if h.Under(h.children[g][i], x) {
          UnderTransitive(h, g, h.children[g][i], x);
        }
      }
    }
  }

  ghost predicate UnderSomeChild(h: Hierarchy, g: Gid, i: nat, x: Gid)
    requires h.Valid() && g in h.children && x in h.children
  {
    exists j :: i <= j < |h.children[g]| && h.Under(h.children[g][j], x)
  }

  lemma {:induction false} ChildrenVisitedOnce(h: Hierarchy, g: Gid, i: nat, x: Gid)
    requires h.Valid() && g in h.children && x in h.children && i <= |h.children[g]|
    ensures Visits(TraceFrom(h, g, i), Down(x)) == (if UnderSomeChild(h, g, i, x) then 1 else 0)
    ensures Visits(TraceFrom(h, g, i), Up(x)) == (if UnderSomeChild(h, g, i, x) then 1 else 0)
    decreases h.height - h.level[g], |h.children[g]| - i
  {
    if i < |h.children[g]| {
      var c := h.children[g][i];
      TraceVisitsSubtreeOnce(h, c, x);
      ChildrenVisitedOnce(h, g, i + 1, x);
      assert multiset(TraceFrom(h, g, i)) == multiset(Trace(h, c)) + multiset(TraceFrom(h, g, i + 1));
      if h.Under(c, x) {
        forall j | i + 1 <= j < |h.children[g]|
          ensures !h.Under(h.children[g][j], x)
        {
          if h.Under(h.children[g][j], x) {
            SameLevelAncestors(h, c, h.children[g][j], x);
          }
        }
      }
    }
  }

  lemma {:induction false} UnderTransitive(h: Hierarchy, a: Gid, b: Gid, x: Gid)
    requires h.Valid() && b in h.children && x in h.children && h.Under(a, b) && h.Under(b, x)
    ensures h.Under(a, x)
    decreases h.level[x]
  {
    if x != b {
      UnderTransitive(h, a, b, h.parent[x]);
    }
  }

  /** Below a group other than itself means below exactly one of its children. */
  lemma {:induction false} ChildAbove(h: Hierarchy, g: Gid, x: Gid) returns (i: nat)
    requires h.Valid() && g in h.children && x in h.children && h.Under(g, x) && x != g
    ensures i < |h.children[g]| && h.Under(h.children[g][i], x)
    decreases h.level[x]
  {
    if h.parent[x] == g {
      i := IndexOf(h.children[g], x);
    } else {
      i := ChildAbove(h, g, h.parent[x]);
    }
  }

  lemma {:induction false} SameLevelAncestors(h: Hierarchy, a: Gid, b: Gid, x: Gid)
    requires h.Valid() && a in h.children && b in h.children && x in h.children
    requires h.Under(a, x) && h.Under(b, x) && h.level[a] == h.level[b]
    ensures a == b
    decreases h.level[x]
  {
    UnderIsDeeper(h, a, x);
    UnderIsDeeper(h, b, x);
    if a != x && b != x {
      SameLevelAncestors(h, a, b, h.parent[x]);
    }
  }
}
