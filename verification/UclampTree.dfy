/** Effective utilisation clamps of task groups, propagated down the tree.

    A group's effective clamps are its requested ones capped by its parent's effective ones. After
    a request changes, the update visits the subtree in preorder and skips the descendants of every
    group whose effective clamps come out unchanged. */
module UclampTree {
  import opened Common
  import opened TaskGroups

  datatype Clamps = Clamps(min: nat, max: nat)

  function Cap(x: nat, limit: nat): nat {
    if x > limit then limit else x
  }

  /** Requested clamps, capped by the parent's effective ones; protection never above the limit. */
  function Effective(req: Clamps, parent: Option<Clamps>): Clamps {
    var lo := if parent.Some? then Cap(req.min, parent.value.min) else req.min;
    var hi := if parent.Some? then Cap(req.max, parent.value.max) else req.max;
    Clamps(Cap(lo, hi), hi)
  }

  function ParentClamps(h: Hierarchy, eff: map<Gid, Clamps>, g: Gid): Option<Clamps> {
    if g in h.parent && h.parent[g] in eff then Some(eff[h.parent[g]]) else None
  }

  /** The group's effective clamps are what its request and its parent imply. */
  predicate UpToDate(h: Hierarchy, req: map<Gid, Clamps>, eff: map<Gid, Clamps>, g: Gid)
    requires g in req && g in eff
  {
    eff[g] == Effective(req[g], ParentClamps(h, eff, g))
  }

  // ---------- the preorder iteration ----------

  /** The next group in preorder after the whole subtree of `g`, still below `top`. */
  function NextAfter(h: Hierarchy, top: Gid, g: Gid): Option<Gid>
    requires h.Valid() && g in h.children && h.Under(top, g)
    decreases h.level[g]
  {
    if g == top then None
    else
      var p := h.parent[g];
      var i := IndexOf(h.children[p], g) + 1;
      if i < |h.children[p]| then Some(h.children[p][i]) else NextAfter(h, top, p)
  }

  function NextPre(h: Hierarchy, top: Gid, g: Gid): Option<Gid>
    requires h.Valid() && g in h.children && h.Under(top, g)
  {
    if h.children[g] != [] then Some(h.children[g][0]) else NextAfter(h, top, g)
  }

  function RightmostDescendant(h: Hierarchy, g: Gid): (r: Gid)
    requires h.Valid() && g in h.children
    ensures r in h.children
    decreases h.height - h.level[g]
  {
    var c := h.children[g];
    if c == [] then g else RightmostDescendant(h, c[|c| - 1])
  }

  /** Resuming the iteration from the rightmost descendant skips exactly the subtree. */
  lemma {:induction false} SkipSubtree(h: Hierarchy, top: Gid, g: Gid)
    requires h.Valid() && g in h.children && h.Under(top, g)
    ensures h.Under(top, RightmostDescendant(h, g))
    ensures NextPre(h, top, RightmostDescendant(h, g)) == NextAfter(h, top, g)
    decreases h.height - h.level[g]
  {
    var c := h.children[g];
    if c != [] {
      var last := |c| - 1;
      IndexOfChild(h, g, last);
      SkipSubtree(h, top, c[last]);
      if c[last] == top {
        UnderIsDeeper(h, top, g);
      }
    }
  }

  /** Later siblings of `g` and of its ancestors: what the iteration still has to start on. */
  function Later(h: Hierarchy, top: Gid, g: Gid): set<Gid>
    requires h.Valid() && g in h.children && h.Under(top, g)
    decreases h.level[g]
  {
    if g == top then {}
    else
      var p := h.parent[g];
      Siblings(h, p, IndexOf(h.children[p], g) + 1) + Later(h, top, p)
  }

  function Siblings(h: Hierarchy, p: Gid, i: nat): set<Gid>
    requires p in h.children
  {
    set j | i <= j < |h.children[p]| :: h.children[p][j]
  }

  lemma {:induction false} NextAfterSpec(h: Hierarchy, top: Gid, g: Gid)
    requires h.Valid() && g in h.children && h.Under(top, g)
    ensures match NextAfter(h, top, g)
            case None => Later(h, top, g) == {}
            case Some(n) =>
              n in h.children && h.Under(top, n) && Later(h, top, g) == {n} + Later(h, top, n)
    decreases h.level[g]
  {
    hide Siblings;
    if g != top {
      var p := h.parent[g];
      var i := IndexOf(h.children[p], g) + 1;
      if i < |h.children[p]| {
        ChildFacts(h, p, i);
        NextSibling(h, top, p, i);
      } else {
        NoSiblings(h, p, i);
        NextAfterSpec(h, top, p);
      }
    }
  }

  lemma NoSiblings(h: Hierarchy, p: Gid, i: nat)
    requires p in h.children && |h.children[p]| <= i
    ensures Siblings(h, p, i) == {}
  {
  }

  lemma NextSibling(h: Hierarchy, top: Gid, p: Gid, i: nat)
    requires h.Valid() && p in h.children && h.Under(top, p) && i < |h.children[p]|
    ensures var n := h.children[p][i];
            h.Under(top, n) && Siblings(h, p, i) + Later(h, top, p) == {n} + Later(h, top, n)
  {
    hide Hierarchy.Valid;
    var n := h.children[p][i];
    ChildFacts(h, p, i);
    IndexOfChild(h, p, i);
    assert Siblings(h, p, i) == {n} + Siblings(h, p, i + 1);
    if n == top {
      UnderIsDeeper(h, top, p);
    }
  }

  /** The iteration comes to an end: the trace left to walk shrinks. */
  lemma {:induction false} NextAfterShrinks(h: Hierarchy, top: Gid, g: Gid)
    requires h.Valid() && g in h.children && h.Under(top, g) && NextAfter(h, top, g).Some?
    ensures var n := NextAfter(h, top, g).value;
            n in h.children && h.Under(top, n) && |Rest(h, top, n, true)| <= |After(h, top, g)|
    decreases h.level[g]
  {
    NextAfterSpec(h, top, g);
    LeaveGroup(h, top, g);
    var p := h.parent[g];
    if IndexOf(h.children[p], g) + 1 == |h.children[p]| {
      NextAfterShrinks(h, top, p);
    }
  }

  lemma FirstChildSpec(h: Hierarchy, top: Gid, g: Gid)
    requires h.Valid() && g in h.children && h.Under(top, g) && h.children[g] != []
    ensures var c := h.children[g][0];
            && h.Under(top, c)
            && {c} + Later(h, top, c) == Siblings(h, g, 0) + Later(h, top, g)
            && |Rest(h, top, c, true)| < |Rest(h, top, g, true)|
  {
    EnterFirstChild(h, top, g);
    NextSibling(h, top, g, 0);
  }

  /** The iteration may go on at `n` with only `pending` left to start on. */
  ghost predicate Continues(h: Hierarchy, top: Gid, g: Gid, next: Option<Gid>, pending: set<Gid>)
    requires h.Valid() && g in h.children && h.Under(top, g)
  {
    match next
    case None => pending == {}
    case Some(n) =>
      && n in h.children && h.Under(top, n)
      && pending == {n} + Later(h, top, n)
      && |Rest(h, top, n, true)| < |Rest(h, top, g, true)|
  }

  lemma PastSubtree(h: Hierarchy, top: Gid, g: Gid)
    requires h.Valid() && g in h.children && h.Under(top, g)
    ensures Continues(h, top, g, NextAfter(h, top, g), Later(h, top, g))
  {
    NextAfterSpec(h, top, g);
    if NextAfter(h, top, g).Some? {
      NextAfterShrinks(h, top, g);
    }
  }

  lemma IntoSubtree(h: Hierarchy, top: Gid, g: Gid)
    requires h.Valid() && g in h.children && h.Under(top, g)
    ensures Continues(h, top, g, NextPre(h, top, g), Siblings(h, g, 0) + Later(h, top, g))
  {
    if h.children[g] != [] {
      FirstChildSpec(h, top, g);
    } else {
      PastSubtree(h, top, g);
      assert Siblings(h, g, 0) + Later(h, top, g) == Later(h, top, g);
    }
  }

  lemma TopIsLast(h: Hierarchy, top: Gid)
    requires h.Valid() && top in h.children
    ensures Later(h, top, top) == {}
  {
  }

  // ---------- the update ----------

  /** Every group is up to date except possibly the groups still to be started on. */
  ghost predicate OnlyPending(h: Hierarchy, req: map<Gid, Clamps>, eff: map<Gid, Clamps>, pending: set<Gid>)
    requires h.Valid()
  {
    && req.Keys == h.children.Keys == eff.Keys
    && forall x :: x in h.children && x !in pending ==> UpToDate(h, req, eff, x)
  }

  /** Writing one group's clamps can only put its children out of date. */
  lemma WriteAffectsChildren(h: Hierarchy, req: map<Gid, Clamps>, eff: map<Gid, Clamps>, g: Gid, x: Gid, c: Clamps)
    requires h.Valid() && req.Keys == h.children.Keys == eff.Keys && g in h.children && x in h.children
    requires x != g && !(x in h.parent && h.parent[x] == g) && UpToDate(h, req, eff, x)
    ensures UpToDate(h, req, eff[g := c], x)
  {
  }

  lemma OwnWriteIsUpToDate(h: Hierarchy, req: map<Gid, Clamps>, eff: map<Gid, Clamps>, g: Gid)
    requires h.Valid() && req.Keys == h.children.Keys == eff.Keys && g in h.children
    ensures UpToDate(h, req, eff[g := Effective(req[g], ParentClamps(h, eff, g))], g)
  {
    assert g in h.parent ==> h.parent[g] != g;
  }

  lemma NothingToWrite(h: Hierarchy, req: map<Gid, Clamps>, eff: map<Gid, Clamps>, g: Gid, rest: set<Gid>)
    requires h.Valid() && g in h.children && OnlyPending(h, req, eff, {g} + rest)
    requires eff[g] == Effective(req[g], ParentClamps(h, eff, g))
    ensures OnlyPending(h, req, eff, rest)
  {
  }

  lemma WriteStep(h: Hierarchy, req: map<Gid, Clamps>, eff: map<Gid, Clamps>, g: Gid, rest: set<Gid>)
    requires h.Valid() && g in h.children && OnlyPending(h, req, eff, {g} + rest)
    ensures OnlyPending(h, req, eff[g := Effective(req[g], ParentClamps(h, eff, g))], Siblings(h, g, 0) + rest)
  {
    var c := Effective(req[g], ParentClamps(h, eff, g));
    var eff' := eff[g := c];
    OwnWriteIsUpToDate(h, req, eff, g);
    forall x | x in h.children && x !in Siblings(h, g, 0) + rest
      ensures UpToDate(h, req, eff', x)
    {
      if x != g {
        WriteAffectsChildren(h, req, eff, g, x, c);
      }
    }
  }

  /** Propagate after the clamps requested for `top` changed. If every other group was up to date,
      afterwards every group is, although unchanged subtrees are never looked at; nothing outside
      the subtree is written. */
  method CpuUtilUpdateEff(h: Hierarchy, top: Gid, req: map<Gid, Clamps>, eff0: map<Gid, Clamps>)
    returns (eff: map<Gid, Clamps>)
    requires h.Valid() && top in h.children && OnlyPending(h, req, eff0, {top})
    ensures OnlyPending(h, req, eff, {})
    ensures forall x :: x in h.children && !h.Under(top, x) ==> eff[x] == eff0[x]
  {
    hide Effective, UpToDate, Later, Rest, RightmostDescendant, NextAfter, NextPre;
    eff := eff0;
    var css := Some(top);
    assert Later(h, top, top) == {} by { TopIsLast(h, top); }
    while css.Some?
      invariant css.Some? ==> css.value in h.children && h.Under(top, css.value)
      invariant OnlyPending(h, req, eff, if css.Some? then {css.value} + Later(h, top, css.value) else {})
      invariant forall x :: x in h.children && !h.Under(top, x) ==> eff[x] == eff0[x]
      decreases css.Some?, if css.Some? then |Rest(h, top, css.value, true)| else 0
    {
      var g := css.value;
      var c := Effective(req[g], ParentClamps(h, eff, g));
      ghost var later := Later(h, top, g);
      if c == eff[g] {
        SkipSubtree(h, top, g);
        PastSubtree(h, top, g);
        NothingToWrite(h, req, eff, g, later);
        css := NextPre(h, top, RightmostDescendant(h, g));
      } else {
        WriteStep(h, req, eff, g, later);
        IntoSubtree(h, top, g);
        eff := eff[g := c];
        css := NextPre(h, top, g);
      }
    }
  }

  /** Recomputing every group from its request and its parent, top down. */
  function Recomputed(h: Hierarchy, req: map<Gid, Clamps>, g: Gid): Clamps
    requires h.Valid() && g in h.children && req.Keys == h.children.Keys
    decreases h.level[g]
  {
    Effective(req[g], if g in h.parent then Some(Recomputed(h, req, h.parent[g])) else None)
  }

  /** A tree in which every group is up to date is the fully recomputed one. */
  lemma {:induction false} UpToDateIsRecomputed(h: Hierarchy, req: map<Gid, Clamps>, eff: map<Gid, Clamps>, g: Gid)
    requires h.Valid() && g in h.children && OnlyPending(h, req, eff, {})
    ensures eff[g] == Recomputed(h, req, g)
    decreases h.level[g]
  {
    assert UpToDate(h, req, eff, g);
    if g in h.parent {
      UpToDateIsRecomputed(h, req, eff, h.parent[g]);
    }
  }

  /** Clamps that a group may be given: protection within its limit, both within its request and
      within what its parent is given. */
  ghost predicate Allowed(h: Hierarchy, req: map<Gid, Clamps>, given: map<Gid, Clamps>, g: Gid) {
    && g in req && g in given && given[g].min <= given[g].max
    && Within(given[g], req[g])
    && (g in h.parent ==> h.parent[g] in given && Within(given[g], given[h.parent[g]]))
  }

  predicate Within(a: Clamps, b: Clamps) {
    a.min <= b.min && a.max <= b.max
  }

  /** The effective clamps are allowed, and any others that are allowed lie within them. */
  lemma {:induction false} EffectiveIsLargest(h: Hierarchy, req: map<Gid, Clamps>, given: map<Gid, Clamps>, g: Gid)
    requires h.Valid() && g in h.children && req.Keys == h.children.Keys
    ensures Allowed(h, req, map x | x in h.children :: Recomputed(h, req, x), g)
    ensures (forall x :: x in h.children ==> Allowed(h, req, given, x)) ==> Within(given[g], Recomputed(h, req, g))
    decreases h.level[g]
  {
    if g in h.parent {
      EffectiveIsLargest(h, req, given, h.parent[g]);
    }
    if forall x :: x in h.children ==> Allowed(h, req, given, x) {
      assert Allowed(h, req, given, g);
    }
  }

  /** Consequences for every group: clamps never exceed the request, never exceed any ancestor's,
      and the protection never exceeds the limit. */
  lemma {:induction false} ClampsAreNested(h: Hierarchy, req: map<Gid, Clamps>, a: Gid, g: Gid)
    requires h.Valid() && g in h.children && a in h.children && h.Under(a, g) && req.Keys == h.children.Keys
    ensures Recomputed(h, req, g).min <= Recomputed(h, req, a).min
    ensures Recomputed(h, req, g).max <= Recomputed(h, req, a).max
    ensures Recomputed(h, req, g).max <= req[a].max
    ensures Recomputed(h, req, g).min <= Recomputed(h, req, g).max
    decreases h.level[g]
  {
    if g != a {
      ClampsAreNested(h, req, a, h.parent[g]);
    }
  }
}
