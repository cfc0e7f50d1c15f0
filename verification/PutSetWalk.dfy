/** Switching from one fair task to another in a hierarchy of groups.

    Each task or group entity sits on a runqueue, the one its parent entity owns. Along the path of
    the running task every runqueue has its entity as `curr`, kept outside that runqueue's tree.
    Instead of putting back the whole old path and setting the whole new one, the switch walks both
    paths up only to where they meet. */
module PutSetWalk {

  type Ent = nat
  type RqId = nat

  /** `rq` is the runqueue an entity sits on, `myQ` the one a group entity owns, `owner` its
      inverse; the root runqueue has no owner. */
  datatype Entities = Entities(parent: map<Ent, Ent>, rq: map<Ent, RqId>, depth: map<Ent, nat>,
                               myQ: map<Ent, RqId>, owner: map<RqId, Ent>, root: RqId)
  {
    ghost predicate Valid() {
      && depth.Keys == rq.Keys && parent.Keys <= rq.Keys
      && (forall e :: e in parent ==> parent[e] in rq && depth[e] == depth[parent[e]] + 1)
      && (forall e :: e in parent ==> parent[e] in myQ && rq[e] == myQ[parent[e]])
      && (forall e :: e in rq && e !in parent ==> depth[e] == 0 && rq[e] == root)
      && (forall g :: g in myQ ==> myQ[g] != root && myQ[g] in owner && owner[myQ[g]] == g)
    }

    /** The entity and all its ancestors. */
    function Chain(e: Ent): set<Ent>
      requires Valid() && e in rq
      decreases depth[e]
    {
      {e} + if e in parent then Chain(parent[e]) else {}
    }
  }

  datatype State = State(curr: map<RqId, Ent>, tree: set<Ent>)

  /** `onRq`: still runnable; only such an entity goes back into its tree or is taken out of it. */
  function Put(w: Entities, onRq: set<Ent>, s: State, e: Ent): State
    requires e in w.rq
  {
    State(s.curr - {w.rq[e]}, if e in onRq then s.tree + {e} else s.tree)
  }

  function Set(w: Entities, onRq: set<Ent>, s: State, e: Ent): State
    requires e in w.rq
  {
    State(s.curr[w.rq[e] := e], if e in onRq then s.tree - {e} else s.tree)
  }

  /** Put back a whole path, bottom up. */
  function PutAll(w: Entities, onRq: set<Ent>, s: State, e: Ent): State
    requires w.Valid() && e in w.rq
    decreases w.depth[e]
  {
    var s1 := Put(w, onRq, s, e);
    if e in w.parent then PutAll(w, onRq, s1, w.parent[e]) else s1
  }

  /** Set a whole path, bottom up. */
  function SetAll(w: Entities, onRq: set<Ent>, s: State, e: Ent): State
    requires w.Valid() && e in w.rq
    decreases w.depth[e]
  {
    var s1 := Set(w, onRq, s, e);
    if e in w.parent then SetAll(w, onRq, s1, w.parent[e]) else s1
  }

  // ---------- chains ----------

  lemma {:induction false} ChainDepth(w: Entities, e: Ent, x: Ent)
    requires w.Valid() && e in w.rq && x in w.Chain(e)
    ensures x in w.rq && w.depth[x] <= w.depth[e] && (w.depth[x] == w.depth[e] ==> x == e)
    decreases w.depth[e]
  {
    if x != e {
      ChainDepth(w, w.parent[e], x);
    }
  }

  lemma {:induction false} ChainOfMember(w: Entities, e: Ent, x: Ent)
    requires w.Valid() && e in w.rq && x in w.Chain(e)
    ensures x in w.rq && w.Chain(x) <= w.Chain(e)
    decreases w.depth[e]
  {
    if x != e {
      ChainOfMember(w, w.parent[e], x);
    }
  }

  lemma SameRqSameDepth(w: Entities, e: Ent, f: Ent)
    requires w.Valid() && e in w.rq && f in w.rq && w.rq[e] == w.rq[f]
    ensures w.depth[e] == w.depth[f] && (e in w.parent <==> f in w.parent)
    ensures e in w.parent ==> w.parent[e] == w.parent[f]
  {
  }

  /** Two members of one chain at the same depth are the same entity. */
  lemma SameDepthInChain(w: Entities, e: Ent, x: Ent, y: Ent)
    requires w.Valid() && e in w.rq && x in w.Chain(e) && y in w.Chain(e)
    ensures x in w.rq && y in w.rq && (w.depth[x] == w.depth[y] ==> x == y)
    decreases if e in w.depth then w.depth[e] else 0
  {
    ChainDepth(w, e, x);
    ChainDepth(w, e, y);
    if x != e && y != e {
      SameDepthInChain(w, w.parent[e], x, y);
    }
  }

  /** A proper ancestor in a chain has its child in the chain too. */
  lemma {:induction false} ChildInChain(w: Entities, e: Ent, x: Ent) returns (c: Ent)
    requires w.Valid() && e in w.rq && x in w.Chain(e) && x != e
    ensures c in w.Chain(e) && c in w.parent && w.parent[c] == x
    decreases w.depth[e]
  {
    if w.parent[e] == x {
      c := e;
    } else {
      c := ChildInChain(w, w.parent[e], x);
    }
  }

  // ---------- the running entities ----------

  /** The runqueues with a running entity are exactly those of the entities in `xs`. */
  ghost predicate CurrIs(w: Entities, curr: map<RqId, Ent>, xs: set<Ent>) {
    && (forall e :: e in xs ==> e in w.rq && w.rq[e] in curr && curr[w.rq[e]] == e)
    && (forall r :: r in curr ==> curr[r] in xs && curr[r] in w.rq && w.rq[curr[r]] == r)
  }

  lemma CurrIsUnique(w: Entities, a: map<RqId, Ent>, b: map<RqId, Ent>, xs: set<Ent>)
    requires CurrIs(w, a, xs) && CurrIs(w, b, xs)
    ensures a == b
  {
    forall r
      ensures r in a <==> r in b
    {
    }
  }

  lemma PutCurr(w: Entities, onRq: set<Ent>, s: State, e: Ent, xs: set<Ent>)
    requires CurrIs(w, s.curr, xs) && e in xs && e in w.rq
    ensures CurrIs(w, Put(w, onRq, s, e).curr, xs - {e})
  {
  }

  lemma SetCurr(w: Entities, onRq: set<Ent>, s: State, e: Ent, xs: set<Ent>)
    requires CurrIs(w, s.curr, xs) && e in w.rq && w.rq[e] !in s.curr
    ensures CurrIs(w, Set(w, onRq, s, e).curr, xs + {e})
  {
  }

  /** Entities at other depths are on other runqueues. */
  lemma FreeRq(w: Entities, curr: map<RqId, Ent>, xs: set<Ent>, e: Ent)
    requires w.Valid() && CurrIs(w, curr, xs) && e in w.rq
    requires forall x :: x in xs ==> x in w.rq && w.depth[x] != w.depth[e]
    ensures w.rq[e] !in curr
  {
    if w.rq[e] in curr {
      SameRqSameDepth(w, e, curr[w.rq[e]]);
    }
  }

  /** Taking out one member and then the rest is taking out all. */
  lemma TakeOut(t: set<Ent>, onRq: set<Ent>, e: Ent, rest: set<Ent>, all: set<Ent>)
    requires all == {e} + rest
    ensures (if e in onRq then t - {e} else t) - (rest * onRq) == t - (all * onRq)
  {
  }

  lemma TakeOutMore(x: set<Ent>, onRq: set<Ent>, gone: set<Ent>, e: Ent)
    ensures (if e in onRq then x - (gone * onRq) - {e} else x - (gone * onRq)) == x - ((gone + {e}) * onRq)
  {
  }

  lemma PutInMore(t: set<Ent>, onRq: set<Ent>, put: set<Ent>, gone: set<Ent>, e: Ent)
    requires e !in gone
    ensures var x := t + (put * onRq) - (gone * onRq);
            (if e in onRq then x + {e} else x) == t + ((put + {e}) * onRq) - (gone * onRq)
  {
  }

  /** Members that are put back and set again end up where they were. */
  lemma RoundTripTree(t: set<Ent>, onRq: set<Ent>, a: set<Ent>, b: set<Ent>, shared: set<Ent>)
    requires shared <= a && shared <= b && t !! a
    ensures t + ((a - shared) * onRq) - ((b - shared) * onRq) == t + (a * onRq) - (b * onRq)
  {
  }

  // ---------- the full switch ----------

  lemma {:induction false} PutAllSpec(w: Entities, onRq: set<Ent>, s: State, e: Ent)
    requires w.Valid() && e in w.rq && CurrIs(w, s.curr, w.Chain(e))
    ensures CurrIs(w, PutAll(w, onRq, s, e).curr, {})
    ensures PutAll(w, onRq, s, e).tree == s.tree + (w.Chain(e) * onRq)
    decreases w.depth[e]
  {
    hide CurrIs;
    PutCurr(w, onRq, s, e, w.Chain(e));
    if e in w.parent {
      if e in w.Chain(w.parent[e]) {
        ChainDepth(w, w.parent[e], e);
      }
      assert w.Chain(e) - {e} == w.Chain(w.parent[e]);
      PutAllSpec(w, onRq, Put(w, onRq, s, e), w.parent[e]);
    }
  }

  lemma {:induction false} SetAllSpec(w: Entities, onRq: set<Ent>, s: State, e: Ent, xs: set<Ent>)
    requires w.Valid() && e in w.rq && CurrIs(w, s.curr, xs)
    requires forall x :: x in xs ==> x in w.rq && w.depth[e] < w.depth[x]
    ensures CurrIs(w, SetAll(w, onRq, s, e).curr, xs + w.Chain(e))
    ensures SetAll(w, onRq, s, e).tree == s.tree - (w.Chain(e) * onRq)
    decreases w.depth[e]
  {
    hide CurrIs;
    FreeRq(w, s.curr, xs, e);
    SetCurr(w, onRq, s, e, xs);
    if e in w.parent {
      var rest := w.Chain(w.parent[e]);
      SetAllSpec(w, onRq, Set(w, onRq, s, e), w.parent[e], xs + {e});
      assert xs + {e} + rest == xs + w.Chain(e);
      TakeOut(s.tree, onRq, e, rest, w.Chain(e));
    } else {
      assert xs + {e} == xs + w.Chain(e);
      TakeOut(s.tree, onRq, e, {}, w.Chain(e));
    }
  }

  // ---------- the partial switch ----------

  /** How far the walk has come: below `pse` the old path is put back, below `se` the new one is
      set, and neither path has reached the other. */
  ghost predicate Midway(w: Entities, onRq: set<Ent>, s0: State, prev: Ent, p: Ent, s: State, pse: Ent, se: Ent)
    requires w.Valid() && prev in w.rq && p in w.rq
  {
    && pse in w.rq && se in w.rq && pse in w.Chain(prev) && se in w.Chain(p)
    && (w.depth[se] > w.depth[pse] ==> pse == prev)
    && (w.depth[se] < w.depth[pse] ==> se == p)
    && pse !in w.Chain(p) && se !in w.Chain(prev)
    && CurrIs(w, s.curr, w.Chain(pse) + (w.Chain(p) - w.Chain(se)))
    && s.tree == s0.tree + ((w.Chain(prev) - w.Chain(pse)) * onRq) - ((w.Chain(p) - w.Chain(se)) * onRq)
  }

  /** Moving up the old path cannot run into the new one before they share a runqueue. */
  lemma StaysApart(w: Entities, prev: Ent, p: Ent, pse: Ent, se: Ent)
    requires w.Valid() && prev in w.rq && p in w.rq && pse in w.rq && se in w.rq
    requires se in w.Chain(p) && w.rq[se] != w.rq[pse] && w.depth[se] <= w.depth[pse]
    requires w.depth[se] < w.depth[pse] ==> se == p
    requires pse in w.parent && pse !in w.Chain(p)
    requires forall e :: e in w.rq ==> !(e in w.parent && w.parent[e] == p)
    ensures w.parent[pse] !in w.Chain(p)
  {
    var up := w.parent[pse];
    if up in w.Chain(p) {
      if up == p {
        assert false;
      }
      var c := ChildInChain(w, p, up);
      ChainDepth(w, p, c);
      SameDepthInChain(w, p, c, se);
    }
  }

  /** Taking one entity off the bottom of a chain. */
  lemma ChainStep(w: Entities, e: Ent, x: Ent)
    requires w.Valid() && e in w.rq && x in w.Chain(e) && x in w.parent
    ensures x !in w.Chain(w.parent[x]) && w.Chain(x) == {x} + w.Chain(w.parent[x])
    ensures w.parent[x] in w.Chain(e)
    ensures w.Chain(e) - w.Chain(w.parent[x]) == (w.Chain(e) - w.Chain(x)) + {x}
  {
    if x in w.Chain(w.parent[x]) {
      ChainDepth(w, w.parent[x], x);
    }
    ChainOfMember(w, e, x);
  }

  /** Entities already set lie strictly deeper than `se`. */
  lemma SetOnesAreDeeper(w: Entities, p: Ent, se: Ent, x: Ent)
    requires w.Valid() && p in w.rq && se in w.Chain(p) && se in w.rq && x in w.Chain(p) - w.Chain(se)
    ensures x in w.rq && w.depth[x] > w.depth[se]
    decreases if p in w.depth then w.depth[p] else 0
  {
    ChainDepth(w, p, x);
    if p != se && x != p {
      SetOnesAreDeeper(w, w.parent[p], se, x);
    } else if p != se {
      ChainDepth(w, p, se);
    }
  }

  lemma PutMidway(w: Entities, onRq: set<Ent>, s0: State, prev: Ent, p: Ent, s: State, pse: Ent, se: Ent)
    requires w.Valid() && prev in w.rq && p in w.rq && Midway(w, onRq, s0, prev, p, s, pse, se)
    ensures w.rq[pse] in s.curr && s.curr[w.rq[pse]] == pse
    ensures CurrIs(w, Put(w, onRq, s, pse).curr, w.Chain(pse) - {pse} + (w.Chain(p) - w.Chain(se)))
    ensures Put(w, onRq, s, pse).tree
         == s0.tree + ((w.Chain(prev) - w.Chain(pse) + {pse}) * onRq) - ((w.Chain(p) - w.Chain(se)) * onRq)
  {
    var xs := w.Chain(pse) + (w.Chain(p) - w.Chain(se));
    assert pse in xs;
    PutCurr(w, onRq, s, pse, xs);
    PutInMore(s0.tree, onRq, w.Chain(prev) - w.Chain(pse), w.Chain(p) - w.Chain(se), pse);
    assert xs - {pse} == w.Chain(pse) - {pse} + (w.Chain(p) - w.Chain(se));
  }

  /** With the old path put back below this depth, the runqueue of `se` is free to take it. */
  lemma SetMidway(w: Entities, onRq: set<Ent>, s: State, p: Ent, se: Ent, rest: set<Ent>, base: set<Ent>)
    requires w.Valid() && p in w.rq && se in w.rq && se in w.Chain(p)
    requires CurrIs(w, s.curr, rest + (w.Chain(p) - w.Chain(se)))
    requires forall x :: x in rest ==> x in w.rq && w.depth[x] < w.depth[se]
    requires s.tree == base - ((w.Chain(p) - w.Chain(se)) * onRq)
    ensures w.rq[se] !in s.curr
    ensures Set(w, onRq, s, se).tree == base - ((w.Chain(p) - w.Chain(se) + {se}) * onRq)
    ensures CurrIs(w, Set(w, onRq, s, se).curr, rest + (w.Chain(p) - w.Chain(se) + {se}))
  {
    hide CurrIs;
    var xs := rest + (w.Chain(p) - w.Chain(se));
    forall x | x in xs
      ensures x in w.rq && w.depth[x] != w.depth[se]
    {
      if x !in rest {
        SetOnesAreDeeper(w, p, se, x);
      }
    }
    FreeRq(w, s.curr, xs, se);
    SetCurr(w, onRq, s, se, xs);
    TakeOutMore(base, onRq, w.Chain(p) - w.Chain(se), se);
    assert xs + {se} == rest + (w.Chain(p) - w.Chain(se) + {se});
  }

  lemma BothMidway(w: Entities, onRq: set<Ent>, s0: State, prev: Ent, p: Ent, s: State, pse: Ent, se: Ent)
    requires w.Valid() && prev in w.rq && p in w.rq && Midway(w, onRq, s0, prev, p, s, pse, se)
    requires forall e :: e in w.parent ==> w.parent[e] != p && w.parent[e] != prev
    requires w.rq[se] != w.rq[pse] && w.depth[se] == w.depth[pse]
    ensures se in w.parent && pse in w.parent
    ensures w.rq[pse] in s.curr && s.curr[w.rq[pse]] == pse
    ensures w.rq[se] !in Put(w, onRq, s, pse).curr
    ensures Midway(w, onRq, s0, prev, p, Set(w, onRq, Put(w, onRq, s, pse), se), w.parent[pse], w.parent[se])
  {
    hide CurrIs, Put, Set;
    PutMidway(w, onRq, s0, prev, p, s, pse, se);
    ApartAbove(w, prev, p, pse, se);
    ChainStep(w, prev, pse);
    ChainStep(w, p, se);
    var rest := w.Chain(w.parent[pse]);
    assert w.Chain(pse) - {pse} == rest;
    forall x | x in rest
      ensures x in w.rq && w.depth[x] < w.depth[se]
    {
      ChainDepth(w, w.parent[pse], x);
    }
    SetMidway(w, onRq, Put(w, onRq, s, pse), p, se, rest,
              s0.tree + ((w.Chain(prev) - w.Chain(pse) + {pse}) * onRq));
  }

  lemma ApartAbove(w: Entities, prev: Ent, p: Ent, pse: Ent, se: Ent)
    requires w.Valid() && prev in w.rq && p in w.rq && pse in w.rq && se in w.rq
    requires pse in w.Chain(prev) && se in w.Chain(p) && pse !in w.Chain(p) && se !in w.Chain(prev)
    requires forall e :: e in w.parent ==> w.parent[e] != p && w.parent[e] != prev
    requires w.rq[se] != w.rq[pse] && w.depth[se] == w.depth[pse]
    ensures se in w.parent && pse in w.parent && w.depth[w.parent[se]] == w.depth[w.parent[pse]]
    ensures w.parent[pse] !in w.Chain(p) && w.parent[se] !in w.Chain(prev)
  {
    HasParent(w, se, pse);
    HasParent(w, pse, se);
    StaysApart(w, prev, p, pse, se);
    StaysApart(w, p, prev, se, pse);
  }

  /** Only the root runqueue is at depth zero. */
  lemma HasParent(w: Entities, e: Ent, f: Ent)
    requires w.Valid() && e in w.rq && f in w.rq && w.rq[e] != w.rq[f] && w.depth[e] <= w.depth[f]
    ensures f in w.parent
  {
  }

  class FairClass {
    const w: Entities
    const onRq: set<Ent>
    var s: State
    var warnings: nat

    method PutPrevEntity(e: Ent)
      requires e in w.rq
      modifies this
      ensures s == Put(w, onRq, old(s), e)
      ensures warnings == old(warnings) + (if w.rq[e] in old(s).curr && old(s).curr[w.rq[e]] == e then 0 else 1)
    {
      var tree := if e in onRq then s.tree + {e} else s.tree;
      if !(w.rq[e] in s.curr && s.curr[w.rq[e]] == e) {
        warnings := warnings + 1;
      }
      s := State(s.curr - {w.rq[e]}, tree);
    }

    method SetNextEntity(e: Ent)
      requires e in w.rq
      modifies this
      ensures s == Set(w, onRq, old(s), e)
      ensures warnings == old(warnings) + (if w.rq[e] in old(s).curr then 1 else 0)
    {
      var tree := if e in onRq then s.tree - {e} else s.tree;
      if w.rq[e] in s.curr {
        warnings := warnings + 1;
      }
      s := State(s.curr[w.rq[e] := e], tree);
    }

    /** Switch from `prev`, whose path is the running one, to another task `p`. The two paths are
        walked up in step until they share a runqueue. Nothing is set over a running entity, the
        two sides never meet in the same entity, and the outcome is that of putting back the whole
        old path and setting the whole new one. */
    method PickNext(prev: Ent, p: Ent)
      requires w.Valid() && prev in w.rq && p in w.rq && prev != p
      requires forall e :: e in w.parent ==> w.parent[e] != p && w.parent[e] != prev  // both are tasks
      requires CurrIs(w, s.curr, w.Chain(prev)) && s.tree !! w.Chain(prev)
      modifies this
      ensures warnings == old(warnings)
      ensures s == SetAll(w, onRq, PutAll(w, onRq, old(s), prev), p)
      ensures CurrIs(w, s.curr, w.Chain(p))
    {
      ghost var s0 := s;
      var pse, se := prev, p;
      TasksApart(w, prev, p);
      assert w.Chain(prev) + (w.Chain(p) - w.Chain(p)) == w.Chain(prev);
      while w.rq[se] != w.rq[pse]
        invariant Midway(w, onRq, s0, prev, p, s, pse, se) && warnings == old(warnings)
        decreases w.depth[se] + w.depth[pse]
      {
        var seDepth, pseDepth := w.depth[se], w.depth[pse];
        if seDepth <= pseDepth && seDepth >= pseDepth {
          Both(prev, p, pse, se, s0);
          pse, se := w.parent[pse], w.parent[se];
        } else if seDepth <= pseDepth {
          OldSide(prev, p, pse, se, s0);
          pse := w.parent[pse];
        } else {
          NewSide(prev, p, pse, se, s0);
          se := w.parent[se];
        }
      }
      assert pse != se;
      Finish(prev, p, pse, se, s0);
    }

    /** Both sides at the same depth move up together. */
    method Both(prev: Ent, p: Ent, pse: Ent, se: Ent, ghost s0: State)
      requires w.Valid() && prev in w.rq && p in w.rq && Midway(w, onRq, s0, prev, p, s, pse, se)
      requires forall e :: e in w.parent ==> w.parent[e] != p && w.parent[e] != prev
      requires w.rq[se] != w.rq[pse] && w.depth[se] == w.depth[pse]
      modifies this
      ensures warnings == old(warnings) && se in w.parent && pse in w.parent
      ensures Midway(w, onRq, s0, prev, p, s, w.parent[pse], w.parent[se])
    {
      BothMidway(w, onRq, s0, prev, p, s, pse, se);
      PutPrevEntity(pse);
      SetNextEntity(se);
    }

    method OldSide(prev: Ent, p: Ent, pse: Ent, se: Ent, ghost s0: State)
      requires w.Valid() && prev in w.rq && p in w.rq && Midway(w, onRq, s0, prev, p, s, pse, se)
      requires forall e :: e in w.parent ==> w.parent[e] != p && w.parent[e] != prev
      requires w.depth[se] < w.depth[pse]
      modifies this
      ensures warnings == old(warnings) && pse in w.parent
      ensures Midway(w, onRq, s0, prev, p, s, w.parent[pse], se)
    {
      hide CurrIs;
      assert w.rq[se] != w.rq[pse];
      StaysApart(w, prev, p, pse, se);
      ChainStep(w, prev, pse);
      PutMidway(w, onRq, s0, prev, p, s, pse, se);
      PutPrevEntity(pse);
      assert w.Chain(pse) - {pse} == w.Chain(w.parent[pse]);
    }

    method NewSide(prev: Ent, p: Ent, pse: Ent, se: Ent, ghost s0: State)
      requires w.Valid() && prev in w.rq && p in w.rq && Midway(w, onRq, s0, prev, p, s, pse, se)
      requires forall e :: e in w.parent ==> w.parent[e] != p && w.parent[e] != prev
      requires w.depth[se] > w.depth[pse]
      modifies this
      ensures warnings == old(warnings) && se in w.parent
      ensures Midway(w, onRq, s0, prev, p, s, pse, w.parent[se])
    {
      hide CurrIs;
      assert w.rq[se] != w.rq[pse];
      StaysApart(w, p, prev, se, pse);
      ChainStep(w, p, se);
      forall x | x in w.Chain(pse)
        ensures x in w.rq && w.depth[x] < w.depth[se]
      {
        ChainDepth(w, pse, x);
      }
      SetMidway(w, onRq, s, p, se, w.Chain(pse), s0.tree + ((w.Chain(prev) - w.Chain(pse)) * onRq));
      SetNextEntity(se);
    }

    /** On the shared runqueue the old entity is put back and the new one set. */
    method Finish(prev: Ent, p: Ent, pse: Ent, se: Ent, ghost s0: State)
      requires w.Valid() && prev in w.rq && p in w.rq && Midway(w, onRq, s0, prev, p, s, pse, se)
      requires w.rq[se] == w.rq[pse] && CurrIs(w, s0.curr, w.Chain(prev)) && s0.tree !! w.Chain(prev)
      modifies this
      ensures warnings == old(warnings)
      ensures s == SetAll(w, onRq, PutAll(w, onRq, s0, prev), p) && CurrIs(w, s.curr, w.Chain(p))
    {
      hide CurrIs;
      PutMidway(w, onRq, s0, prev, p, s, pse, se);
      PutPrevEntity(pse);
      ghost var rest := w.Chain(pse) - {pse};
      forall x | x in rest
        ensures x in w.rq && w.depth[x] < w.depth[se]
      {
        ChainDepth(w, pse, x);
      }
      SetMidway(w, onRq, s, p, se, rest, s0.tree + ((w.Chain(prev) - w.Chain(pse) + {pse}) * onRq));
      SetNextEntity(se);
      FinalState(w, onRq, s0, prev, p, s, pse, se);
    }
  }

  lemma FinalState(w: Entities, onRq: set<Ent>, s0: State, prev: Ent, p: Ent, s: State, pse: Ent, se: Ent)
    requires w.Valid() && prev in w.rq && p in w.rq && pse in w.rq && se in w.rq
    requires pse in w.Chain(prev) && se in w.Chain(p) && w.rq[pse] == w.rq[se]
    requires CurrIs(w, s0.curr, w.Chain(prev)) && s0.tree !! w.Chain(prev)
    requires CurrIs(w, s.curr, w.Chain(pse) - {pse} + (w.Chain(p) - w.Chain(se) + {se}))
    requires s.tree == s0.tree + ((w.Chain(prev) - w.Chain(pse) + {pse}) * onRq)
                       - ((w.Chain(p) - w.Chain(se) + {se}) * onRq)
    ensures s == SetAll(w, onRq, PutAll(w, onRq, s0, prev), p) && CurrIs(w, s.curr, w.Chain(p))
  {
    hide CurrIs;
    var a, b, shared := w.Chain(prev), w.Chain(p), w.Chain(pse) - {pse};
    SharedAbove(w, prev, p, pse, se);
    assert shared + (b - w.Chain(se) + {se}) == b;
    assert a - w.Chain(pse) + {pse} == a - shared;
    assert b - w.Chain(se) + {se} == b - shared;
    RoundTripTree(s0.tree, onRq, a, b, shared);
    PutAllSpec(w, onRq, s0, prev);
    SetAllSpec(w, onRq, PutAll(w, onRq, s0, prev), p, {});
    assert {} + b == b;
    CurrIsUnique(w, s.curr, SetAll(w, onRq, PutAll(w, onRq, s0, prev), p).curr, b);
  }

  lemma TasksApart(w: Entities, prev: Ent, p: Ent)
    requires w.Valid() && prev in w.rq && p in w.rq && prev != p
    requires forall e :: e in w.parent ==> w.parent[e] != p && w.parent[e] != prev
    ensures prev !in w.Chain(p) && p !in w.Chain(prev)
  {
    if prev in w.Chain(p) {
      var c := ChildInChain(w, p, prev);
    }
    if p in w.Chain(prev) {
      var c := ChildInChain(w, prev, p);
    }
  }

  lemma ProperChain(w: Entities, x: Ent)
    requires w.Valid() && x in w.rq
    ensures w.Chain(x) - {x} == if x in w.parent then w.Chain(w.parent[x]) else {}
  {
    if x in w.parent {
      ChainStep(w, x, x);
    }
  }

  /** Above a shared runqueue both paths are the same, and below it they share nothing. */
  lemma SharedAbove(w: Entities, prev: Ent, p: Ent, pse: Ent, se: Ent)
    requires w.Valid() && prev in w.rq && p in w.rq && pse in w.rq && se in w.rq
    requires pse in w.Chain(prev) && se in w.Chain(p) && w.rq[pse] == w.rq[se]
    ensures w.Chain(pse) - {pse} == w.Chain(se) - {se}
    ensures w.Chain(se) <= w.Chain(p) && w.Chain(pse) <= w.Chain(prev)
  {
    ChainOfMember(w, p, se);
    ChainOfMember(w, prev, pse);
    ProperChain(w, pse);
    ProperChain(w, se);
    SameRqSameDepth(w, pse, se);
  }
}
