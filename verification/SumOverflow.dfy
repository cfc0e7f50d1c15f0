/** The weighted sum in 64 bits. Keys, products and sums wrap without notice except where an entity
    joins with overflow checks on; a failed check scales all weights down and recomputes the sum,
    again unchecked, until the check passes or the shift has reached its limit. */
module SumOverflow {
  import opened Common
  import opened VirtualTime

  /** Neither the product nor the new sum leaves 64 bits when `se` joins `q` at this shift. */
  predicate Fits(q: seq<Entity>, se: Entity, v0: int, shift: nat) {
    var term := Term(se, shift, v0);
    FitsS64(term) && FitsS64(SumKey(q, shift, v0) + term)
  }

  /** The same check as the machine makes it: on the wrapped key and on the sum accumulated in 64
      bits without checks. */
  predicate MachineFits(q: seq<Entity>, se: Entity, v0: int, shift: nat) {
    var term := MachineKey(se.vruntime, v0) * AvgWeight(shift, se.weight);
    FitsS64(term) && FitsS64(MachineSum(0, q, shift, v0) + term)
  }

  // ---------- one check ----------

  /** Whether both checks give the same answer, in terms of the exact sum and the exact product. */
  predicate SameAnswer(sum: int, term: int) {
    || !FitsS64(term) || FitsS64(sum)
    || (!(-TWO64 <= sum < TWO64) && !FitsS64(AsS64(sum) + term))
  }

  /** The two answers on plain numbers. */
  lemma SameAnswerIsExact(sum: int, term: int)
    requires FitsS64(term)
    ensures (FitsS64(AsS64(sum) + term) <==> FitsS64(sum + term)) <==> SameAnswer(sum, term)
    ensures -TWO64 <= sum < TWO64 ==> (SameAnswer(sum, term) <==> FitsS64(sum))
  {
    var k := AsS64Shifts(sum);
  }

  lemma MachineSumWraps(q: seq<Entity>, shift: nat, v0: int)
    ensures MachineSum(0, q, shift, v0) == AsS64(SumKey(q, shift, v0))
  {
    hide SumKey, MachineSum, AsS64;
    var k := MachineSumShifts(0, q, shift, v0);
    SignedIsUnique(MachineSum(0, q, shift, v0), SumKey(q, shift, v0), k);
  }

  /** A 64-bit number that differs from `x` by whole words is what `x` wraps to. */
  lemma SignedIsUnique(y: int, x: int, k: int)
    requires FitsS64(y) && y == x + k * TWO64
    ensures y == AsS64(x)
  {
    WrapIsPeriodic(x, k);
    var _ := AsS64Shifts(y);
  }

  /** The machine's check answers as the exact one if and only if the exact sum fits, the product
      alone is already too large, or the sum is so far out that both refuse. */
  lemma MachineFitsAgrees(q: seq<Entity>, se: Entity, v0: int, shift: nat)
    requires FitsS64(se.vruntime - v0)
    ensures (MachineFits(q, se, v0, shift) <==> Fits(q, se, v0, shift))
       <==> SameAnswer(SumKey(q, shift, v0), Term(se, shift, v0))
    ensures MachineFits(q, se, v0, shift) && Fits(q, se, v0, shift) ==>
              && FitsS64(SumKey(q, shift, v0))
              && MachineAdd(MachineSum(0, q, shift, v0), se, shift, v0) == SumKey(q, shift, v0) + Term(se, shift, v0)
  {
    hide SumKey, MachineSum, AsS64, WrapU64, AvgWeight;
    KeyOfWrapped(se.vruntime, v0);
    MachineSumWraps(q, shift, v0);
    var sum, term := SumKey(q, shift, v0), Term(se, shift, v0);
    if FitsS64(term) {
      SameAnswerIsExact(sum, term);
      if MachineFits(q, se, v0, shift) && Fits(q, se, v0, shift) {
        BothAccept(q, se, v0, shift);
      }
    }
  }

  lemma BothAccept(q: seq<Entity>, se: Entity, v0: int, shift: nat)
    requires FitsS64(se.vruntime - v0) && MachineFits(q, se, v0, shift) && Fits(q, se, v0, shift)
    ensures FitsS64(SumKey(q, shift, v0))
    ensures MachineAdd(MachineSum(0, q, shift, v0), se, shift, v0) == SumKey(q, shift, v0) + Term(se, shift, v0)
  {
    hide SumKey, MachineSum, WrapU64, AvgWeight;
    KeyOfWrapped(se.vruntime, v0);
    MachineSumWraps(q, shift, v0);
    var sum := SumKey(q, shift, v0);
    var k := AsS64Shifts(sum);
    assert k == 0;
    var k' := MachineAddShifts(sum, se, shift, v0);
    hide MachineAdd, Term, AsS64;
    assert k' == 0;
  }

  // ---------- the retry loop ----------

  /** The shift at which an exact check lets the entity in, trying `from` and every larger one. */
  function ExactShift(q: seq<Entity>, se: Entity, v0: int, from: nat): Option<nat>
    decreases MAX_SHIFT + 1 - from
  {
    if from > MAX_SHIFT then None
    else if Fits(q, se, v0, from) then Some(from)
    else ExactShift(q, se, v0, from + 1)
  }

  lemma ExactShiftStep(q: seq<Entity>, se: Entity, v0: int, from: nat)
    requires from <= MAX_SHIFT
    ensures Fits(q, se, v0, from) ==> ExactShift(q, se, v0, from) == Some(from)
    ensures !Fits(q, se, v0, from) && from < MAX_SHIFT ==>
              ExactShift(q, se, v0, from) == ExactShift(q, se, v0, from + 1)
    ensures !Fits(q, se, v0, from) && from == MAX_SHIFT ==> ExactShift(q, se, v0, from).None?
  {
  }

  /** The shift at which the machine's loop lets it in; `None` is the fatal check. */
  function MachineShift(q: seq<Entity>, se: Entity, v0: int, from: nat): Option<nat>
    decreases MAX_SHIFT + 1 - from
  {
    if from > MAX_SHIFT then None
    else if MachineFits(q, se, v0, from) then Some(from)
    else MachineShift(q, se, v0, from + 1)
  }

  /** With exact checks the loop gets to this shift. */
  ghost predicate Reached(q: seq<Entity>, se: Entity, v0: int, from: nat, shift: nat) {
    from <= shift <= MAX_SHIFT && forall s :: from <= s < shift ==> !Fits(q, se, v0, s)
  }

  ghost predicate SameOnTheWay(q: seq<Entity>, se: Entity, v0: int, from: nat) {
    forall s :: Reached(q, se, v0, from, s) ==> SameAnswer(SumKey(q, s, v0), Term(se, s, v0))
  }

  /** The machine's loop ends as the exact one would, at the same shift and with the exact sum or in
      the fatal check, if and only if at every shift the exact one tries the sum and the product are
      such that both checks answer alike. */
  lemma {:induction false} RetryIsExact(q: seq<Entity>, se: Entity, v0: int, from: nat)
    requires FitsS64(se.vruntime - v0)
    ensures MachineShift(q, se, v0, from) == ExactShift(q, se, v0, from) <==> SameOnTheWay(q, se, v0, from)
    ensures var shift := MachineShift(q, se, v0, from);
            shift == ExactShift(q, se, v0, from) && shift.Some? ==>
              MachineAdd(MachineSum(0, q, shift.value, v0), se, shift.value, v0)
              == SumKey(q, shift.value, v0) + Term(se, shift.value, v0)
    decreases MAX_SHIFT + 1 - from
  {
    hide Fits, MachineFits, SameAnswer, SumKey, MachineSum, MachineAdd, Term;
    ShiftsAreLater(q, se, v0, from + 1);
    if from <= MAX_SHIFT {
      MachineFitsAgrees(q, se, v0, from);
      assert Reached(q, se, v0, from, from);
      RetryIsExact(q, se, v0, from + 1);
      if !Fits(q, se, v0, from) {
        forall s
          ensures Reached(q, se, v0, from, s) <==> s == from || Reached(q, se, v0, from + 1, s)
        {
        }
      } else {
        assert forall s :: Reached(q, se, v0, from, s) ==> s == from;
      }
    }
  }

  lemma {:induction false} ShiftsAreLater(q: seq<Entity>, se: Entity, v0: int, from: nat)
    ensures ExactShift(q, se, v0, from).Some? ==> from <= ExactShift(q, se, v0, from).value
    ensures MachineShift(q, se, v0, from).Some? ==> from <= MachineShift(q, se, v0, from).value
    decreases if from > MAX_SHIFT then 0 else MAX_SHIFT + 1 - from
  {
    if from <= MAX_SHIFT {
      ShiftsAreLater(q, se, v0, from + 1);
    }
  }

  // ---------- a run that goes wrong ----------

  const EXP60: int := 0x1000_0000_0000_0000

  lemma SumKeyAppend(es: seq<Entity>, e: Entity, shift: nat, v0: int)
    ensures SumKey(es + [e], shift, v0) == SumKey(es, shift, v0) + Term(e, shift, v0)
  {
    SumsOfInsertion(es, e, [], shift, v0);
    assert es + [e] + [] == es + [e] && es + [] == es;
  }

  /** Scaled weights do not fall below 2. */
  lemma LeastWeight(shift: nat, w: Weight)
    requires 1 <= shift && w <= 4
    ensures AvgWeight(shift, w) == 2
  {
    var p := Pow2(shift);
    assert p == 2 * Pow2(shift - 1) >= 2;
    if w / p > 2 {
      FloorBounds(w, p);
      MulMonotone(3, w / p, p);
    }
  }

  /** Two kinds of entities take turns: their products cancel while weights are unscaled, and no
      longer once they are. */
  lemma SumOfTurns(a: Entity, b: Entity, shift: nat)
    ensures SumKey([a, b, a, b, a], shift, 0) == 3 * Term(a, shift, 0) + 2 * Term(b, shift, 0)
    ensures SumKey([], shift, 0) == 0 && SumKey([a], shift, 0) == Term(a, shift, 0)
    ensures SumKey([a, b], shift, 0) == Term(a, shift, 0) + Term(b, shift, 0)
    ensures SumKey([a, b, a], shift, 0) == 2 * Term(a, shift, 0) + Term(b, shift, 0)
    ensures SumKey([a, b, a, b], shift, 0) == 2 * Term(a, shift, 0) + 2 * Term(b, shift, 0)
  {
    hide Term;
    SumKeyAppend([], a, shift, 0);
    SumKeyAppend([a], b, shift, 0);
    SumKeyAppend([a, b], a, shift, 0);
    SumKeyAppend([a, b, a], b, shift, 0);
    SumKeyAppend([a, b, a, b], a, shift, 0);
    assert [] + [a] == [a] && [a] + [b] == [a, b] && [a, b] + [a] == [a, b, a];
    assert [a, b, a] + [b] == [a, b, a, b] && [a, b, a, b] + [a] == [a, b, a, b, a];
  }

  /** Five entities that joined one after the other, each with room to spare. A sixth does not fit at
      shift 0, for either check. The sum recomputed at shift 1 is 2^63, which wraps: the machine
      lets the entity in there, while an exact check refuses it at every shift. */
  lemma RetryCanMislead(a: Entity, b: Entity, se: Entity)
    requires a.vruntime == 2 * EXP60 && a.weight == 2
    requires b.vruntime == -EXP60 && b.weight == 4
    requires se.vruntime == EXP60 && se.weight == 4
    ensures var q := [a, b, a, b, a];
            && (forall i :: 0 <= i < 5 ==> Fits(q[..i], q[i], 0, 0) && MachineFits(q[..i], q[i], 0, 0))
            && ExactShift(q, se, 0, 0).None?
            && MachineShift(q, se, 0, 0) == Some(1)
  {
    var q := [a, b, a, b, a];
    SumOfTurns(a, b, 0);
    assert Term(a, 0, 0) == 4 * EXP60 && Term(b, 0, 0) == -4 * EXP60 && Term(se, 0, 0) == 4 * EXP60;
    hide Term, AvgWeight, MachineSum, SumKey, AsS64, MachineFits;
    JoinedInTurn(q, a, b);
    MachineFitsAgrees(q, se, 0, 0);
    assert !Fits(q, se, 0, 0) && SameAnswer(SumKey(q, 0, 0), Term(se, 0, 0));
    NeverFits(q, a, b, se, 1);
    MachineAcceptsWrapped(q, a, b, se);
    assert MachineShift(q, se, 0, 1) == Some(1);
  }

  lemma JoinedInTurn(q: seq<Entity>, a: Entity, b: Entity)
    requires q == [a, b, a, b, a] && Term(a, 0, 0) == 4 * EXP60 && Term(b, 0, 0) == -4 * EXP60
    requires FitsS64(a.vruntime) && FitsS64(b.vruntime)
    ensures forall i :: 0 <= i < 5 ==> Fits(q[..i], q[i], 0, 0) && MachineFits(q[..i], q[i], 0, 0)
  {
    hide Term, AvgWeight, MachineSum, SumKey, AsS64, MachineFits;
    SumOfTurns(a, b, 0);
    assert q[..0] == [] && q[..1] == [a] && q[..2] == [a, b] && q[..3] == [a, b, a] && q[..4] == [a, b, a, b];
    forall i | 0 <= i < 5
      ensures Fits(q[..i], q[i], 0, 0) && MachineFits(q[..i], q[i], 0, 0)
    {
      MachineFitsAgrees(q[..i], q[i], 0, 0);
    }
  }

  lemma ScaledTerms(a: Entity, b: Entity, se: Entity, shift: nat)
    requires 1 <= shift && a.vruntime == 2 * EXP60 && b.vruntime == -EXP60 && se.vruntime == EXP60
    requires a.weight <= 4 && b.weight <= 4 && se.weight <= 4
    ensures Term(a, shift, 0) == 4 * EXP60 && Term(b, shift, 0) == -2 * EXP60 && Term(se, shift, 0) == 2 * EXP60
    ensures SumKey([a, b, a, b, a], shift, 0) == 8 * EXP60 == S64_MAX + 1
  {
    LeastWeight(shift, a.weight);
    LeastWeight(shift, b.weight);
    LeastWeight(shift, se.weight);
    hide AvgWeight;
    SumOfTurns(a, b, shift);
  }

  lemma {:induction false} NeverFits(q: seq<Entity>, a: Entity, b: Entity, se: Entity, from: nat)
    requires q == [a, b, a, b, a] && 1 <= from
    requires a.vruntime == 2 * EXP60 && b.vruntime == -EXP60 && se.vruntime == EXP60
    requires a.weight <= 4 && b.weight <= 4 && se.weight <= 4
    ensures ExactShift(q, se, 0, from).None?
    decreases if from > MAX_SHIFT then 0 else MAX_SHIFT + 1 - from
  {
    hide Term, SumKey;
    if from <= MAX_SHIFT {
      ScaledTerms(a, b, se, from);
      NeverFits(q, a, b, se, from + 1);
    }
  }

  lemma MachineAcceptsWrapped(q: seq<Entity>, a: Entity, b: Entity, se: Entity)
    requires q == [a, b, a, b, a]
    requires a.vruntime == 2 * EXP60 && b.vruntime == -EXP60 && se.vruntime == EXP60
    requires a.weight <= 4 && b.weight <= 4 && se.weight <= 4
    ensures MachineFits(q, se, 0, 1)
  {
    hide Term, SumKey, MachineSum, AvgWeight, MachineFits;
    ScaledTerms(a, b, se, 1);
    MachineFitsAgrees(q, se, 0, 1);
    assert !Fits(q, se, 0, 1) && !SameAnswer(SumKey(q, 1, 0), Term(se, 1, 0));
  }

  // ---------- the sum over whole runs ----------

  /** What changes the sum: an entity joins at a place, leaves, the zero point moves, or the weights
      are scaled down and the sum is recomputed. */
  datatype Change = Join(i: nat, e: Entity) | Leave(i: nat) | Rebase(d: int) | Rescale

  /** The entities that count, how far their weights are scaled down, and the zero point. */
  datatype Queue = Queue(es: seq<Entity>, shift: nat, v0: int)

  /** The queue as it is, and the sum kept in 64 bits with no check at all. */
  datatype Ledger = Ledger(q: Queue, sum: int)

  predicate Possible(q: Queue, c: Change) {
    match c
    case Join(i, _) => i <= |q.es|
    case Leave(i) => i < |q.es|
    case _ => true
  }

  function Changed(q: Queue, c: Change): Queue
    requires Possible(q, c)
  {
    match c
    case Join(i, e) => q.(es := q.es[..i] + [e] + q.es[i..])
    case Leave(i) => q.(es := q.es[..i] + q.es[i + 1..])
    case Rebase(d) => q.(v0 := q.v0 + d)
    case Rescale => q.(shift := q.shift + 1)
  }

  /** What is computed at each change. */
  function NewSum(sum: int, q: Queue, c: Change): int
    requires Possible(q, c)
  {
    match c
    case Join(i, e) => MachineAdd(sum, e, q.shift, q.v0)
    case Leave(i) => AsS64(sum - AsS64(MachineKey(q.es[i].vruntime, q.v0) * AvgWeight(q.shift, q.es[i].weight)))
    case Rebase(d) => AsS64(sum - AsS64(SumWeight(q.es, q.shift) * d))
    case Rescale => MachineSum(0, q.es, q.shift + 1, q.v0)
  }

  function Apply(l: Ledger, c: Change): Ledger
    requires Possible(l.q, c)
  {
    Ledger(Changed(l.q, c), NewSum(l.sum, l.q, c))
  }

  function ExactSum(q: Queue): int {
    SumKey(q.es, q.shift, q.v0)
  }

  /** The kept sum is what the exact sum wraps to. */
  ghost predicate Wrapped(l: Ledger) {
    l.sum == AsS64(ExactSum(l.q))
  }

  lemma AddWraps(x: int, y: int)
    ensures AsS64(AsS64(x) + AsS64(y)) == AsS64(x + y)
    ensures AsS64(AsS64(x) - AsS64(y)) == AsS64(x - y)
  {
    var j := AsS64Shifts(x);
    var k := AsS64Shifts(y);
    WrapIsPeriodic(x + y, j + k);
    WrapIsPeriodic(x - y, j - k);
  }

  lemma TermWraps(e: Entity, shift: nat, v0: int)
    ensures AsS64(MachineKey(e.vruntime, v0) * AvgWeight(shift, e.weight)) == AsS64(Term(e, shift, v0))
  {
    var w := AvgWeight(shift, e.weight);
    KeyOfWrapped(e.vruntime, v0);
    var k := AsS64Shifts(e.vruntime - v0);
    assert MachineKey(e.vruntime, v0) * w == (e.vruntime - v0) * w + (k * w) * TWO64 by {
      DistributeLeft(e.vruntime - v0, -(k * TWO64), w);
      assert (k * TWO64) * w == (k * w) * TWO64;
    }
    WrapIsPeriodic((e.vruntime - v0) * w, k * w);
  }

  lemma ChangeKeepsWrapped(l: Ledger, c: Change)
    requires Wrapped(l) && Possible(l.q, c)
    ensures Wrapped(Apply(l, c))
  {
    hide AsS64, Term, MachineSum, SumKey, SumWeight, AvgWeight, MachineKey;
    var Queue(es, shift, v0) := l.q;
    var sum := ExactSum(l.q);
    match c
    case Join(i, e) =>
      SumsOfInsertion(es[..i], e, es[i..], shift, v0);
      assert es[..i] + es[i..] == es;
      TermWraps(e, shift, v0);
      AddWraps(sum, Term(e, shift, v0));
    case Leave(i) =>
      var e := es[i];
      SumsOfInsertion(es[..i], e, es[i + 1..], shift, v0);
      assert es[..i] + [e] + es[i + 1..] == es;
      TermWraps(e, shift, v0);
      AddWraps(sum, Term(e, shift, v0));
    case Rebase(d) =>
      RebaseSum(es, shift, v0, d);
      assert SumWeight(es, shift) * d == d * SumWeight(es, shift);
      AddWraps(sum, SumWeight(es, shift) * d);
    case Rescale => MachineSumWraps(es, shift + 1, v0);
  }

  ghost predicate Runs(l: Ledger, cs: seq<Change>, l': Ledger)
    decreases |cs|
  {
    if cs == [] then l == l' else Possible(l.q, cs[0]) && Runs(Apply(l, cs[0]), cs[1..], l')
  }

  /** Through any run of changes, none of them checked, the sum kept in 64 bits stays what the exact
      sum wraps to; so it is exact whenever the exact sum fits, whatever happened before. */
  lemma {:induction false} RunKeepsWrapped(l: Ledger, cs: seq<Change>, l': Ledger)
    requires Wrapped(l) && Runs(l, cs, l')
    ensures Wrapped(l') && (l'.sum == ExactSum(l'.q) <==> FitsS64(ExactSum(l'.q)))
    decreases |cs|
  {
    hide Apply;
    if cs == [] {
      var _ := AsS64Shifts(ExactSum(l.q));
    } else {
      ChangeKeepsWrapped(l, cs[0]);
      RunKeepsWrapped(Apply(l, cs[0]), cs[1..], l');
    }
  }

  /** Any queue can follow any other whose weights are not scaled down further, so the runs leave nothing
      out. */
  lemma {:induction false} AnyQueueCanFollow(l: Ledger, q: Queue) returns (cs: seq<Change>, l': Ledger)
    requires l.q.shift <= q.shift
    ensures Runs(l, cs, l') && l'.q == q
    decreases !(l.q.es <= q.es), if l.q.es <= q.es then |q.es| - |l.q.es| else |l.q.es|,
              q.shift - l.q.shift, l.q.v0 != q.v0
  {
    hide NewSum;
    cs, l' := [], l;
    if l.q != q {
      var c := if !(l.q.es <= q.es) then Leave(|l.q.es| - 1)
               else if |l.q.es| < |q.es| then Join(|l.q.es|, q.es[|l.q.es|])
               else if l.q.shift < q.shift then Rescale
               else Rebase(q.v0 - l.q.v0);
      var rest;
      rest, l' := AnyQueueCanFollow(Apply(l, c), q);
      cs := [c] + rest;
      assert cs[1..] == rest;
    }
  }
}
