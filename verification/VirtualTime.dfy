/** Virtual time of one fair runqueue: weighted sums relative to a movable zero point, their
    floor-divided average, and eligibility decided without a division.

    Virtual runtimes are unbounded integers here; `KeyOfWrapped` at the end ties them to the
    64-bit wrapping arithmetic the scheduler uses.  */
module VirtualTime {

  import opened Common

  type Weight = w: int | 0 < w witness 1

  /** The part of a schedulable entity that decides fairness. */
  datatype Entity = Entity(id: nat, vruntime: int, deadline: int, slice: nat, weight: Weight)

  const MAX_SHIFT: nat := 10
  const S64_MIN: int := -0x8000_0000_0000_0000
  const S64_MAX: int := 0x7fff_ffff_ffff_ffff
  const TWO64: int := 0x1_0000_0000_0000_0000

  predicate FitsS64(x: int) {
    S64_MIN <= x <= S64_MAX
  }

  function Pow2(n: nat): (p: nat)
    ensures 0 < p
  {
    if n == 0 then 1 else 2 * Pow2(n - 1)
  }

  /** The weight an entity counts with once the sums had to be scaled down `shift` times. */
  function AvgWeight(shift: nat, w: Weight): Weight {
    if shift == 0 then w else Max(2, w / Pow2(shift))
  }

  /** Every scaling down halves the counted weight, rounding down but never below two. */
  lemma EachShiftHalves(shift: nat, w: Weight)
    ensures AvgWeight(0, w) == w
    ensures AvgWeight(shift + 1, w) == Max(2, AvgWeight(shift, w) / 2)
  {
    HalfOfQuotient(w, Pow2(shift));
  }

  lemma HalfOfQuotient(w: int, p: int)
    requires p > 0
    ensures w / (2 * p) == w / p / 2
  {
    var q := w / p / 2;
    assert w == (2 * q + w / p % 2) * p + w % p;
    assert (2 * q + w / p % 2) * p == q * (2 * p) + w / p % 2 * p;
    assert w / p % 2 * p <= p;
    QuotientUnique(w, 2 * p, q);
  }

  /** Total counted weight of a list of entities. */
  function SumWeight(es: seq<Entity>, shift: nat): (s: nat)
    ensures es != [] ==> 0 < s
  {
    if es == [] then 0 else AvgWeight(shift, es[0].weight) + SumWeight(es[1..], shift)
  }

  /** Weighted distance of one entity from the zero point. */
  function Term(e: Entity, shift: nat, v0: int): int {
    (e.vruntime - v0) * AvgWeight(shift, e.weight)
  }

  /** Total weighted distance of a list of entities from the zero point `v0`. */
  function SumKey(es: seq<Entity>, shift: nat, v0: int): int {
    if es == [] then 0
    else Term(es[0], shift, v0) + SumKey(es[1..], shift, v0)
  }

  /** An entity at `v` has received no more service than it is owed: its lag is not negative. */
  ghost predicate Eligible(es: seq<Entity>, shift: nat, v: int) {
    SumKey(es, shift, 0) >= v * SumWeight(es, shift)
  }

  /** The weighted average of all virtual runtimes, rounded towards minus infinity. */
  function Average(es: seq<Entity>, shift: nat): int
    requires es != []
  {
    SumKey(es, shift, 0) / SumWeight(es, shift)
  }

  // ---------- sums over concatenations ----------

  lemma {:induction false} SumsOfConcat(a: seq<Entity>, b: seq<Entity>, shift: nat, v0: int)
    ensures SumWeight(a + b, shift) == SumWeight(a, shift) + SumWeight(b, shift)
    ensures SumKey(a + b, shift, v0) == SumKey(a, shift, v0) + SumKey(b, shift, v0)
  {
    if a == [] {
      assert a + b == b;
    } else {
      assert (a + b)[1..] == a[1..] + b;
      SumsOfConcat(a[1..], b, shift, v0);
    }
  }

  /** Placing one entity anywhere in a list adds exactly its own terms to both sums. */
  lemma SumsOfInsertion(a: seq<Entity>, e: Entity, b: seq<Entity>, shift: nat, v0: int)
    ensures SumWeight(a + [e] + b, shift) == SumWeight(a + b, shift) + AvgWeight(shift, e.weight)
    ensures SumKey(a + [e] + b, shift, v0)
         == SumKey(a + b, shift, v0) + Term(e, shift, v0)
  {
    SumsOfConcat(a + [e], b, shift, v0);
    SumsOfConcat(a, [e], shift, v0);
    SumsOfConcat(a, b, shift, v0);
    assert SumKey([e], shift, v0) == Term(e, shift, v0) + SumKey([], shift, v0);
  }

  lemma DistributeLeft(x: int, d: int, w: int)
    ensures (x - d) * w == x * w - d * w
  {
  }

  lemma DistributeRight(d: int, a: int, b: int)
    ensures d * (a + b) == d * a + d * b
  {
  }

  /** Moving the zero point by `d` shifts the weighted sum by `d` times the total weight. */
  lemma {:induction false} RebaseSum(es: seq<Entity>, shift: nat, v0: int, d: int)
    ensures SumKey(es, shift, v0 + d) == SumKey(es, shift, v0) - d * SumWeight(es, shift)
  {
    if es != [] {
      var w, rest := AvgWeight(shift, es[0].weight), SumWeight(es[1..], shift);
      RebaseSum(es[1..], shift, v0, d);
      DistributeLeft(es[0].vruntime - v0, d, w);
      DistributeRight(d, w, rest);
      calc {
        SumKey(es, shift, v0 + d);
        (es[0].vruntime - v0 - d) * w + SumKey(es[1..], shift, v0 + d);
        SumKey(es, shift, v0) - d * w - d * rest;
        SumKey(es, shift, v0) - d * SumWeight(es, shift);
      }
    }
  }

  // ---------- eligibility and the average ----------

  /** The division-free test relative to any zero point gives the zero-point-free answer, so
      re-basing the zero point changes no eligibility answer. */
  lemma EligibleAtAnyBase(es: seq<Entity>, shift: nat, v0: int, v: int)
    ensures SumKey(es, shift, v0) >= (v - v0) * SumWeight(es, shift) <==> Eligible(es, shift, v)
  {
    RebaseSum(es, shift, 0, v0);
    var w := SumWeight(es, shift);
    assert (v - v0) * w == v * w - v0 * w;
  }

  lemma FloorBounds(a: int, b: int)
    requires b > 0
    ensures a / b * b <= a < (a / b + 1) * b
    ensures a < a / b * b + b
  {
    assert a == a / b * b + a % b;
    assert (a / b + 1) * b == a / b * b + b;
  }

  lemma MulMonotone(x: int, y: int, w: int)
    requires x <= y && 0 <= w
    ensures x * w <= y * w
  {
  }

  /** The average is exactly the largest eligible integer. */
  lemma AverageIsLargestEligible(es: seq<Entity>, shift: nat, v: int)
    requires es != []
    ensures Eligible(es, shift, v) <==> v <= Average(es, shift)
  {
    var s, w := SumKey(es, shift, 0), SumWeight(es, shift);
    FloorBounds(s, w);
    if v <= s / w {
      MulMonotone(v, s / w, w);
    } else {
      MulMonotone(s / w + 1, v, w);
    }
  }

  /** The total weighted lag: the sum over all entities of weight times (`at` minus vruntime). */
  function TotalLag(es: seq<Entity>, shift: nat, at: int): int {
    if es == [] then 0
    else AvgWeight(shift, es[0].weight) * (at - es[0].vruntime) + TotalLag(es[1..], shift, at)
  }

  lemma {:induction false} TotalLagIsNegatedSum(es: seq<Entity>, shift: nat, at: int)
    ensures TotalLag(es, shift, at) == -SumKey(es, shift, at)
  {
    if es != [] {
      TotalLagIsNegatedSum(es[1..], shift, at);
      var w, x := AvgWeight(shift, es[0].weight), es[0].vruntime;
      assert w * (at - x) == -((x - at) * w);
    }
  }

  /** Fair schedulers conserve lag up to rounding: measured from the average, the weighted lags
      add up to more than minus the total weight and at most zero. */
  lemma LagIsConserved(es: seq<Entity>, shift: nat)
    requires es != []
    ensures 0 - SumWeight(es, shift) < TotalLag(es, shift, Average(es, shift)) <= 0
  {
    var s, w := SumKey(es, shift, 0), SumWeight(es, shift);
    var avg := s / w;
    TotalLagIsNegatedSum(es, shift, avg);
    RebaseSum(es, shift, 0, avg);
    FloorBounds(s, w);
    assert (avg + 1) * w == avg * w + w;
  }

  lemma {:induction false} SumAtLeast(es: seq<Entity>, shift: nat, bound: int)
    requires forall i :: 0 <= i < |es| ==> bound <= es[i].vruntime
    ensures SumKey(es, shift, 0) >= bound * SumWeight(es, shift)
  {
    if es != [] {
      SumAtLeast(es[1..], shift, bound);
      var w, rest := AvgWeight(shift, es[0].weight), SumWeight(es[1..], shift);
      MulMonotone(bound, es[0].vruntime, w);
      DistributeRight(bound, w, rest);
    }
  }

  /** On a non-empty queue some entity sits at or below the weighted average. */
  lemma SomeEntityEligible(es: seq<Entity>, shift: nat) returns (i: nat)
    requires es != []
    ensures i < |es| && Eligible(es, shift, es[i].vruntime)
  {
    var avg := Average(es, shift);
    if forall j :: 0 <= j < |es| ==> avg + 1 <= es[j].vruntime {
      SumAtLeast(es, shift, avg + 1);
      AverageIsLargestEligible(es, shift, avg + 1);
      assert false;
    }
    i :| 0 <= i < |es| && es[i].vruntime <= avg;
    AverageIsLargestEligible(es, shift, es[i].vruntime);
  }

  /** An earlier virtual runtime is eligible whenever a later one is. */
  lemma EligibleDownward(es: seq<Entity>, shift: nat, u: int, v: int)
    requires u <= v && Eligible(es, shift, v)
    ensures Eligible(es, shift, u)
  {
    MulMonotone(u, v, SumWeight(es, shift));
  }

  // ---------- machine arithmetic ----------

  /** C division: rounds towards zero. */
  function TruncDiv(a: int, b: int): int
    requires b > 0
  {
    if a >= 0 then a / b else -((-a) / b)
  }

  /** What the truncating division computes once negative sums were moved down by weight - 1. */
  function LeftBiasedDiv(runtime: int, weight: int): int
    requires weight > 0
  {
    TruncDiv(if runtime < 0 then runtime - (weight - 1) else runtime, weight)
  }

  lemma QuotientUnique(a: int, b: int, q: int)
    requires b > 0 && q * b <= a < (q + 1) * b
    ensures a / b == q
  {
    FloorBounds(a, b);
    var p := a / b;
    if p < q {
      MulMonotone(p + 1, q, b);
    } else if q < p {
      MulMonotone(q + 1, p, b);
    }
  }

  /** The sign correction turns truncation into a floor for every sum. */
  lemma LeftBiasIsFloor(runtime: int, weight: int)
    requires weight > 0
    ensures LeftBiasedDiv(runtime, weight) == runtime / weight
  {
    if runtime < 0 {
      var a := -runtime + (weight - 1);
      var q := a / weight;
      FloorBounds(a, weight);
      assert (q + 1) * weight == q * weight + weight;
      assert (-q) * weight == -(q * weight);
      assert (-q + 1) * weight == -(q * weight) + weight;
      QuotientUnique(runtime, weight, -q);
    }
  }

  /** The test used where no 128-bit product exists: on overflow the sign of the key decides. */
  function EligibleOnOverflow(avg: int, key: int, load: int): bool {
    if !FitsS64(key * load) then key <= 0 else avg >= key * load
  }

  lemma OverflowSign(key: int, load: int)
    requires 0 <= load
    ensures key > 0 ==> key * load >= 0
    ensures key <= 0 ==> key * load <= 0
  {
  }

  /** It agrees with the exact comparison for every 64-bit sum and every load. */
  lemma OverflowBranchAgrees(avg: int, key: int, load: int)
    requires FitsS64(avg) && 0 <= load
    ensures EligibleOnOverflow(avg, key, load) <==> avg >= key * load
  {
    OverflowSign(key, load);
  }

  function WrapU64(x: int): int {
    x % TWO64
  }

  function AsS64(x: int): int {
    var u := x % TWO64;
    if u <= S64_MAX then u else u - TWO64
  }

  lemma WrapIsPeriodic(x: int, k: int)
    ensures (x + k * TWO64) % TWO64 == x % TWO64
    ensures AsS64(x + k * TWO64) == AsS64(x)
  {
  }

  /** Reading a machine word as a signed number changes it by a multiple of the word size. */
  lemma AsS64Shifts(x: int) returns (k: int)
    ensures AsS64(x) == x + k * TWO64
    ensures FitsS64(AsS64(x)) && (AsS64(x) == x <==> FitsS64(x))
  {
    k := -(x / TWO64) - (if x % TWO64 <= S64_MAX then 0 else 1);
  }

  /** The signed distance of two wrapped virtual runtimes. */
  function MachineKey(v: int, v0: int): int {
    AsS64(WrapU64(v) - WrapU64(v0))
  }

  /** Wrapping 64-bit virtual runtimes compare and subtract as the unbounded ones do, exactly if the
      true distance fits a signed 64-bit number. */
  lemma KeyOfWrapped(a: int, b: int)
    ensures MachineKey(a, b) == AsS64(a - b)
    ensures MachineKey(a, b) == a - b <==> FitsS64(a - b)
  {
    var k := b / TWO64 - a / TWO64;
    assert WrapU64(a) - WrapU64(b) == (a - b) + k * TWO64;
    WrapIsPeriodic(a - b, k);
    var _ := AsS64Shifts(a - b);
  }

  /** One product and one sum as the machine computes them. */
  function MachineAdd(sum: int, e: Entity, shift: nat, v0: int): int {
    AsS64(sum + AsS64(MachineKey(e.vruntime, v0) * AvgWeight(shift, e.weight)))
  }

  /** The weighted sum accumulated in 64 bits without overflow checks. */
  function MachineSum(sum: int, es: seq<Entity>, shift: nat, v0: int): int
    decreases |es|
  {
    if es == [] then sum else MachineSum(MachineAdd(sum, es[0], shift, v0), es[1..], shift, v0)
  }

  lemma MachineAddShifts(sum: int, e: Entity, shift: nat, v0: int) returns (k: int)
    ensures MachineAdd(sum, e, shift, v0) == sum + Term(e, shift, v0) + k * TWO64
    ensures FitsS64(MachineAdd(sum, e, shift, v0))
  {
    hide AvgWeight, AsS64;
    var w, key := AvgWeight(shift, e.weight), MachineKey(e.vruntime, v0);
    KeyOfWrapped(e.vruntime, v0);
    var k0 := AsS64Shifts(e.vruntime - v0);
    assert key * w == (e.vruntime - v0) * w + (k0 * w) * TWO64 by {
      DistributeLeft(e.vruntime - v0, -(k0 * TWO64), w);
      assert (k0 * TWO64) * w == (k0 * w) * TWO64;
    }
    var k1 := AsS64Shifts(key * w);
    var k2 := AsS64Shifts(sum + AsS64(key * w));
    k := k0 * w + k1 + k2;
  }

  lemma {:induction false} MachineSumShifts(sum: int, es: seq<Entity>, shift: nat, v0: int) returns (k: int)
    requires FitsS64(sum)
    ensures MachineSum(sum, es, shift, v0) == sum + SumKey(es, shift, v0) + k * TWO64
    ensures FitsS64(MachineSum(sum, es, shift, v0))
    decreases |es|
  {
    hide MachineAdd, Term, FitsS64;
    if es == [] {
      k := 0;
    } else {
      var k0 := MachineAddShifts(sum, es[0], shift, v0);
      var k1 := MachineSumShifts(MachineAdd(sum, es[0], shift, v0), es[1..], shift, v0);
      k := k0 + k1;
    }
  }

  /** The sum accumulated in 64 bits is the exact one if and only if the exact one fits, however far
      the keys, the products and the partial sums overflowed on the way. */
  lemma MachineSumExactIffFits(es: seq<Entity>, shift: nat, v0: int)
    ensures MachineSum(0, es, shift, v0) == SumKey(es, shift, v0) <==> FitsS64(SumKey(es, shift, v0))
  {
    var k := MachineSumShifts(0, es, shift, v0);
    assert FitsS64(SumKey(es, shift, v0)) ==> k == 0;
  }

  /** The whole eligibility test in 64 bits, products without 128-bit support included, answers
      "lag not negative" whenever the exact sum and the exact key fit. */
  lemma MachineEligible(es: seq<Entity>, shift: nat, v0: int, v: int)
    requires FitsS64(v - v0) && FitsS64(SumKey(es, shift, v0))
    ensures EligibleOnOverflow(MachineSum(0, es, shift, v0), MachineKey(v, v0), SumWeight(es, shift))
       <==> Eligible(es, shift, v)
  {
    KeyOfWrapped(v, v0);
    MachineSumExactIffFits(es, shift, v0);
    OverflowBranchAgrees(SumKey(es, shift, v0), v - v0, SumWeight(es, shift));
    EligibleAtAnyBase(es, shift, v0, v);
  }
}
