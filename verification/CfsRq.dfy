/** One fair runqueue: the timeline, the running entity kept outside it, and the incrementally
    maintained sums that stand for the average virtual runtime. */
module CfsRqModel {
  import opened Common
  import opened VirtualTime
  import opened EevdfTree
  import opened SumOverflow

  /** The lag to place with, so that the lag left after joining is the saved one. */
  function InflatedLag(vlag: int, load: int, weight: int): int
    requires load > 0
  {
    TruncDiv(vlag * (load + weight), load)
  }

  function PlacedVruntime(es: seq<Entity>, shift: nat, vlag: int, w: Weight): int
    requires es != []
  {
    Average(es, shift) - InflatedLag(vlag, SumWeight(es, shift), AvgWeight(shift, w))
  }

  // ---------- lag survives placement ----------

  /** At most one unit is lost to rounding, always towards zero. */
  predicate KeepsLag(saved: int, now: int) {
    if saved > 0 then saved - 1 <= now <= saved
    else if saved < 0 then saved <= now <= saved + 1
    else now == 0
  }

  /** Whether the saved lag survives placement exactly, decided before the entity joins: `s` is the
      weighted sum of the queue, `W` its weight, `w` the weight that joins. */
  predicate LagSurvives(s: int, W: int, w: int, vlag: int)
    requires W > 0
  {
    if vlag >= 0 then (vlag * (W + w)) % W <= s % W
    else s % W + (-(vlag * (W + w))) % W < W + w
  }

  /** What truncation leaves over. */
  function Remainder(a: int, b: int): int
    requires b > 0
  {
    if a >= 0 then a % b else -((-a) % b)
  }

  lemma TruncRemainder(a: int, b: int)
    requires b > 0
    ensures a - TruncDiv(a, b) * b == Remainder(a, b)
  {
    if a < 0 {
      NegatedProduct((-a) / b, b);
    }
  }

  lemma NegatedProduct(q: int, b: int)
    ensures (-q) * b == -(q * b)
  {
  }

  /** An entity of weight `w` that joins at `avg - lag` has, measured from the new average, the lag it
      wanted plus what the two divisions left over, shared over the new weight. */
  lemma PlacedLag(s: int, W: int, w: int, vlag: int, lag: int)
    requires W > 0 && w > 0
    ensures var v := s / W - lag;
            (s + v * w) / (W + w) - v == vlag + (s % W - (vlag * (W + w) - lag * W)) / (W + w)
  {
    var avg, T := s / W, W + w;
    var v, r, e := avg - lag, s % W, vlag * T - lag * W;
    assert s == avg * W + r;
    assert (s + v * w) - v * T == r + lag * W by {
      DistributeRight(v, W, w);
      DistributeLeft(avg, lag, W);
    }
    ShiftedFloor(s + v * w, T, v, r + lag * W);
    ShiftedFloor(r + lag * W, T, vlag, r - e);
  }

  /** The arithmetic core. `s` is the old weighted sum, `avg` its floor average over weight `W`;
      an entity of weight `w` joins at `avg - lag`. Its lag afterwards is the saved one, or one
      unit nearer to zero exactly if the saved one does not survive. */
  lemma PlacementArithmetic(s: int, W: int, w: int, vlag: int)
    requires W > 0 && w > 0
    ensures var avg := s / W;
            var v := avg - InflatedLag(vlag, W, w);
            var lag' := (s + v * w) / (W + w) - v;
            && KeepsLag(vlag, lag')
            && (lag' == vlag <==> LagSurvives(s, W, w, vlag))
  {
    var lag, n := InflatedLag(vlag, W, w), vlag * (W + w);
    PlacedLag(s, W, w, vlag, lag);
    MulSign(vlag, W + w);
    TruncRemainder(n, W);
    RemainderBounds(s, W);
    RemainderBounds(n, W);
    RemainderBounds(-n, W);
    SmallFloor(s % W - (n - lag * W), W + w);
    ZeroHasNoRemainder(vlag, W + w, W);
  }

  lemma RemainderBounds(a: int, b: int)
    requires b > 0
    ensures 0 <= a % b < b
  {
  }

  lemma ZeroHasNoRemainder(x: int, t: int, b: int)
    requires b > 0
    ensures x == 0 ==> (x * t) % b == 0
  {
  }

  lemma MulSign(x: int, t: int)
    requires t > 0
    ensures (x >= 0 ==> x * t >= 0) && (x <= 0 ==> x * t <= 0)
  {
  }

  lemma ShiftedFloor(a: int, b: int, q: int, rest: int)
    requires b > 0 && a == q * b + rest
    ensures a / b == q + rest / b
  {
    FloorBounds(rest, b);
    var p := rest / b;
    assert (q + p) * b == q * b + p * b;
    assert (q + p + 1) * b == q * b + (p + 1) * b;
    QuotientUnique(a, b, q + p);
  }

  lemma SmallFloor(x: int, t: int)
    requires 0 < t && -t < x < 2 * t
    ensures (x < 0 ==> x / t == -1) && (0 <= x < t ==> x / t == 0) && (t <= x ==> x / t == 1)
  {
    QuotientUnique(x, t, if x < 0 then -1 else if x < t then 0 else 1);
  }

  /** Lag round trip: whatever the weights and runtimes, an entity placed with a saved lag has,
      once it counts, that lag again or one less in magnitude, never more; and it has exactly that
      lag if and only if the queue it joins says so. */
  lemma LagRoundTrip(a: seq<Entity>, b: seq<Entity>, e: Entity, vlag: int, shift: nat)
    requires a + b != [] && e.vruntime == PlacedVruntime(a + b, shift, vlag, e.weight)
    ensures LagKept(a + b, shift, e.weight, vlag, Average(a + [e] + b, shift) - e.vruntime)
  {
    SumsOfInsertion(a, e, b, shift, 0);
    PlacementArithmetic(SumKey(a + b, shift, 0), SumWeight(a + b, shift), AvgWeight(shift, e.weight), vlag);
  }

  /** The lag `now` of an entity of weight `w` that joined `es` with a saved lag. */
  predicate LagKept(es: seq<Entity>, shift: nat, w: Weight, vlag: int, now: int)
    requires es != []
  {
    && KeepsLag(vlag, now)
    && (now == vlag <==> LagSurvives(SumKey(es, shift, 0), SumWeight(es, shift), AvgWeight(shift, w), vlag))
  }

  /** A unit of lag can really be lost: beside one entity of weight 2 at virtual time 0, an entity of
      weight 1 that left with lag 1 comes back with none. */
  lemma LagCanBeLost(a: Entity, e: Entity)
    requires a.vruntime == 0 && a.weight == 2 && e.weight == 1
    requires e.vruntime == PlacedVruntime([a], 0, 1, e.weight)
    ensures Average([a] + [e] + [], 0) - e.vruntime == 0
  {
    LagRoundTrip([a], [], e, 1, 0);
    assert [a] + [] == [a];
    assert SumKey([a], 0, 0) == 0 && SumWeight([a], 0) == 2;
  }

  // ---------- re-weighting moves the average by rounding ----------

  /** The entity with its new weight, placed so that its weighted lag is the old one up to rounding;
      `at` is the average before. */
  function Reweighted(e: Entity, at: int, limit: int, weight: Weight): Entity {
    var lag := TruncDiv(Clamp(at - e.vruntime, -limit, limit) * e.weight, weight);
    e.(vruntime := at - lag, weight := weight, deadline := at + TruncDiv((e.deadline - at) * e.weight, weight))
  }

  /** Re-weighting keeps both weighted distances from the point it happens at, the lag within the limit
      and the time to the deadline, but for a remainder smaller than the new weight, lost towards
      zero. */
  lemma ReweightedKeepsProducts(e: Entity, at: int, limit: int, weight: Weight)
    requires limit >= 0
    ensures var e', lag, left := Reweighted(e, at, limit, weight), at - e.vruntime, e.deadline - at;
      && e'.weight == weight && e'.id == e.id && e'.slice == e.slice
      && (-limit <= lag <= limit ==> Truncated(lag * e.weight, at - e'.vruntime, weight))
      && (lag > limit ==> Truncated(limit * e.weight, at - e'.vruntime, weight))
      && (lag < -limit ==> Truncated(-limit * e.weight, at - e'.vruntime, weight))
      && Truncated(left * e.weight, e'.deadline - at, weight)
  {
    hide TruncDiv;
    TruncRemainder(Clamp(at - e.vruntime, -limit, limit) * e.weight, weight);
    TruncRemainder((e.deadline - at) * e.weight, weight);
    RemainderBounds(Clamp(at - e.vruntime, -limit, limit) * e.weight, weight);
    RemainderBounds((e.deadline - at) * e.weight, weight);
  }

  /** `q` times `b` is `a` but for less than `b`, and not further from zero than `a`. */
  predicate Truncated(a: int, q: int, b: int) {
    if a >= 0 then 0 <= a - q * b < b else 0 <= q * b - a < b
  }

  /** Weighted lag that truncation and clamping leave over. */
  function ReweightError(e: Entity, at: int, limit: int, weight: Weight, shift: nat): int {
    (at - e.vruntime) * AvgWeight(shift, e.weight)
    - (at - Reweighted(e, at, limit, weight).vruntime) * AvgWeight(shift, weight)
  }

  /** How far re-weighting `e` in `es` moves the average: what the old average was rounded by and what
      truncation left over, shared out over the new total weight. So it stays put exactly while
      these add up to less than one unit, and not always, as the exact argument in the source would
      have it. */
  predicate AverageMoves(es: seq<Entity>, e: Entity, es': seq<Entity>, shift: nat, limit: int, weight: Weight)
    requires es != [] && es' != []
  {
    var at := Average(es, shift);
    var W' := SumWeight(es', shift);
    var left := SumKey(es, shift, 0) % SumWeight(es, shift) + ReweightError(e, at, limit, weight, shift);
    && W' == SumWeight(es, shift) - AvgWeight(shift, e.weight) + AvgWeight(shift, weight)
    && Average(es', shift) == at + left / W'
    && (Average(es', shift) == at <==> 0 <= left < W')
  }

  lemma ReweightMovesAverage(a: seq<Entity>, e: Entity, b: seq<Entity>, a': seq<Entity>, b': seq<Entity>,
                             shift: nat, limit: int, weight: Weight)
    requires a + b == a' + b'
    ensures var e' := Reweighted(e, Average(a + [e] + b, shift), limit, weight);
            AverageMoves(a + [e] + b, e, a' + [e'] + b', shift, limit, weight)
  {
    var s, W := SumKey(a + [e] + b, shift, 0), SumWeight(a + [e] + b, shift);
    var at := s / W;
    var e' := Reweighted(e, at, limit, weight);
    SumsOfInsertion(a, e, b, shift, 0);
    SumsOfInsertion(a', e', b', shift, 0);
    var w, w' := AvgWeight(shift, e.weight), AvgWeight(shift, weight);
    ReweightArithmetic(s, W, e.vruntime, w, e'.vruntime, w');
  }

  lemma ReweightArithmetic(s: int, W: int, v: int, w: int, v': int, w': int)
    requires W > 0 && W - w + w' > 0
    ensures var at, W' := s / W, W - w + w';
            var left := s % W + ((at - v) * w - (at - v') * w');
            && (s - v * w + v' * w') / W' == at + left / W'
            && (left / W' == 0 <==> 0 <= left < W')
  {
    var at, W' := s / W, W - w + w';
    var left := s % W + ((at - v) * w - (at - v') * w');
    DistributeLeft(at, v, w);
    DistributeLeft(at, v', w');
    DistributeRight(at, W - w, w');
    DistributeRight(at, W, -w);
    NegatedFactor(at, w);
    assert s == at * W + s % W;
    ShiftedFloor(s - v * w + v' * w', W', at, left);
    FloorBounds(left, W');
    if 0 <= left < W' {
      QuotientUnique(left, W', 0);
    }
  }

  lemma NegatedFactor(x: int, y: int)
    ensures x * -y == -(x * y)
  {
  }

  /** With unscaled weights and an unclamped lag the error is what the division drops. */
  lemma ReweightErrorIsTruncation(e: Entity, at: int, limit: int, weight: Weight)
    requires -limit <= at - e.vruntime <= limit
    ensures var n := (at - e.vruntime) * e.weight;
            ReweightError(e, at, limit, weight, 0) == if n >= 0 then n % weight else -((-n) % weight)
  {
    TruncRemainder((at - e.vruntime) * e.weight, weight);
  }

  /** Two entities of weight 1000 and 1 at virtual times 0 and 999 average 0; giving the first weight
      1 as well moves the average to 499. */
  lemma ReweightCanMoveAverage(e: Entity, other: Entity)
    requires e.vruntime == 0 && e.weight == 1000 && other.vruntime == 999 && other.weight == 1
    ensures Average([e] + [other], 0) == 0
    ensures Average([Reweighted(e, 0, 0, 1)] + [other], 0) == 499
  {
    var es := [e] + [other];
    assert es[1..] == [other] && SumKey([other], 0, 0) == 999 && SumWeight([other], 0) == 1;
    assert SumKey(es, 0, 0) == 999 && SumWeight(es, 0) == 1001;
    var e' := Reweighted(e, 0, 0, 1);
    var es' := [e'] + [other];
    assert es'[1..] == [other] && e'.vruntime == 0;
    assert SumKey(es', 0, 0) == 999 && SumWeight(es', 0) == 2;
  }

  /** Give an entity that is off the queue another weight: its saved lag and, if that was made
      relative, its deadline are rescaled so that weight times lag is what it was up to rounding. */
  method ReweightOff(se: Entity, vlag: int, relative: bool, weight: Weight) returns (se': Entity, vlag': int)
    ensures se' == se.(weight := weight, deadline := se'.deadline)
    ensures vlag' * weight + Remainder(vlag * se.weight, weight) == vlag * se.weight
    ensures relative ==> se'.deadline * weight + Remainder(se.deadline * se.weight, weight) == se.deadline * se.weight
    ensures !relative ==> se'.deadline == se.deadline
  {
    TruncRemainder(vlag * se.weight, weight);
    TruncRemainder(se.deadline * se.weight, weight);
    vlag' := TruncDiv(vlag * se.weight, weight);
    var deadline := if relative then TruncDiv(se.deadline * se.weight, weight) else se.deadline;
    se' := se.(weight := weight, deadline := deadline);
  }

  // ---------- the runqueue ----------

  class CfsRq {
    const paranoidAvg: bool  // scheduler feature: check the sums for overflow
    var timeline: Tree
    var curr: Option<Entity>
    var currOnRq: bool
    var nrQueued: nat
    var sumWVruntime: int
    var sumWeight: int
    var sumShift: nat
    var zeroVruntime: int

    ghost function Queue(): seq<Entity>
      reads this
    {
      InOrder(timeline)
    }

    /** Everything that takes part in the average: the timeline and the running entity. */
    ghost function Counted(): seq<Entity>
      reads this
    {
      if curr.Some? && currOnRq then Queue() + [curr.value] else Queue()
    }

    /** The incremental sums equal their definition over the timeline at the current shift. */
    ghost predicate SumsValid()
      reads this
    {
      && WellFormed(timeline)
      && sumShift <= MAX_SHIFT
      && sumWeight == SumWeight(Queue(), sumShift)
      && sumWVruntime == SumKey(Queue(), sumShift, zeroVruntime)
    }

    ghost predicate Valid()
      reads this
    {
      SumsValid() && nrQueued == |Counted()|
    }

    constructor (paranoid: bool)
      ensures Valid() && Counted() == [] && sumShift == 0 && paranoidAvg == paranoid
      ensures curr.None? && !currOnRq && zeroVruntime == -0x10_0000
    {
      paranoidAvg := paranoid;
      timeline, curr, currOnRq, nrQueued := Leaf, None, false, 0;
      sumWVruntime, sumWeight, sumShift, zeroVruntime := 0, 0, 0, -0x10_0000;
    }

    /** Add the terms of one entity, scaling all weights down and recomputing both sums from the
        timeline for as long as 64 bits do not suffice. The shift that results is the smallest
        one that works, and the kernel gives up exactly when none up to the limit does. */
    method SumWVruntimeAdd(se: Entity) returns (bug: bool, retries: nat)
      requires SumsValid()
      modifies this`sumWVruntime, this`sumWeight, this`sumShift
      ensures old(sumShift) <= sumShift <= MAX_SHIFT
      ensures retries == sumShift - old(sumShift)
      ensures !bug ==>
                && sumWeight == SumWeight(Queue(), sumShift) + AvgWeight(sumShift, se.weight)
                && sumWVruntime == SumKey(Queue(), sumShift, zeroVruntime)
                                   + Term(se, sumShift, zeroVruntime)
      ensures !paranoidAvg ==> !bug && retries == 0
      ensures paranoidAvg ==>
                && (bug <==> forall s: nat :: old(sumShift) <= s <= MAX_SHIFT ==> !Fits(Queue(), se, zeroVruntime, s))
                && (!bug ==> Fits(Queue(), se, zeroVruntime, sumShift))
                && (forall s: nat :: old(sumShift) <= s < sumShift ==> !Fits(Queue(), se, zeroVruntime, s))
                && ExactShift(Queue(), se, zeroVruntime, old(sumShift)) == (if bug then None else Some(sumShift))
    {
      hide ExactShift, Fits, SumKey, SumWeight, InOrder, WellFormed, Term, AvgWeight;
      bug, retries := false, 0;
      if paranoidAvg {
        while !FitsHere(se)
          invariant SumsValid() && old(sumShift) <= sumShift && retries == sumShift - old(sumShift)
          invariant forall s: nat :: old(sumShift) <= s < sumShift ==> !Fits(Queue(), se, zeroVruntime, s)
          invariant ExactShift(Queue(), se, zeroVruntime, old(sumShift))
                 == ExactShift(Queue(), se, zeroVruntime, sumShift)
          decreases MAX_SHIFT - sumShift
        {
          ExactShiftStep(Queue(), se, zeroVruntime, sumShift);
          if sumShift >= MAX_SHIFT {
            bug := true;
            return;
          }
          sumShift, retries := sumShift + 1, retries + 1;
          RecomputeSums();
        }
        ExactShiftStep(Queue(), se, zeroVruntime, sumShift);
      }
      var weight := AvgWeight(sumShift, se.weight);
      sumWVruntime := sumWVruntime + Term(se, sumShift, zeroVruntime);
      sumWeight := sumWeight + weight;
    }

    function FitsHere(se: Entity): (b: bool)
      requires SumsValid()
      reads this
      ensures b <==> Fits(Queue(), se, zeroVruntime, sumShift)
    {
      var term := Term(se, sumShift, zeroVruntime);
      FitsS64(term) && FitsS64(sumWVruntime + term)
    }

    method RecomputeSums()
      modifies this`sumWVruntime, this`sumWeight
      ensures sumWeight == SumWeight(Queue(), sumShift)
      ensures sumWVruntime == SumKey(Queue(), sumShift, zeroVruntime)
    {
      var nodes := InOrder(timeline);
      sumWVruntime, sumWeight := 0, 0;
      for i := 0 to |nodes|
        invariant sumWeight == SumWeight(nodes[..i], sumShift)
        invariant sumWVruntime == SumKey(nodes[..i], sumShift, zeroVruntime)
      {
        var weight := AvgWeight(sumShift, nodes[i].weight);
        SumsOfInsertion(nodes[..i], nodes[i], [], sumShift, zeroVruntime);
        assert nodes[..i] + [nodes[i]] + [] == nodes[..i + 1] && nodes[..i] + [] == nodes[..i];
        sumWVruntime := sumWVruntime + Term(nodes[i], sumShift, zeroVruntime);
        sumWeight := sumWeight + weight;
      }
      assert nodes[..|nodes|] == nodes;
    }

    /** Put an entity into the timeline; the sums follow. It joins the counted entities between
        `a` and `b`. */
    method EnqueueInTree(se: Entity) returns (bug: bool, ghost a: seq<Entity>, ghost b: seq<Entity>)
      requires SumsValid()
      modifies this`sumWVruntime, this`sumWeight, this`sumShift, this`timeline
      ensures !bug ==> SumsValid() && old(Counted()) == a + b && Counted() == a + [se] + b
      ensures timeline == if bug then old(timeline) else Insert(old(timeline), se)
      ensures old(sumShift) <= sumShift <= MAX_SHIFT && (!paranoidAvg ==> !bug && sumShift == old(sumShift))
    {
      hide Term, AvgWeight, WellFormed, InOrder, SumKey, SumWeight;
      var retries;
      bug, retries := SumWVruntimeAdd(se);
      ghost var m;
      a, m := InsertSpec(timeline, se);
      ghost var tail := if curr.Some? && currOnRq then [curr.value] else [];
      b := m + tail;
      if !bug {
        SumsOfInsertion(a, se, m, sumShift, zeroVruntime);
        RegroupLeft(a, [se], m, tail);
        timeline := Insert(timeline, se);
      }
    }

    method SumWVruntimeSub(se: Entity)
      modifies this`sumWVruntime, this`sumWeight
      ensures sumWVruntime == old(sumWVruntime) - Term(se, sumShift, zeroVruntime)
      ensures sumWeight == old(sumWeight) - AvgWeight(sumShift, se.weight)
    {
      var weight := AvgWeight(sumShift, se.weight);
      sumWVruntime := sumWVruntime - Term(se, sumShift, zeroVruntime);
      sumWeight := sumWeight - weight;
    }

    /** Take an entity out of the timeline and its terms out of the sums. */
    method DequeueFromTree(se: Entity) returns (ghost a: seq<Entity>, ghost b: seq<Entity>)
      requires SumsValid() && se in Queue()
      modifies this`sumWVruntime, this`sumWeight, this`timeline
      ensures SumsValid() && old(Queue()) == a + [se] + b && Queue() == a + b
    {
      hide Term, AvgWeight, WellFormed, InOrder, SumKey, SumWeight;
      timeline, a, b := EraseFrom(timeline, se, sumShift, zeroVruntime);
      SumWVruntimeSub(se);
    }

    /** Re-base the zero point without touching what the sums stand for. */
    method UpdateZeroVruntime(delta: int)
      requires SumsValid()
      modifies this`sumWVruntime, this`zeroVruntime
      ensures SumsValid() && zeroVruntime == old(zeroVruntime) + delta
    {
      hide SumKey, SumWeight, InOrder, WellFormed;
      RebasedBy(Queue(), sumShift, zeroVruntime, delta);
      sumWVruntime := sumWVruntime - sumWeight * delta;
      zeroVruntime := zeroVruntime + delta;
    }

    /** The average virtual runtime, which also becomes the new zero point. On a queue with
        entities it is the floor of the exact weighted average. */
    method AvgVruntime() returns (v: int)
      requires SumsValid()
      modifies this`sumWVruntime, this`zeroVruntime
      ensures SumsValid() && v == zeroVruntime
      ensures Counted() != [] ==> v == Average(Counted(), sumShift)
      ensures Counted() == [] ==> v == old(zeroVruntime)
    {
      var delta := AverageDelta();
      UpdateZeroVruntime(delta);
      v := zeroVruntime;
    }

    /** Distance of the average from the zero point, by a truncating division with a left bias. */
    method AverageDelta() returns (delta: int)
      requires SumsValid()
      ensures Counted() != [] ==> zeroVruntime + delta == Average(Counted(), sumShift)
      ensures Counted() == [] ==> delta == 0
    {
      var running := curr.Some? && currOnRq;
      var weight := sumWeight;
      delta := 0;
      if weight != 0 {
        var runtime := sumWVruntime;
        if running {
          var w := AvgWeight(sumShift, curr.value.weight);
          runtime := runtime + Term(curr.value, sumShift, zeroVruntime);
          weight := weight + w;
          CurrentSums();
        }
        delta := LeftBiasedDiv(runtime, weight);
        LeftBiasIsFloor(runtime, weight);
        assert Queue() != [];
        AverageFromBase(Counted(), sumShift, zeroVruntime);
      } else if running {
        delta := curr.value.vruntime - zeroVruntime;
        assert Queue() == [] && Counted() == [curr.value];
        SingletonAverage(curr.value, sumShift);
      }
    }

    lemma CurrentSums()
      requires curr.Some? && currOnRq
      ensures SumWeight(Counted(), sumShift) == SumWeight(Queue(), sumShift) + AvgWeight(sumShift, curr.value.weight)
      ensures SumKey(Counted(), sumShift, zeroVruntime)
           == SumKey(Queue(), sumShift, zeroVruntime)
              + Term(curr.value, sumShift, zeroVruntime)
    {
      SumsOfInsertion(Queue(), curr.value, [], sumShift, zeroVruntime);
      assert Queue() + [curr.value] + [] == Counted() && Queue() + [] == Queue();
    }

    /** The division-free eligibility test answers exactly "lag not negative". */
    method VruntimeEligible(v: int) returns (eligible: bool)
      requires SumsValid()
      ensures eligible <==> Eligible(Counted(), sumShift, v)
    {
      var avg, load := sumWVruntime, sumWeight;
      if curr.Some? && currOnRq {
        var weight := AvgWeight(sumShift, curr.value.weight);
        avg := avg + Term(curr.value, sumShift, zeroVruntime);
        load := load + weight;
        CurrentSums();
      }
      EligibleAtAnyBase(Counted(), sumShift, zeroVruntime, v);
      eligible := avg >= (v - zeroVruntime) * load;
    }

    ghost predicate EligibleNow(se: Option<Entity>)
      reads this
    {
      se.Some? && Eligible(Counted(), sumShift, se.value.vruntime)
    }

    lemma OnlyOneCounted()
      requires Valid() && nrQueued == 1
      ensures if curr.Some? && currOnRq then Counted() == [curr.value]
              else timeline.Node? && Counted() == [First(timeline)]
    {
      if !(curr.Some? && currOnRq) {
        FirstSpec(timeline);
      }
    }

    /** Earliest eligible virtual deadline first. Without slice protection the pruned descent
        returns what a scan over every entity returns, and nothing only from an empty queue.
        With protection an eligible buddy comes first, then an eligible running entity whose slice
        is protected. */
    method PickEevdf(protect: bool, next: Option<Entity>, currProtected: bool) returns (best: Option<Entity>)
      requires Valid() && (next.Some? ==> next.value in Counted())
      ensures best == if protect && EligibleNow(next) then next
                      else if protect && currProtected && currOnRq && EligibleNow(curr) then curr
                      else Scan(Counted(), Counted(), sumShift)
      ensures best.None? <==> Counted() == []
      ensures best.Some? ==> best.value in Counted() && Eligible(Counted(), sumShift, best.value.vruntime)
    {
      hide InOrder, WellFormed, Eligible, SumKey, SumWeight;
      ghost var all, shift := Counted(), sumShift;
      var running := curr.Some? && currOnRq;
      ScanIsEarliestEligible(all, all, shift);
      if all != [] {
        var i := SomeEntityEligible(all, shift);
        assert all[i] in all;
      }
      if nrQueued == 1 {
        OnlyOneCounted();
        best := if running then curr else Some(First(timeline));
        return;
      }
      if protect && next.Some? {
        var ok := VruntimeEligible(next.value.vruntime);
        if ok { return next; }
      }
      var candidate := None;
      if running {
        var ok := VruntimeEligible(curr.value.vruntime);
        if ok { candidate := curr; }
      }
      if candidate.Some? && protect && currProtected {
        return candidate;
      }
      best := SearchTimeline();
      if best.None? || (candidate.Some? && candidate.value.deadline < best.value.deadline) {
        best := candidate;
      }
      if running {
        assert all[..|all| - 1] == Queue();
      }
    }

    /** The leftmost shortcut followed by the pruned heap descent. */
    method SearchTimeline() returns (best: Option<Entity>)
      requires SumsValid()
      ensures best == Scan(Queue(), Counted(), sumShift)
    {
      ghost var all, shift := Counted(), sumShift;
      if timeline.Node? {
        var first := First(timeline);
        FirstSpec(timeline);
        var ok := VruntimeEligible(first.vruntime);
        if ok {
          ScanFromRoot(first, InOrder(DropFirst(timeline)), all, shift) by {
            var s := Queue();
            assert forall i :: 0 < i < |s| ==> InOrder(DropFirst(timeline))[i - 1] == s[i];
          }
          return Some(first);
        }
      }
      var node := timeline;
      while node.Node?
        invariant WellFormed(node) && Scan(InOrder(node), all, shift) == Scan(Queue(), all, shift)
        decreases node
      {
        DescendStep(node, all, shift);
        var left := node.left;
        if left.Node? {
          var some := VruntimeEligible(left.minVruntime);
          if some {
            node := left;
            continue;
          }
        }
        var ok := VruntimeEligible(node.se.vruntime);
        if ok {
          return Some(node.se);
        }
        node := node.right;
      }
      best := None;
    }

    ghost predicate Outweighs(weight: Weight)
      reads this
    {
      AvgWeight(sumShift, weight) > SumWeight(Counted(), sumShift)
    }

    /** Where a joining entity starts: its virtual runtime and its deadline. The zero point moves to the
        average, or to the entity itself if it outweighs all the others and comes with a lag. */
    method PlaceEntity(vlag: int, weight: Weight, vslice: int, placeLag: bool,
                       initial: bool, relative: bool, oldDeadline: int)
      returns (vruntime: int, deadline: int)
      requires Valid() && 0 <= vslice
      modifies this`sumWVruntime, this`zeroVruntime
      ensures Valid()
      ensures Counted() != [] && placeLag ==> vruntime == PlacedVruntime(Counted(), sumShift, vlag, weight)
      ensures Counted() != [] && !placeLag ==> vruntime == Average(Counted(), sumShift)
      ensures Counted() == [] ==> vruntime == old(zeroVruntime)
      ensures deadline == if relative then oldDeadline + vruntime
                          else vruntime + (if initial then vslice / 2 else vslice)
      ensures zeroVruntime == if Counted() == [] then old(zeroVruntime)
                              else if placeLag && vlag != 0 && Outweighs(weight) then vruntime
                              else Average(Counted(), sumShift)
    {
      var avg := AvgVruntime();
      var lag, updateZero := 0, false;
      if placeLag && nrQueued != 0 && vlag != 0 {
        var load := sumWeight;
        if curr.Some? && currOnRq {
          load := load + AvgWeight(sumShift, curr.value.weight);
          CurrentSums();
        }
        assert load == SumWeight(Counted(), sumShift);  // hence never zero here
        var w := AvgWeight(sumShift, weight);
        lag := InflatedLag(vlag, load, w);
        updateZero := w > load;
      }
      vruntime := avg - lag;
      if updateZero {
        UpdateZeroVruntime(-lag);
      }
      deadline := if relative then oldDeadline + vruntime
                  else vruntime + (if initial then vslice / 2 else vslice);
    }

    /** Place a waking entity and let it count again, in the timeline or, if it is the one running,
        as the running one. The average computed afterwards gives it back the lag it left with, up
        to one unit lost to rounding, and exactly when one is lost is known beforehand. */
    method EnqueueEntity(id: nat, slice: nat, vlag: int, weight: Weight, vslice: int, isCurr: bool,
                         placeLag: bool, initial: bool, relative: bool, oldDeadline: int)
      returns (se: Entity, bug: bool, ghost a: seq<Entity>, ghost b: seq<Entity>)
      requires Valid() && 0 <= vslice && (isCurr ==> curr.Some? && !currOnRq)
      modifies this`sumWVruntime, this`sumWeight, this`sumShift, this`timeline, this`nrQueued
      modifies this`zeroVruntime, this`curr, this`currOnRq
      ensures se.id == id && se.weight == weight && se.slice == slice
      ensures se.deadline == if relative then oldDeadline + se.vruntime
                             else se.vruntime + (if initial then vslice / 2 else vslice)
      ensures !bug ==> Valid() && old(Counted()) == a + b && Counted() == a + [se] + b
      ensures old(Counted()) != [] && !placeLag ==> se.vruntime == Average(old(Counted()), old(sumShift))
      ensures !bug && sumShift == old(sumShift) && old(Counted()) != [] && placeLag ==>
                LagKept(old(Counted()), sumShift, weight, vlag, Average(Counted(), sumShift) - se.vruntime)
      ensures if isCurr then !bug && curr == Some(se) && currOnRq && timeline == old(timeline)
              else curr == old(curr) && currOnRq == old(currOnRq)
      ensures !paranoidAvg || isCurr ==> !bug && sumShift == old(sumShift)
    {
      hide Term, AvgWeight, WellFormed, InOrder, SumKey, SumWeight, PlacedVruntime, LagKept, Average;
      var vruntime, deadline := PlaceEntity(vlag, weight, vslice, placeLag, initial, relative, oldDeadline);
      se := Entity(id, vruntime, deadline, slice, weight);
      bug := false;
      if isCurr {
        a, b := Queue(), [];
        assert a + b == a && a + [se] + b == a + [se];
        curr, currOnRq := Some(se), true;
      } else {
        bug, a, b := EnqueueInTree(se);
      }
      if !bug {
        nrQueued := nrQueued + 1;
        if placeLag {
          JoinKeepsLag(a, se, b, vlag, old(sumShift));
        }
      }
    }

    /** The lag an entity leaves with: its distance from the average, clamped to `limit`, and for
        an entity kept on the queue while asleep never below what it had nor above zero. */
    method UpdateEntityLag(se: Entity, limit: int, delayed: bool, oldVlag: int, delayZero: bool)
      returns (vlag: int, modified: bool)
      requires SumsValid() && se in Counted() && 0 <= limit
      modifies this`sumWVruntime, this`zeroVruntime
      ensures SumsValid() && zeroVruntime == Average(Counted(), sumShift)
      ensures IsSavedLag(Average(Counted(), sumShift) - se.vruntime, limit, delayed, oldVlag, delayZero, vlag)
      ensures modified <==> vlag != Average(Counted(), sumShift) - se.vruntime
    {
      var avg := AvgVruntime();
      vlag := Clamp(avg - se.vruntime, -limit, limit);
      if delayed {
        vlag := Max(vlag, oldVlag);
        if delayZero {
          vlag := Min(vlag, 0);
        }
      }
      modified := avg - vlag != se.vruntime;
    }

    /** Leave the queue with the lag to come back with. An entity going to sleep that may be delayed
        and is owed nothing stays; the running entity is not in the timeline and only stops
        counting. A deadline kept for later is made relative. */
    method DequeueEntity(se: Entity, mayDelay: bool, limit: int, delayed: bool, oldVlag: int, delayZero: bool,
                         relative: bool)
      returns (left: bool, vlag: int, deadline: int, ghost a: seq<Entity>, ghost b: seq<Entity>)
      requires Valid() && se in Counted() && 0 <= limit
      modifies this`sumWVruntime, this`sumWeight, this`timeline, this`nrQueued, this`currOnRq, this`zeroVruntime
      ensures Valid() && sumShift == old(sumShift) && curr == old(curr)
      ensures zeroVruntime == Average(old(Counted()), sumShift)
      ensures left <==> !mayDelay || Eligible(old(Counted()), sumShift, se.vruntime)
      ensures old(Counted()) == a + [se] + b && Counted() == if left then a + b else old(Counted())
      ensures !left ==> timeline == old(timeline) && currOnRq == old(currOnRq)
      ensures IsSavedLag(Average(old(Counted()), sumShift) - se.vruntime, limit, delayed, oldVlag, delayZero, vlag)
      ensures deadline + (if left && relative then se.vruntime else 0) == se.deadline
    {
      hide Term, AvgWeight, WellFormed, InOrder, SumKey, SumWeight, Eligible, Average, IsSavedLag;
      left, deadline := true, se.deadline;
      if mayDelay {
        left := VruntimeEligible(se.vruntime);
      }
      var modified;
      vlag, modified := UpdateEntityLag(se, limit, delayed, oldVlag, delayZero);
      if !left {
        ghost var i :| 0 <= i < |Counted()| && Counted()[i] == se;
        a, b := Counted()[..i], Counted()[i + 1..];
        return;
      }
      if relative {
        deadline := deadline - se.vruntime;
      }
      a, b := StopCounting(se);
    }

    method StopCounting(se: Entity) returns (ghost a: seq<Entity>, ghost b: seq<Entity>)
      requires Valid() && se in Counted()
      modifies this`sumWVruntime, this`sumWeight, this`timeline, this`nrQueued, this`currOnRq
      ensures Valid() && old(Counted()) == a + [se] + b && Counted() == a + b
      ensures if old(curr) == Some(se) && old(currOnRq) then !currOnRq && timeline == old(timeline)
              else currOnRq == old(currOnRq)
    {
      hide Term, AvgWeight, WellFormed, InOrder, SumKey, SumWeight;
      if curr == Some(se) && currOnRq {
        currOnRq := false;
        a, b := Queue(), [];
        assert a + b == a && a + [se] + b == a + [se];
      } else {
        ghost var tail := if curr.Some? && currOnRq then [curr.value] else [];
        ghost var m;
        a, m := DequeueFromTree(se);
        b := m + tail;
        RegroupLeft(a, [se], m, tail);
      }
      nrQueued := nrQueued - 1;
    }

    /** Give an entity that counts another weight: it is taken out and put back with its lag rescaled
        around the average, which becomes the zero point. */
    method ReweightQueued(se: Entity, limit: int, weight: Weight)
      returns (se': Entity, bug: bool,
               ghost a: seq<Entity>, ghost b: seq<Entity>, ghost a': seq<Entity>, ghost b': seq<Entity>)
      requires Valid() && se in Counted()
      modifies this`sumWVruntime, this`sumWeight, this`sumShift, this`timeline, this`nrQueued
      modifies this`zeroVruntime, this`curr, this`currOnRq
      ensures zeroVruntime == Average(old(Counted()), old(sumShift))
      ensures se' == Reweighted(se, zeroVruntime, limit, weight)
      ensures !bug ==>
                && Valid() && a + b == a' + b'
                && old(Counted()) == a + [se] + b && Counted() == a' + [se'] + b'
      ensures !bug && sumShift == old(sumShift) ==> AverageMoves(old(Counted()), se, Counted(), sumShift, limit, weight)
      ensures !paranoidAvg ==> !bug && sumShift == old(sumShift)
    {
      hide Term, AvgWeight, WellFormed, InOrder, SumKey, SumWeight, Average, Reweighted, AverageMoves;
      var at := AvgVruntime();
      var isCurr := curr == Some(se) && currOnRq;
      a, b := StopCounting(se);
      se', bug := Reweighted(se, at, limit, weight), false;
      if isCurr {
        a', b' := Queue(), [];
        assert a' + b' == a' && a' + [se'] + b' == a' + [se'];
        curr, currOnRq := Some(se'), true;
      } else {
        bug, a', b' := EnqueueInTree(se');
      }
      if !bug {
        nrQueued := nrQueued + 1;
        ReweightMovesAverage(a, se, b, a', b', old(sumShift), limit, weight);
      }
    }

    /** Another weight for an entity, wherever it is. One that counts keeps its weighted lag up to
        rounding and moves the average by that much; one that is off only has what it saved
        rescaled, and the queue does not notice. */
    method ReweightEntity(se: Entity, onRq: bool, vlag: int, relative: bool, limit: int, weight: Weight)
      returns (se': Entity, vlag': int, bug: bool)
      requires Valid() && (onRq ==> se in Counted())
      modifies this
      ensures onRq ==>
                && se' == Reweighted(se, Average(old(Counted()), old(sumShift)), limit, weight)
                && vlag' == Average(old(Counted()), old(sumShift)) - se'.vruntime
                && (!bug ==> Valid() && se' in Counted() && |Counted()| == |old(Counted())|)
                && (!bug && sumShift == old(sumShift) ==>
                      AverageMoves(old(Counted()), se, Counted(), sumShift, limit, weight))
      ensures !onRq ==>
                && !bug && Valid() && timeline == old(timeline) && curr == old(curr) && currOnRq == old(currOnRq)
                && sumShift == old(sumShift) && zeroVruntime == old(zeroVruntime) && se'.vruntime == se.vruntime
                && vlag' * weight + Remainder(vlag * se.weight, weight) == vlag * se.weight
    {
      hide Term, AvgWeight, WellFormed, InOrder, SumKey, SumWeight, Average, Reweighted, AverageMoves, Remainder;
      bug := false;
      if onRq {
        ghost var a, b, a', b';
        var at := AverageNow();
        se', bug, a, b, a', b' := ReweightQueued(se, limit, weight);
        vlag' := at - se'.vruntime;
      } else {
        se', vlag' := ReweightOff(se, vlag, relative, weight);
      }
    }

    /** The average without moving the zero point. */
    method AverageNow() returns (at: int)
      requires SumsValid() && Counted() != []
      ensures at == Average(Counted(), sumShift)
    {
      var delta := AverageDelta();
      at := zeroVruntime + delta;
    }

    /** Start running an entity: a queued one leaves the timeline but keeps counting, so the average
        and every eligibility answer stay as they were; one that is not queued changes nothing. */
    method SetNextEntity(se: Entity, onRq: bool) returns (ghost a: seq<Entity>, ghost b: seq<Entity>)
      requires Valid() && curr.None? && (onRq ==> se in Queue())
      modifies this`sumWVruntime, this`sumWeight, this`timeline, this`curr, this`currOnRq
      ensures Valid() && curr == Some(se) && currOnRq == onRq
      ensures onRq ==> old(Queue()) == a + [se] + b && Queue() == a + b
      ensures !onRq ==> Queue() == old(Queue())
      ensures SumKey(Counted(), sumShift, 0) == SumKey(old(Counted()), sumShift, 0)
      ensures SumWeight(Counted(), sumShift) == SumWeight(old(Counted()), sumShift)
    {
      hide Term, AvgWeight, WellFormed, InOrder, SumKey, SumWeight;
      a, b := [], [];
      if onRq {
        a, b := DequeueFromTree(se);
        MoveToEnd(a, se, b, sumShift);
      }
      curr, currOnRq := Some(se), onRq;
    }

    /** Stop running: an entity still runnable goes back into the timeline. */
    method PutPrevEntity() returns (bug: bool, ghost a: seq<Entity>, ghost b: seq<Entity>)
      requires Valid() && curr.Some?
      modifies this
      ensures !bug ==> Valid() && curr.None?
      ensures !bug && old(currOnRq) ==> old(Queue()) == a + b && Queue() == a + [old(curr).value] + b
      ensures !old(currOnRq) ==> !bug && Queue() == old(Queue())
      ensures !bug ==> SumKey(Counted(), sumShift, 0) == SumKey(old(Counted()), sumShift, 0)
      ensures !bug ==> SumWeight(Counted(), sumShift) == SumWeight(old(Counted()), sumShift)
      ensures !paranoidAvg ==> !bug
    {
      hide Term, AvgWeight, WellFormed, InOrder, SumKey, SumWeight;
      var prev, queued := curr.value, currOnRq;
      curr, bug := None, false;
      a, b := [], [];
      if queued {
        bug, a, b := EnqueueInTree(prev);
        if !bug {
          assert old(Counted()) == a + b + [prev];
          MoveToEnd(a, prev, b, sumShift);
        }
      }
    }
  }

  /** What an entity at this distance from the average saves as its lag. */
  predicate IsSavedLag(distance: int, limit: int, delayed: bool, oldVlag: int, delayZero: bool, vlag: int) {
    var lag := Clamp(distance, -limit, limit);
    if !delayed then vlag == lag
    else if !delayZero then vlag == Max(lag, oldVlag)
    else vlag == Min(Max(lag, oldVlag), 0)
  }

  /** The point of the range that is nearest to `x`. */
  function Clamp(x: int, lo: int, hi: int): (r: int)
    ensures lo <= hi ==> lo <= r <= hi && (r == x || r in {lo, hi}) && (x < r ==> r == lo) && (r < x ==> r == hi)
  {
    if x < lo then lo else if hi < x then hi else x
  }

  lemma MoveToEnd(a: seq<Entity>, e: Entity, b: seq<Entity>, shift: nat)
    ensures SumWeight(a + b + [e], shift) == SumWeight(a + [e] + b, shift)
    ensures SumKey(a + b + [e], shift, 0) == SumKey(a + [e] + b, shift, 0)
    ensures |a + b + [e]| == |a + [e] + b|
  {
    SumsOfInsertion(a, e, b, shift, 0);
    SumsOfInsertion(a + b, e, [], shift, 0);
    assert a + b + [e] + [] == a + b + [e] && a + b + [] == a + b;
  }

  lemma JoinKeepsLag(a: seq<Entity>, se: Entity, b: seq<Entity>, vlag: int, shift: nat)
    requires a + b != [] ==> se.vruntime == PlacedVruntime(a + b, shift, vlag, se.weight)
    ensures a + b != [] ==> LagKept(a + b, shift, se.weight, vlag, Average(a + [se] + b, shift) - se.vruntime)
  {
    if a + b != [] {
      LagRoundTrip(a, b, se, vlag, shift);
    }
  }

  /** Unlink an entity: the sums of what is left are the old ones without its terms. */
  method EraseFrom(t: Tree, se: Entity, ghost shift: nat, ghost v0: int)
    returns (t': Tree, ghost a: seq<Entity>, ghost b: seq<Entity>)
    requires se in InOrder(t) && WellFormed(t)
    ensures WellFormed(t') && InOrder(t) == a + [se] + b && InOrder(t') == a + b
    ensures |InOrder(t')| == |InOrder(t)| - 1
    ensures SumWeight(InOrder(t'), shift) == SumWeight(InOrder(t), shift) - AvgWeight(shift, se.weight)
    ensures SumKey(InOrder(t'), shift, v0)
         == SumKey(InOrder(t), shift, v0) - Term(se, shift, v0)
  {
    a, b := EraseSpec(t, se);
    SumsOfInsertion(a, se, b, shift, v0);
    t' := Erase(t, se);
  }

  lemma RebasedBy(es: seq<Entity>, shift: nat, v0: int, d: int)
    ensures SumKey(es, shift, v0 + d) == SumKey(es, shift, v0) - SumWeight(es, shift) * d
  {
    RebaseSum(es, shift, v0, d);
    MulCommutes(SumWeight(es, shift), d);
  }

  lemma MulCommutes(x: int, y: int)
    ensures x * y == y * x
  {
  }

  lemma AverageFromBase(es: seq<Entity>, shift: nat, v0: int)
    requires es != []
    ensures Average(es, shift) == v0 + SumKey(es, shift, v0) / SumWeight(es, shift)
  {
    RebaseSum(es, shift, 0, v0);
    ShiftedFloor(SumKey(es, shift, 0), SumWeight(es, shift), v0, SumKey(es, shift, v0));
  }

  lemma SingletonAverage(e: Entity, shift: nat)
    ensures Average([e], shift) == e.vruntime
  {
    var w := AvgWeight(shift, e.weight);
    assert SumKey([e], shift, 0) == (e.vruntime - 0) * w + SumKey([], shift, 0);
    assert SumWeight([e], shift) == w;
    ShiftedFloor(e.vruntime * w, w, e.vruntime, 0);
  }
}
