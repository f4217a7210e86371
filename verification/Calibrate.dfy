/**
  Choosing the auto-approve threshold (packages/evals/docfactory_evals/calibrate.py):
  the threshold sweep over a labelled sample and the two-stage choice of an
  operating point on the curve it yields.  Arithmetic is over reals.
 */
module Calibrate {
  import opened Common

  datatype Point = Point(threshold: real, rate: real, precision: real)

  // --- the sweep ------------------------------------------------------------------

  /** One scored field: the predicted probability and whether the value was right. */
  datatype Scored = Scored(p: real, correct: bool)

  const STEPS := 200

  function Approved(sample: seq<Scored>, threshold: real): (n: nat)
    ensures n <= |sample|
  {
    if sample == [] then 0
    else Approved(sample[..|sample| - 1], threshold) + if sample[|sample| - 1].p >= threshold then 1 else 0
  }

  function Correct(sample: seq<Scored>, threshold: real): (n: nat)
    ensures n <= Approved(sample, threshold)
  {
    if sample == [] then 0
    else
      var last := sample[|sample| - 1];
      Correct(sample[..|sample| - 1], threshold) + if last.p >= threshold && last.correct then 1 else 0
  }

  function Reaching(sample: seq<Scored>, threshold: real): set<nat>
  {
    set i: nat | 0 <= i < |sample| && sample[i].p >= threshold
  }

  function RightOnes(sample: seq<Scored>, threshold: real): set<nat>
  {
    set i: nat | 0 <= i < |sample| && sample[i].p >= threshold && sample[i].correct
  }

  lemma OneMoreField(sample: seq<Scored>, threshold: real)
    requires sample != []
    ensures var (n, before, last) := (|sample| - 1, sample[..|sample| - 1], sample[|sample| - 1]);
      && n !in Reaching(before, threshold) && n !in RightOnes(before, threshold)
      && Reaching(sample, threshold) == Reaching(before, threshold) + (if last.p >= threshold then {n} else {})
      && RightOnes(sample, threshold)
           == RightOnes(before, threshold) + (if last.p >= threshold && last.correct then {n} else {})
  {
  }

  /** Approved are the fields that reach the threshold, right ones those of them that are right, each counted once. */
  lemma {:induction false} CountsAreOfFields(sample: seq<Scored>, threshold: real)
    ensures Approved(sample, threshold) == |Reaching(sample, threshold)|
    ensures Correct(sample, threshold) == |RightOnes(sample, threshold)|
  {
    if sample == [] {
      assert Reaching([], threshold) == {} && RightOnes([], threshold) == {};
    } else {
      CountsAreOfFields(sample[..|sample| - 1], threshold);
      OneMoreField(sample, threshold);
      hide Reaching, RightOnes;
    }
  }

  function Threshold(i: nat): real
  {
    i as real / STEPS as real
  }

  function Times(share: real, n: nat): real
  {
    share * n as real
  }

  /** The share approved at a threshold, and the share of those that are right. */
  ghost predicate Describes(sample: seq<Scored>, point: Point)
  {
    var approved := Approved(sample, point.threshold);
    && Times(point.rate, |sample|) == approved as real
    && (approved == 0 ==> point.precision == 1.0)
    && Times(point.precision, approved) == Correct(sample, point.threshold) as real
  }

  function Ratio(k: nat, n: nat): real
    requires n > 0
  {
    k as real / n as real
  }

  lemma RatioTimes(k: nat, n: nat)
    requires n > 0
    ensures Times(Ratio(k, n), n) == k as real
  {
  }

  /** One pass over the sample: how many clear the threshold and how many of those are right. */
  method Score(sample: seq<Scored>, threshold: real) returns (approved: nat, correct: nat)
    ensures approved == Approved(sample, threshold) && correct == Correct(sample, threshold)
  {
    approved, correct := 0, 0;
    for j := 0 to |sample|
      invariant approved == Approved(sample[..j], threshold) && correct == Correct(sample[..j], threshold)
    {
      assert sample[..j + 1][..j] == sample[..j];
      if sample[j].p >= threshold {
        approved := approved + 1;
        if sample[j].correct {
          correct := correct + 1;
        }
      }
    }
    assert sample[..|sample|] == sample;
  }

  method Sweep(sample: seq<Scored>) returns (curve: seq<Point>)
    requires sample != []
    ensures |curve| == STEPS + 1
    ensures forall i :: 0 <= i <= STEPS ==> curve[i].threshold == Threshold(i) && Describes(sample, curve[i])
  {
    hide Times, Ratio, Approved, Correct, Threshold;
    curve := [];
    for i := 0 to STEPS + 1
      invariant |curve| == i
      invariant forall k :: 0 <= k < i ==> curve[k].threshold == Threshold(k) && Describes(sample, curve[k])
    {
      var approved, correct := Score(sample, Threshold(i));
      var rate := Ratio(approved, |sample|);
      var precision := if approved == 0 then 1.0 else Ratio(correct, approved);
      RatioTimes(approved, |sample|);
      if approved > 0 {
        RatioTimes(correct, approved);
      } else {
        NoneOfNone(precision);
      }
      curve := curve + [Point(Threshold(i), rate, precision)];
    }
  }

  lemma {:induction false} ApprovedFalls(sample: seq<Scored>, low: real, high: real)
    requires low <= high
    ensures Approved(sample, high) <= Approved(sample, low)
  {
    if sample == [] {
    } else {
      ApprovedFalls(sample[..|sample| - 1], low, high);
    }
  }

  lemma NoneOfNone(share: real)
    ensures Times(share, 0) == 0.0
  {
  }

  lemma TimesOrder(a: real, b: real, n: nat)
    requires n > 0
    ensures a <= b <==> Times(a, n) <= Times(b, n)
  {
    MulDifference(n as real, b, a);
    if a <= b {
      MulNonNegative(b - a, n as real);
    }
  }

  /** The grid runs from zero to one in steps of one twohundredth. */
  lemma GridIsEven(i: nat)
    ensures Threshold(0) == 0.0 && Threshold(STEPS) == 1.0 && Threshold(i + 1) == Threshold(i) + 0.005
  {
  }

  /** Coverage never rises with the threshold, whatever the scores. */
  lemma CoverageFalls(sample: seq<Scored>, a: Point, b: Point)
    requires sample != [] && Describes(sample, a) && Describes(sample, b) && a.threshold <= b.threshold
    ensures b.rate <= a.rate
  {
    hide Times, Approved, Correct;
    ApprovedFalls(sample, a.threshold, b.threshold);
    TimesOrder(b.rate, a.rate, |sample|);
  }

  // --- the operating point ----------------------------------------------------------

  const MIN_USEFUL_RATE := 0.05
  const COVERAGE_TOLERANCE := 0.02
  const APPROVE_NOTHING := Point(1.0, 0.0, 1.0)

  predicate Usable(point: Point)
  {
    point.rate >= MIN_USEFUL_RATE
  }

  predicate Feasible(target: real, point: Point)
  {
    point.precision >= target && Usable(point)
  }

  /** Strictly better by precision, coverage breaking ties. */
  predicate Better(a: Point, b: Point)
  {
    a.precision > b.precision || (a.precision == b.precision && a.rate > b.rate)
  }

  function Filter(curve: seq<Point>, keep: Point -> bool): (kept: seq<Point>)
    ensures forall p :: p in kept <==> p in curve && keep(p)
  {
    if curve == [] then []
    else Filter(curve[..|curve| - 1], keep) + if keep(curve[|curve| - 1]) then [curve[|curve| - 1]] else []
  }

  function Widest(points: seq<Point>): (rate: real)
    requires points != []
    ensures exists p :: p in points && p.rate == rate
    ensures forall p :: p in points ==> p.rate <= rate
  {
    var last := points[|points| - 1];
    if |points| == 1 then last.rate
    else
      var before := Widest(points[..|points| - 1]);
      if last.rate > before then last.rate else before
  }

  /** The first of the best points. */
  function Best(points: seq<Point>): (best: Point)
    requires points != []
    ensures best in points
    ensures forall p :: p in points ==> !Better(p, best)
  {
    var last := points[|points| - 1];
    assert forall p :: p in points ==> p in points[..|points| - 1] || p == last;
    if |points| == 1 then last
    else
      var before := Best(points[..|points| - 1]);
      if Better(last, before) then last else before
  }

  /** Among equals the earliest wins, as Python's `max` promises. */
  lemma BestIsFirst(points: seq<Point>) returns (i: nat)
    requires points != []
    ensures i < |points| && points[i] == Best(points)
    ensures forall j :: 0 <= j < i ==> Better(points[i], points[j])
  {
    var before, last := points[..|points| - 1], points[|points| - 1];
    i := |before|;
    if before != [] && !Better(last, Best(before)) {
      i := BestIsFirst(before);
    } else {
      forall j | 0 <= j < |before| ensures Better(last, points[j]) {
        assert points[j] == before[j] && before[j] in before;
      }
    }
  }

  function OperatingPoint(curve: seq<Point>, target: real): (Point, bool)
  {
    var feasible := Filter(curve, (p: Point) => Feasible(target, p));
    if feasible != [] then
      var widest := Widest(feasible);
      (Best(Filter(feasible, (p: Point) => p.rate >= widest - COVERAGE_TOLERANCE)), true)
    else
      var usable := Filter(curve, Usable);
      (if usable == [] then APPROVE_NOTHING else Best(usable), false)
  }

  /** Feasible, and within the tolerance of every feasible point's coverage. */
  ghost predicate Affordable(curve: seq<Point>, target: real, point: Point)
  {
    && point in curve && Feasible(target, point)
    && forall q :: q in curve && Feasible(target, q) ==> point.rate >= q.rate - COVERAGE_TOLERANCE
  }

  /**
    What is chosen: when the target can be met, a best affordable point; else
    a best usable one, whose precision misses the target; else approve nothing.
   */
  lemma OperatingPointIsBest(curve: seq<Point>, target: real)
    ensures OperatingPoint(curve, target).1 <==> exists q :: q in curve && Feasible(target, q)
    ensures OperatingPoint(curve, target).1 ==>
      var point := OperatingPoint(curve, target).0;
      Affordable(curve, target, point) && forall q :: Affordable(curve, target, q) ==> !Better(q, point)
    ensures !OperatingPoint(curve, target).1 && (exists q :: q in curve && Usable(q)) ==>
      var point := OperatingPoint(curve, target).0;
      && point in curve && Usable(point) && point.precision < target
      && forall q :: q in curve && Usable(q) ==> !Better(q, point)
    ensures (forall q :: q in curve ==> !Usable(q)) ==> OperatingPoint(curve, target) == (Point(1.0, 0.0, 1.0), false)
  {
    var feasible := Filter(curve, (p: Point) => Feasible(target, p));
    if feasible != [] {
      assert feasible[0] in curve && Feasible(target, feasible[0]);
      var widest := Widest(feasible);
      var affordable := Filter(feasible, (p: Point) => p.rate >= widest - COVERAGE_TOLERANCE);
      var top :| top in feasible && top.rate == widest;
      assert top in affordable;
      forall q | Affordable(curve, target, q) ensures q in affordable {
      }
    } else {
      forall q | q in curve ensures !Feasible(target, q) {
        assert Feasible(target, q) ==> q in feasible;
      }
      var usable := Filter(curve, Usable);
      if usable != [] {
        assert usable[0] in curve && Usable(usable[0]);
      } else {
        forall q | q in curve ensures !Usable(q) {
          assert Usable(q) ==> q in usable;
        }
      }
    }
  }

  /**
    The same in numbers: a point is chosen from those of the target precision and
    five percent coverage, within two points of the widest of them, and every more
    precise one of those is further from the widest than that.
   */
  lemma ChosenInNumbers(curve: seq<Point>, target: real)
    ensures OperatingPoint(curve, target).1 <==> exists q :: q in curve && q.precision >= target && q.rate >= 0.05
    ensures OperatingPoint(curve, target).1 ==>
      var point := OperatingPoint(curve, target).0;
      && point in curve && point.precision >= target && point.rate >= 0.05
      && forall q :: q in curve && q.precision >= target && q.rate >= 0.05 ==>
           && point.rate >= q.rate - 0.02
           && (q.precision > point.precision || (q.precision == point.precision && q.rate > point.rate) ==>
                 exists w :: w in curve && w.precision >= target && w.rate >= 0.05 && q.rate < w.rate - 0.02)
  {
    assert forall q :: Feasible(target, q) <==> q.precision >= target && q.rate >= 0.05;
    OperatingPointIsBest(curve, target);
    hide OperatingPoint, Feasible;
    if OperatingPoint(curve, target).1 {
      var point := OperatingPoint(curve, target).0;
      forall q | q in curve && Feasible(target, q) && Better(q, point)
        ensures exists w :: w in curve && Feasible(target, w) && q.rate < w.rate - 0.02
      {
        assert !Affordable(curve, target, q);
      }
    }
  }

  /** A looser target never buys less coverage, met or unmet, on any curve. */
  lemma LooserBuysMore(curve: seq<Point>, strict: real, loose: real)
    requires loose <= strict
    ensures OperatingPoint(curve, strict).0.rate <= OperatingPoint(curve, loose).0.rate
    ensures OperatingPoint(curve, strict).1 ==> OperatingPoint(curve, loose).1
  {
    hide OperatingPoint;
    var (p, metStrict) := OperatingPoint(curve, strict);
    var (q, metLoose) := OperatingPoint(curve, loose);
    OperatingPointIsBest(curve, strict);
    OperatingPointIsBest(curve, loose);
    if metStrict {
      assert Feasible(loose, p);
      assert q.rate < p.rate ==> Affordable(curve, loose, p) && Affordable(curve, strict, q);
    } else if metLoose {
      assert Usable(q);
      assert q.rate < p.rate ==> Affordable(curve, loose, p);
    } else if exists u :: u in curve && Usable(u) {
      assert Usable(p) && Usable(q);
    }
  }

  const TARGETS: seq<real> := [0.995, 0.99, 0.985, 0.98, 0.97, 0.95]

  function Frontier(curve: seq<Point>, targets: seq<real>): seq<(real, Point, bool)>
  {
    seq(|targets|, i requires 0 <= i < |targets| =>
      var (point, met) := OperatingPoint(curve, targets[i]); (targets[i], point, met))
  }

  /** Along the published frontier coverage rises, and once a target is met every looser one is. */
  lemma FrontierRises(curve: seq<Point>, i: nat, j: nat)
    requires i <= j < |TARGETS|
    ensures var front := Frontier(curve, TARGETS);
      front[i].1.rate <= front[j].1.rate && (front[i].2 ==> front[j].2)
    ensures Frontier(curve, TARGETS)[i].0 == [0.995, 0.99, 0.985, 0.98, 0.97, 0.95][i]
  {
    assert forall k, l :: 0 <= k <= l < |TARGETS| ==> TARGETS[k] >= TARGETS[l];
    hide OperatingPoint;
    LooserBuysMore(curve, TARGETS[i], TARGETS[j]);
  }

  /**
    A met target holds on the sample itself: at the chosen threshold at least
    one field in twenty is approved, and at least the target share is right.
   */
  lemma {:induction false} MetTargetHolds(sample: seq<Scored>, curve: seq<Point>, target: real)
    requires sample != [] && forall p :: p in curve ==> Describes(sample, p)
    requires OperatingPoint(curve, target).1
    ensures var t := OperatingPoint(curve, target).0.threshold;
      && Approved(sample, t) as real >= Times(MIN_USEFUL_RATE, |sample|)
      && Correct(sample, t) as real >= Times(target, Approved(sample, t))
  {
    hide OperatingPoint, Times, Approved, Correct;
    OperatingPointIsBest(curve, target);
    var point := OperatingPoint(curve, target).0;
    var approved := Approved(sample, point.threshold);
    TimesOrder(MIN_USEFUL_RATE, point.rate, |sample|);
    if approved > 0 {
      TimesOrder(target, point.precision, approved);
    } else {
      NoneOfNone(target);
    }
  }
}
