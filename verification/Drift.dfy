/**
  The drift detector (packages/core/docfactory_core/drift.py): one-pass baseline
  statistics against their batch definitions, and the consecutive-breach verdict
  over a whole stream of documents.

  Arithmetic is over reals.  The cosine distance is a parameter, and standard
  deviations are compared squared, so no square root is taken.
 */
module Drift {
  import opened Common

  datatype Signal = DocConfidence | ValidationFailure | TextDistance

  const SIGNALS: seq<Signal> := [DocConfidence, ValidationFailure, TextDistance]

  // --- running statistics ---------------------------------------------------------

  datatype Stat = Stat(n: nat, mean: real, m2: real, consecutive: nat)

  const EMPTY := Stat(0, 0.0, 0.0, 0)

  function WelfordUpdate(stat: Stat, value: real): Stat
  {
    var n := stat.n + 1;
    var delta := value - stat.mean;
    var mean := stat.mean + delta / n as real;
    Stat(n, mean, stat.m2 + delta * (value - mean), stat.consecutive)
  }

  function Welford(xs: seq<real>): Stat
  {
    if xs == [] then EMPTY else WelfordUpdate(Welford(xs[..|xs| - 1]), xs[|xs| - 1])
  }

  function Sum(xs: seq<real>): real
  {
    if xs == [] then 0.0 else Sum(xs[..|xs| - 1]) + xs[|xs| - 1]
  }

  /** Sum of squared deviations from c. */
  function SquaredDeviations(xs: seq<real>, c: real): real
  {
    if xs == [] then 0.0
    else SquaredDeviations(xs[..|xs| - 1], c) + (xs[|xs| - 1] - c) * (xs[|xs| - 1] - c)
  }

  /** Squared deviations q about a, of n values with sum t, moved to c. */
  function Moved(q: real, t: real, n: nat, a: real, c: real): real
  {
    q + 2.0 * (a - c) * (t - n as real * a) + n as real * ((a - c) * (a - c))
  }

  function Squared(x: real): real
  {
    x * x
  }

  lemma MovedStep(q: real, t: real, n: nat, a: real, c: real, x: real)
    ensures Moved(q + Squared(x - a), t + x, n + 1, a, c) == Moved(q, t, n, a, c) + Squared(x - c)
  {
    MovedRing(q, t, n as real, a, c, x);
  }

  lemma MovedRing(q: real, t: real, n: real, a: real, c: real, x: real)
    ensures (q + (x - a) * (x - a)) + 2.0 * (a - c) * (t + x - (n + 1.0) * a) + (n + 1.0) * ((a - c) * (a - c))
      == q + 2.0 * (a - c) * (t - n * a) + n * ((a - c) * (a - c)) + (x - c) * (x - c)
  {
  }

  lemma {:induction false} DeviationsUnfold(xs: seq<real>, c: real)
    requires xs != []
    ensures SquaredDeviations(xs, c) == SquaredDeviations(xs[..|xs| - 1], c) + Squared(xs[|xs| - 1] - c)
  {
  }

  lemma {:induction false} DeviationsMove(xs: seq<real>, a: real, c: real)
    ensures SquaredDeviations(xs, c) == Moved(SquaredDeviations(xs, a), Sum(xs), |xs|, a, c)
  {
    if xs == [] {
    } else {
      hide SquaredDeviations, Moved, Squared;
      var before, x := xs[..|xs| - 1], xs[|xs| - 1];
      DeviationsMove(before, a, c);
      DeviationsUnfold(xs, a);
      DeviationsUnfold(xs, c);
      MovedStep(SquaredDeviations(before, a), Sum(before), |before|, a, c, x);
    }
  }

  /** n * mean. */
  function Total(n: nat, mean: real): real
  {
    n as real * mean
  }

  lemma QuotientTimes(a: real, b: real)
    requires b != 0.0
    ensures a / b * b == a
  {
  }

  lemma MeanMoves(m: real, n: real, mean: real, x: real, sum: real)
    requires m >= 0.0 && n == m + 1.0 && m * mean == sum
    ensures n * (mean + (x - mean) / n) == sum + x
  {
    QuotientTimes(x - mean, n);
    assert n * (mean + (x - mean) / n) == n * mean + (x - mean) / n * n;
  }

  lemma WelfordRing(m: real, n: real, mean: real, x: real, e: real)
    requires n == m + 1.0 && n * e == x - mean
    ensures (x - mean) * (x - (mean + e)) == m * (e * e) + (x - (mean + e)) * (x - (mean + e))
  {
    assert x - (mean + e) == m * e;
    assert x - mean == m * e + e;
  }

  /** One step of the accumulators, on the totals they stand for. */
  lemma WelfordStep(s: Stat, x: real)
    ensures var s' := WelfordUpdate(s, x);
      && s'.n == s.n + 1 && s'.consecutive == s.consecutive
      && Total(s'.n, s'.mean) == Total(s.n, s.mean) + x
      && s'.m2 == Moved(s.m2, Total(s.n, s.mean), s.n, s.mean, s'.mean) + Squared(x - s'.mean)
  {
    var m, n := s.n as real, s.n as real + 1.0;
    var e := (x - s.mean) / n;
    MeanMoves(m, n, s.mean, x, m * s.mean);
    QuotientTimes(x - s.mean, n);
    WelfordRing(m, n, s.mean, x, e);
    MovedFromMean(s.m2, s.n, s.mean, e);
  }

  lemma MovedFromMean(q: real, n: nat, a: real, e: real)
    ensures Moved(q, Total(n, a), n, a, a + e) == q + n as real * (e * e)
  {
    assert 2.0 * (a - (a + e)) * (n as real * a - n as real * a) == 0.0;
    assert (a - (a + e)) * (a - (a + e)) == e * e;
  }

  /** The accumulators are the batch statistics: count, n * mean = sum, m2 = squared deviations. */
  lemma {:induction false} WelfordIsBatch(xs: seq<real>)
    ensures var s := Welford(xs);
      && s.n == |xs| && s.consecutive == 0
      && Total(s.n, s.mean) == Sum(xs)
      && s.m2 == SquaredDeviations(xs, s.mean)
  {
    if xs == [] {
    } else {
      var before, x := xs[..|xs| - 1], xs[|xs| - 1];
      WelfordIsBatch(before);
      var s, s' := Welford(before), WelfordUpdate(Welford(before), x);
      assert Welford(xs) == s';
      assert Sum(xs) == Sum(before) + x;
      hide Welford, WelfordUpdate, Sum, SquaredDeviations, Moved, Total, Squared;
      WelfordStep(s, x);
      DeviationsUnfold(xs, s'.mean);
      DeviationsMove(before, s.mean, s'.mean);
    }
  }

  // --- breaches ---------------------------------------------------------------------

  /** `distance` compares a document's profile with the centroid. */
  datatype Config = Config(baselineN: nat, threshold: real, k: nat, minStd: real,
                           distance: (seq<real>, seq<real>) -> real)

  function Larger(a: real, b: real): real
  {
    if a >= b then a else b
  }

  /** Laplace-smoothed rate of a 0/1 signal. */
  function Smoothed(stat: Stat): real
  {
    (stat.mean * stat.n as real + 0.5) / (stat.n as real + 1.0)
  }

  /** The square of the baseline sigma. */
  function Variance(signal: Signal, stat: Stat, minStd: real): real
  {
    if signal == ValidationFailure then Larger(Smoothed(stat) * (1.0 - Smoothed(stat)), minStd * minStd)
    else if stat.n < 2 then minStd * minStd
    else Larger(stat.m2 / (stat.n as real - 1.0), minStd * minStd)
  }

  /** How far the value moved in the signal's bad direction. */
  function BadMove(signal: Signal, stat: Stat, value: real): real
  {
    if signal == DocConfidence then stat.mean - value else value - stat.mean
  }

  predicate Breaches(cfg: Config, signal: Signal, stat: Stat, value: real)
  {
    var move := BadMove(signal, stat, value);
    move >= 0.0 && Squared(move) >= Squared(cfg.threshold) * Variance(signal, stat, cfg.minStd)
  }

  lemma DifferenceOfSquares(a: real, b: real)
    ensures (a - b) * (a + b) == a * a - b * b
    ensures (b - a) * (a + b) == b * b - a * a
  {
  }

  lemma MulPositive(a: real, b: real)
    requires a > 0.0 && b > 0.0
    ensures a * b > 0.0
  {
  }

  lemma SquaresOrder(a: real, b: real)
    requires a >= 0.0 && b >= 0.0
    ensures a >= b <==> a * a >= b * b
  {
    DifferenceOfSquares(a, b);
    if a >= b {
      MulNonNegative(a - b, a + b);
    } else {
      MulPositive(b - a, a + b);
    }
  }

  lemma ScaledOrder(a: real, b: real, scale: real)
    requires scale > 0.0
    ensures a >= b <==> a * scale >= b * scale
  {
    MulDifference(scale, a, b);
    MulDifference(scale, b, a);
    if a >= b {
      MulNonNegative(a - b, scale);
    } else {
      MulPositive(b - a, scale);
    }
  }

  lemma SquareOfProduct(a: real, b: real, square: real)
    requires b * b == square
    ensures (a * b) * (a * b) == a * a * square
  {
  }

  /** A move of d reaches t sigmas exactly when it is not backwards and its square reaches t^2 variances. */
  lemma SigmasSquared(d: real, t: real, sigma: real, variance: real)
    requires t >= 0.0 && sigma > 0.0 && sigma * sigma == variance
    ensures d >= 0.0 && Squared(d) >= Squared(t) * variance <==> d / sigma >= t
  {
    MulNonNegative(t, sigma);
    SquareOfProduct(t, sigma, variance);
    QuotientTimes(d, sigma);
    ScaledOrder(d / sigma, t, sigma);
    if d >= 0.0 {
      SquaresOrder(d, t * sigma);
    }
  }

  /** The squared test is the source's z-score test, whatever sigma squares to the variance. */
  lemma BreachIsZScore(cfg: Config, signal: Signal, stat: Stat, value: real, sigma: real)
    requires cfg.threshold >= 0.0 && sigma > 0.0 && sigma * sigma == Variance(signal, stat, cfg.minStd)
    ensures var z := (value - stat.mean) / sigma;
      Breaches(cfg, signal, stat, value) <==> if signal == DocConfidence then z <= -cfg.threshold else z >= cfg.threshold
  {
    hide Variance;
    assert Squared(cfg.threshold) == cfg.threshold * cfg.threshold;
    SigmasSquared(BadMove(signal, stat, value), cfg.threshold, sigma, Variance(signal, stat, cfg.minStd));
    assert (stat.mean - value) / sigma == -((value - stat.mean) / sigma);
  }

  // --- one document -----------------------------------------------------------------

  datatype Status = Baseline | Stable | Drifting

  datatype Row = Row(status: Status, observed: nat, stats: map<Signal, Stat>, centroid: Option<seq<real>>,
                     flagged: set<Signal>, firstFlaggedAt: Option<int>)

  const NEW := Row(Baseline, 0, map[], None, {}, None)

  datatype Document = Document(confidence: Option<real>, passed: Option<bool>, profile: seq<real>, at: int)

  /** The value a document carries for a signal, measured against the centroid before it. */
  function Carried(cfg: Config, row: Row, doc: Document, signal: Signal): Option<real>
  {
    match signal
    case DocConfidence => doc.confidence
    case ValidationFailure => if doc.passed.None? then None else Some(if doc.passed.value then 0.0 else 1.0)
    case TextDistance =>
      if row.centroid.Some? && |row.centroid.value| == |doc.profile| then
        Some(cfg.distance(doc.profile, row.centroid.value))
      else None
  }

  predicate Collecting(cfg: Config, row: Row)
  {
    row.observed + 1 <= cfg.baselineN
  }

  function StatAfter(cfg: Config, row: Row, doc: Document, signal: Signal): Option<Stat>
  {
    var stat := if signal in row.stats then Some(row.stats[signal]) else None;
    var value := Carried(cfg, row, doc, signal);
    if value.None? then stat
    else if Collecting(cfg, row) then Some(WelfordUpdate(if stat.Some? then stat.value else EMPTY, value.value))
    else if stat.None? || stat.value.n < 2 then stat
    else Some(stat.value.(consecutive :=
      if Breaches(cfg, signal, stat.value.(consecutive := 0), value.value) then stat.value.consecutive + 1 else 0))
  }

  function StatsAfter(cfg: Config, row: Row, doc: Document): map<Signal, Stat>
  {
    map s | s in SIGNALS && StatAfter(cfg, row, doc, s).Some? :: StatAfter(cfg, row, doc, s).value
  }

  /** A profile that is never empty has a live centroid as soon as one is stored. */
  function CentroidAfter(cfg: Config, row: Row, doc: Document): Option<seq<real>>
  {
    if !Collecting(cfg, row) then row.centroid
    else if row.centroid.None? || |row.centroid.value| != |doc.profile| then Some(doc.profile)
    else Some(seq(|doc.profile|, j requires 0 <= j < |doc.profile| =>
      row.centroid.value[j] + (doc.profile[j] - row.centroid.value[j]) / (row.observed + 1) as real))
  }

  function FlaggedBy(cfg: Config, stats: map<Signal, Stat>): set<Signal>
  {
    set s | s in stats && stats[s].consecutive >= cfg.k
  }

  function Observe(cfg: Config, row: Row, doc: Document): Row
  {
    var stats := StatsAfter(cfg, row, doc);
    var flagged := FlaggedBy(cfg, stats);
    var status :=
      if !Collecting(cfg, row) then row.status
      else if row.observed + 1 >= cfg.baselineN then Stable
      else Baseline;
    Row(if flagged != {} then Drifting else status,
        row.observed + 1, stats, CentroidAfter(cfg, row, doc),
        if flagged != {} then flagged else row.flagged,
        if flagged != {} && row.firstFlaggedAt.None? then Some(doc.at) else row.firstFlaggedAt)
  }

  predicate NewlyFlagged(cfg: Config, row: Row, doc: Document)
  {
    FlaggedBy(cfg, StatsAfter(cfg, row, doc)) != {} && row.flagged == {}
  }

  /** The stored row of one tenant and document type. */
  class DriftStat {
    const cfg: Config
    var status: Status
    var observed: nat
    var stats: map<Signal, Stat>
    var centroid: Option<seq<real>>
    var flaggedSignals: set<Signal>
    var firstFlaggedAt: Option<int>

    constructor (cfg: Config)
      ensures this.cfg == cfg && State() == NEW
    {
      this.cfg := cfg;
      status, observed, stats, centroid, flaggedSignals, firstFlaggedAt := Baseline, 0, map[], None, {}, None;
    }

    function State(): Row
      reads this
    {
      Row(status, observed, stats, centroid, flaggedSignals, firstFlaggedAt)
    }

    /** Fold one signal's value into its accumulator, or judge it against the frozen one. */
    method ObserveSignal(doc: Document, signal: Signal) returns (stat: Option<Stat>)
      ensures stat == StatAfter(cfg, State(), doc, signal)
    {
      hide WelfordUpdate, Breaches;
      stat := if signal in stats then Some(stats[signal]) else None;
      var value := Carried(cfg, State(), doc, signal);
      if value.None? {
        return;
      }
      if observed + 1 <= cfg.baselineN {
        stat := Some(WelfordUpdate(if stat.Some? then stat.value else EMPTY, value.value));
      } else if stat.Some? && stat.value.n >= 2 {
        var breach := Breaches(cfg, signal, stat.value.(consecutive := 0), value.value);
        stat := Some(stat.value.(consecutive := if breach then stat.value.consecutive + 1 else 0));
      }
    }

    /** Restarted by the first profile or by a change of dimension, averaged otherwise, frozen afterwards. */
    method UpdateCentroid(doc: Document)
      modifies `centroid
      ensures centroid == CentroidAfter(cfg, old(State()), doc)
    {
      ghost var row := State();
      if observed + 1 > cfg.baselineN {
        return;
      }
      if centroid.None? || |centroid.value| != |doc.profile| {
        centroid := Some(doc.profile);
        return;
      }
      var existing, count, n := centroid.value, observed + 1, |doc.profile|;
      var moved: seq<real> := [];
      for j := 0 to n
        invariant |moved| == j
        invariant forall i :: 0 <= i < j ==> moved[i] == existing[i] + (doc.profile[i] - existing[i]) / count as real
      {
        moved := moved + [existing[j] + (doc.profile[j] - existing[j]) / count as real];
      }
      centroid := Some(moved);
      assert moved == CentroidAfter(cfg, row, doc).value;
    }

    method ObserveSignals(doc: Document) returns (updated: map<Signal, Stat>)
      ensures updated == StatsAfter(cfg, State(), doc)
    {
      hide StatAfter;
      updated := map[];
      for i := 0 to |SIGNALS|
        invariant updated ==
          map s | s in SIGNALS[..i] && StatAfter(cfg, State(), doc, s).Some? :: StatAfter(cfg, State(), doc, s).value
      {
        var stat := ObserveSignal(doc, SIGNALS[i]);
        assert SIGNALS[..i + 1] == SIGNALS[..i] + [SIGNALS[i]];
        if stat.Some? {
          updated := updated[SIGNALS[i] := stat.value];
        }
      }
      assert SIGNALS[..|SIGNALS|] == SIGNALS;
    }

    method ObserveDocument(doc: Document) returns (newlyFlagged: bool)
      modifies this
      ensures State() == Observe(cfg, old(State()), doc)
      ensures newlyFlagged == NewlyFlagged(cfg, old(State()), doc)
    {
      hide StatsAfter, CentroidAfter;
      var collecting := observed + 1 <= cfg.baselineN;
      var updated := ObserveSignals(doc);
      UpdateCentroid(doc);
      if collecting {
        status := if observed + 1 >= cfg.baselineN then Stable else Baseline;
      }
      var flagged := FlaggedBy(cfg, updated);
      newlyFlagged := flagged != {} && flaggedSignals == {};
      observed, stats := observed + 1, updated;
      if flagged != {} {
        status, flaggedSignals := Drifting, flagged;
        if firstFlaggedAt.None? {
          firstFlaggedAt := Some(doc.at);
        }
      }
    }
  }

  // --- whole streams ------------------------------------------------------------------

  function Stream(cfg: Config, docs: seq<Document>): Row
  {
    if docs == [] then NEW else Observe(cfg, Stream(cfg, docs[..|docs| - 1]), docs[|docs| - 1])
  }

  /** The values a signal carried, in order. */
  function Values(cfg: Config, docs: seq<Document>, s: Signal): seq<real>
  {
    if docs == [] then []
    else
      var value := Carried(cfg, Stream(cfg, docs[..|docs| - 1]), docs[|docs| - 1], s);
      Values(cfg, docs[..|docs| - 1], s) + if value.Some? then [value.value] else []
  }

  lemma {:induction false} ObservedCounts(cfg: Config, docs: seq<Document>)
    ensures Stream(cfg, docs).observed == |docs|
  {
    if docs == [] {
    } else {
      ObservedCounts(cfg, docs[..|docs| - 1]);
    }
  }

  lemma StatsAfterAt(cfg: Config, row: Row, doc: Document, s: Signal)
    ensures s in StatsAfter(cfg, row, doc) <==> StatAfter(cfg, row, doc, s).Some?
    ensures s in StatsAfter(cfg, row, doc) ==> StatsAfter(cfg, row, doc)[s] == StatAfter(cfg, row, doc, s).value
  {
    assert s in SIGNALS by {
      match s
      case DocConfidence => assert SIGNALS[0] == s;
      case ValidationFailure => assert SIGNALS[1] == s;
      case TextDistance => assert SIGNALS[2] == s;
    }
  }

  /** While the baseline is collected, each signal's accumulator is Welford over what it carried. */
  lemma {:induction false} BaselineStats(cfg: Config, docs: seq<Document>, s: Signal)
    requires |docs| <= cfg.baselineN
    ensures s in Stream(cfg, docs).stats <==> Values(cfg, docs, s) != []
    ensures s in Stream(cfg, docs).stats ==> Stream(cfg, docs).stats[s] == Welford(Values(cfg, docs, s))
  {
    if docs == [] {
    } else {
      var before, last := docs[..|docs| - 1], docs[|docs| - 1];
      BaselineStats(cfg, before, s);
      ObservedCounts(cfg, before);
      StatsAfterAt(cfg, Stream(cfg, before), last, s);
      var value := Carried(cfg, Stream(cfg, before), last, s);
      if value.Some? {
        var vs := Values(cfg, docs, s);
        assert vs[..|vs| - 1] == Values(cfg, before, s);
      } else {
        assert Values(cfg, docs, s) == Values(cfg, before, s);
      }
    }
  }

  /** So after any baseline the row holds each signal's batch statistics. */
  lemma {:induction false} BaselineIsBatch(cfg: Config, docs: seq<Document>, s: Signal)
    requires |docs| <= cfg.baselineN && s in Stream(cfg, docs).stats
    ensures var stat, xs := Stream(cfg, docs).stats[s], Values(cfg, docs, s);
      && stat.n == |xs| && Total(stat.n, stat.mean) == Sum(xs)
      && stat.m2 == SquaredDeviations(xs, stat.mean)
  {
    hide Stream, Welford;
    BaselineStats(cfg, docs, s);
    WelfordIsBatch(Values(cfg, docs, s));
  }

  function Coordinate(docs: seq<Document>, j: nat): seq<real>
    requires forall d :: d in docs ==> j < |d.profile|
  {
    seq(|docs|, i requires 0 <= i < |docs| => assert docs[i] in docs; docs[i].profile[j])
  }

  lemma CentroidStep(cfg: Config, row: Row, doc: Document, j: nat, sum: real)
    requires Collecting(cfg, row) && j < |doc.profile|
    requires row.centroid.None? ==> row.observed == 0 && sum == 0.0
    requires row.centroid.Some? ==>
      |row.centroid.value| == |doc.profile| && Total(row.observed, row.centroid.value[j]) == sum
    ensures var c := CentroidAfter(cfg, row, doc);
      c.Some? && |c.value| == |doc.profile| && Total(row.observed + 1, c.value[j]) == sum + doc.profile[j]
  {
    if row.centroid.Some? {
      MeanMoves(row.observed as real, (row.observed + 1) as real, row.centroid.value[j], doc.profile[j], sum);
    }
  }

  /** The centroid is the elementwise mean of the profiles, as long as the dimension stays put. */
  lemma {:induction false} CentroidIsMean(cfg: Config, docs: seq<Document>, dim: nat, j: nat)
    requires 1 <= |docs| <= cfg.baselineN && j < dim
    requires forall d :: d in docs ==> |d.profile| == dim
    ensures var row := Stream(cfg, docs);
      && row.centroid.Some? && |row.centroid.value| == dim
      && Total(row.observed, row.centroid.value[j]) == Sum(Coordinate(docs, j))
  {
    var before, last := docs[..|docs| - 1], docs[|docs| - 1];
    ObservedCounts(cfg, before);
    assert last in docs;
    assert Coordinate(docs, j)[..|docs| - 1] == Coordinate(before, j);
    assert Sum(Coordinate(docs, j)) == Sum(Coordinate(before, j)) + last.profile[j];
    hide CentroidAfter, StatsAfter, Sum, FlaggedBy, Total;
    if before == [] {
    } else {
      CentroidIsMean(cfg, before, dim, j);
    }
    CentroidStep(cfg, Stream(cfg, before), last, j, Sum(Coordinate(before, j)));
  }

  /** The baseline a stream was frozen at. */
  function Frozen(cfg: Config, docs: seq<Document>): Row
    requires |docs| >= cfg.baselineN
  {
    Stream(cfg, docs[..cfg.baselineN])
  }

  /** Frozen for good: no later document moves a statistic or the centroid. */
  lemma {:induction false} BaselineIsFrozen(cfg: Config, docs: seq<Document>, s: Signal)
    requires |docs| >= cfg.baselineN
    ensures var row, base := Stream(cfg, docs), Frozen(cfg, docs);
      && row.centroid == base.centroid
      && (s in row.stats <==> s in base.stats)
      && (s in base.stats ==> row.stats[s].(consecutive := 0) == base.stats[s].(consecutive := 0))
  {
    if |docs| == cfg.baselineN {
      assert docs[..cfg.baselineN] == docs;
    } else {
      var before := docs[..|docs| - 1];
      assert before[..cfg.baselineN] == docs[..cfg.baselineN];
      BaselineIsFrozen(cfg, before, s);
      ObservedCounts(cfg, before);
      StatsAfterAt(cfg, Stream(cfg, before), docs[|docs| - 1], s);
    }
  }

  lemma {:induction false} RateValues(cfg: Config, docs: seq<Document>)
    ensures forall i :: 0 <= i < |Values(cfg, docs, ValidationFailure)| ==>
      0.0 <= Values(cfg, docs, ValidationFailure)[i] <= 1.0
  {
    if docs == [] {
    } else {
      RateValues(cfg, docs[..|docs| - 1]);
    }
  }

  lemma {:induction false} SumOfRates(xs: seq<real>)
    requires forall i :: 0 <= i < |xs| ==> 0.0 <= xs[i] <= 1.0
    ensures 0.0 <= Sum(xs) <= |xs| as real
  {
    if xs == [] {
    } else {
      SumOfRates(xs[..|xs| - 1]);
    }
  }

  /** The rate signal's variance is positive by itself, even with no floor at all. */
  lemma {:induction false} RateVarianceIsPositive(cfg: Config, docs: seq<Document>)
    requires |docs| <= cfg.baselineN && ValidationFailure in Stream(cfg, docs).stats
    ensures Variance(ValidationFailure, Stream(cfg, docs).stats[ValidationFailure], 0.0) > 0.0
  {
    hide Variance, Stream, Values, SquaredDeviations, Sum;
    BaselineIsBatch(cfg, docs, ValidationFailure);
    RateValues(cfg, docs);
    SumOfRates(Values(cfg, docs, ValidationFailure));
    RateVariance(Stream(cfg, docs).stats[ValidationFailure], Sum(Values(cfg, docs, ValidationFailure)));
  }

  lemma RateVariance(stat: Stat, sum: real)
    requires Total(stat.n, stat.mean) == sum && 0.0 <= sum <= stat.n as real
    ensures Variance(ValidationFailure, stat, 0.0) > 0.0
  {
    SmoothedIsInside(stat);
    hide Smoothed;
    MulPositive(Smoothed(stat), 1.0 - Smoothed(stat));
  }

  lemma SmoothedIsInside(stat: Stat)
    requires 0.0 <= Total(stat.n, stat.mean) <= stat.n as real
    ensures 0.0 < Smoothed(stat) < 1.0
  {
    var a, b := stat.mean * stat.n as real + 0.5, stat.n as real + 1.0;
    assert 0.0 < a < b;
    assert Smoothed(stat) == a / b;
    QuotientInside(a, b);
  }

  lemma QuotientInside(a: real, b: real)
    requires 0.0 < a < b
    ensures 0.0 < a / b < 1.0
  {
    QuotientTimes(a, b);
    FactorInside(a / b, a, b);
  }

  lemma FactorInside(q: real, a: real, b: real)
    requires 0.0 < a < b && q * b == a
    ensures 0.0 < q < 1.0
  {
    ScaledOrder(0.0, q, b);
    ScaledOrder(q, 1.0, b);
  }

  // --- the verdict --------------------------------------------------------------------

  /** The later documents' breaches of one signal, each judged against the frozen baseline. */
  function Judged(cfg: Config, base: Row, later: seq<Document>, s: Signal): seq<bool>
  {
    if later == [] || s !in base.stats || base.stats[s].n < 2 then []
    else
      var value := Carried(cfg, base, later[|later| - 1], s);
      Judged(cfg, base, later[..|later| - 1], s)
        + if value.Some? then [Breaches(cfg, s, base.stats[s].(consecutive := 0), value.value)] else []
  }

  /** Length of the run of breaches at the end. */
  function Trailing(bs: seq<bool>): nat
  {
    if bs == [] || !bs[|bs| - 1] then 0 else Trailing(bs[..|bs| - 1]) + 1
  }

  lemma {:induction false} TrailingIsRun(bs: seq<bool>, k: nat)
    ensures Trailing(bs) >= k <==> |bs| >= k && forall i :: |bs| - k <= i < |bs| ==> bs[i]
  {
    if bs != [] && k > 0 {
      var before := bs[..|bs| - 1];
      TrailingIsRun(before, k - 1);
      assert forall i :: 0 <= i < |before| ==> bs[i] == before[i];
    }
  }

  lemma {:induction false} BaselineHasNoRun(cfg: Config, docs: seq<Document>, s: Signal)
    requires |docs| <= cfg.baselineN && s in Stream(cfg, docs).stats
    ensures Stream(cfg, docs).stats[s].consecutive == 0
  {
    hide Stream, Welford;
    BaselineStats(cfg, docs, s);
    WelfordIsBatch(Values(cfg, docs, s));
  }

  /** Past the baseline, one document moves a run exactly as its judgement says. */
  lemma RunStep(cfg: Config, row: Row, base: Row, doc: Document, s: Signal)
    requires !Collecting(cfg, row) && s in row.stats && s in base.stats && row.centroid == base.centroid
    requires row.stats[s].(consecutive := 0) == base.stats[s].(consecutive := 0)
    ensures var value, run := Carried(cfg, base, doc, s), row.stats[s].consecutive;
      s in StatsAfter(cfg, row, doc) && StatsAfter(cfg, row, doc)[s].consecutive ==
        if value.None? || base.stats[s].n < 2 then run
        else if Breaches(cfg, s, base.stats[s].(consecutive := 0), value.value) then run + 1
        else 0
  {
    hide WelfordUpdate, Breaches;
    StatsAfterAt(cfg, row, doc, s);
  }

  lemma {:induction false} RunIsTrailing(cfg: Config, docs: seq<Document>, s: Signal)
    requires |docs| >= cfg.baselineN && s in Stream(cfg, docs).stats
    ensures Stream(cfg, docs).stats[s].consecutive
      == Trailing(Judged(cfg, Frozen(cfg, docs), docs[cfg.baselineN..], s))
  {
    hide Breaches, StatsAfter, CentroidAfter;
    if |docs| == cfg.baselineN {
      BaselineHasNoRun(cfg, docs, s);
    } else {
      var before, last := docs[..|docs| - 1], docs[|docs| - 1];
      var later := docs[cfg.baselineN..];
      assert before[..cfg.baselineN] == docs[..cfg.baselineN];
      assert later[..|later| - 1] == before[cfg.baselineN..];
      BaselineIsFrozen(cfg, docs, s);
      BaselineIsFrozen(cfg, before, s);
      ObservedCounts(cfg, before);
      RunIsTrailing(cfg, before, s);
      RunStep(cfg, Stream(cfg, before), Frozen(cfg, docs), last, s);
      TrailingStep(cfg, Frozen(cfg, docs), later, s);
    }
  }

  lemma {:induction false} TrailingStep(cfg: Config, base: Row, later: seq<Document>, s: Signal)
    requires later != [] && s in base.stats
    ensures var before := Judged(cfg, base, later[..|later| - 1], s);
            var value := Carried(cfg, base, later[|later| - 1], s);
      Trailing(Judged(cfg, base, later, s)) ==
        if value.None? || base.stats[s].n < 2 then Trailing(before)
        else if Breaches(cfg, s, base.stats[s].(consecutive := 0), value.value) then Trailing(before) + 1
        else 0
  {
    hide Breaches, Carried;
    assert Trailing([]) == 0;
    var before, all := Judged(cfg, base, later[..|later| - 1], s), Judged(cfg, base, later, s);
    if |all| > |before| {
      assert all[..|all| - 1] == before;
    } else {
      assert all == before;
    }
  }

  lemma {:induction false} JudgedAtMost(cfg: Config, base: Row, later: seq<Document>, s: Signal)
    ensures |Judged(cfg, base, later, s)| <= |later|
  {
    if later == [] {
    } else {
      JudgedAtMost(cfg, base, later[..|later| - 1], s);
    }
  }

  /** A signal is flagged exactly when its last k carried values after the baseline all breach it. */
  lemma {:induction false} FlaggedIffLastKBreach(cfg: Config, docs: seq<Document>, s: Signal)
    requires |docs| >= cfg.baselineN && cfg.k >= 1
    ensures var judged := Judged(cfg, Frozen(cfg, docs), docs[cfg.baselineN..], s);
      s in FlaggedBy(cfg, Stream(cfg, docs).stats)
      <==> |judged| >= cfg.k && forall i :: |judged| - cfg.k <= i < |judged| ==> judged[i]
  {
    BaselineIsFrozen(cfg, docs, s);
    TrailingIsRun(Judged(cfg, Frozen(cfg, docs), docs[cfg.baselineN..], s), cfg.k);
    if s in Stream(cfg, docs).stats {
      RunIsTrailing(cfg, docs, s);
    }
  }

  // --- the verdict in the documents' own terms --------------------------------------------

  /** The validation results of the documents that had one, in order. */
  function Results(docs: seq<Document>): seq<bool>
  {
    if docs == [] then []
    else
      var last := docs[|docs| - 1];
      Results(docs[..|docs| - 1]) + if last.passed.Some? then [last.passed.value] else []
  }

  function Failures(results: seq<bool>): nat
  {
    if results == [] then 0
    else Failures(results[..|results| - 1]) + if results[|results| - 1] then 0 else 1
  }

  /** The confidences of the documents that had one, in order. */
  function Confidences(docs: seq<Document>): seq<real>
  {
    if docs == [] then []
    else
      var last := docs[|docs| - 1];
      Confidences(docs[..|docs| - 1]) + if last.confidence.Some? then [last.confidence.value] else []
  }

  lemma {:induction false} SumAdd(xs: seq<real>, x: real)
    ensures Sum(xs + [x]) == Sum(xs) + x
  {
    assert (xs + [x])[..|xs|] == xs;
  }

  lemma {:induction false} FailuresAdd(results: seq<bool>, passed: bool)
    ensures Failures(results + [passed]) == Failures(results) + if passed then 0 else 1
  {
    assert (results + [passed])[..|results|] == results;
  }

  /** A failure counts one and a pass nothing. */
  lemma {:induction false} RateValuesAreResults(cfg: Config, docs: seq<Document>)
    ensures |Values(cfg, docs, ValidationFailure)| == |Results(docs)|
    ensures Sum(Values(cfg, docs, ValidationFailure)) == Failures(Results(docs)) as real
  {
    if docs == [] {
    } else {
      var before, last := docs[..|docs| - 1], docs[|docs| - 1];
      RateValuesAreResults(cfg, before);
      assert Carried(cfg, Stream(cfg, before), last, ValidationFailure)
          == if last.passed.None? then None else Some(if last.passed.value then 0.0 else 1.0);
      var values, results := Values(cfg, before, ValidationFailure), Results(before);
      assert values + [] == values && results + [] == results;
      hide Stream, Sum, Failures;
      if last.passed.Some? {
        SumAdd(values, if last.passed.value then 0.0 else 1.0);
        FailuresAdd(results, last.passed.value);
      }
    }
  }

  lemma {:induction false} ValuesAreConfidences(cfg: Config, docs: seq<Document>)
    ensures Values(cfg, docs, DocConfidence) == Confidences(docs)
  {
    if docs == [] {
    } else {
      ValuesAreConfidences(cfg, docs[..|docs| - 1]);
    }
  }

  lemma {:induction false} JudgedResults(cfg: Config, base: Row, later: seq<Document>)
    requires ValidationFailure in base.stats && base.stats[ValidationFailure].n >= 2
    ensures var (judged, results) := (Judged(cfg, base, later, ValidationFailure), Results(later));
      && |judged| == |results|
      && forall i :: 0 <= i < |results| ==>
           judged[i] == Breaches(cfg, ValidationFailure, base.stats[ValidationFailure].(consecutive := 0),
                                 if results[i] then 0.0 else 1.0)
  {
    hide Breaches;
    if later == [] {
    } else {
      JudgedResults(cfg, base, later[..|later| - 1]);
    }
  }

  lemma {:induction false} JudgedConfidences(cfg: Config, base: Row, later: seq<Document>)
    requires DocConfidence in base.stats && base.stats[DocConfidence].n >= 2
    ensures var (judged, confidences) := (Judged(cfg, base, later, DocConfidence), Confidences(later));
      && |judged| == |confidences|
      && forall i :: 0 <= i < |confidences| ==>
           judged[i] == Breaches(cfg, DocConfidence, base.stats[DocConfidence].(consecutive := 0), confidences[i])
  {
    hide Breaches;
    if later == [] {
    } else {
      JudgedConfidences(cfg, base, later[..|later| - 1]);
    }
  }

  lemma MeanOf(n: nat, mean: real, sum: real)
    requires n > 0 && Total(n, mean) == sum
    ensures mean == sum / n as real && mean * n as real == sum
  {
    QuotientTimes(sum, n as real);
    EqualQuotient(mean, sum / n as real, n as real);
  }

  lemma EqualQuotient(a: real, b: real, n: real)
    requires n > 0.0 && a * n == b * n
    ensures a == b
  {
    ScaledOrder(a, b, n);
    ScaledOrder(b, a, n);
  }

  /** The variance of a baseline of n results, `failures` of them failures, with half a failure added to one more. */
  function RateVarianceOf(n: nat, failures: nat): real
  {
    var rate := (failures as real + 0.5) / (n as real + 1.0);
    rate * (1.0 - rate)
  }

  /** How far a failing document is from the baseline's failure rate, squared, against the threshold. */
  predicate FailureStandsOut(cfg: Config, n: nat, failures: nat)
    requires n > 0
  {
    Squared(1.0 - failures as real / n as real)
      >= Squared(cfg.threshold) * Larger(RateVarianceOf(n, failures), Squared(cfg.minStd))
  }

  lemma RateIs(stat: Stat, failures: nat)
    requires stat.n >= 1 && failures <= stat.n && Total(stat.n, stat.mean) == failures as real
    ensures stat.mean == failures as real / stat.n as real && 0.0 <= stat.mean <= 1.0
  {
    MeanOf(stat.n, stat.mean, failures as real);
    ScaledOrder(stat.mean, 0.0, stat.n as real);
    ScaledOrder(1.0, stat.mean, stat.n as real);
  }

  lemma SameQuotient(a: real, b: real, n: real)
    requires n > 0.0 && a == b
    ensures a / n == b / n
  {
  }

  lemma SmoothedVarianceIs(stat: Stat, failures: nat)
    requires stat.n >= 1 && Total(stat.n, stat.mean) == failures as real
    ensures Smoothed(stat) * (1.0 - Smoothed(stat)) == RateVarianceOf(stat.n, failures)
  {
    MeanOf(stat.n, stat.mean, failures as real);
    SameQuotient(stat.mean * stat.n as real + 0.5, failures as real + 0.5, stat.n as real + 1.0);
  }

  lemma ProductPositive(a: real, b: real, product: real)
    requires a > 0.0 && b > 0.0 && product == a * b
    ensures product > 0.0
  {
  }

  lemma SquarePositive(x: real)
    requires x > 0.0
    ensures Squared(x) > 0.0
  {
    ProductPositive(x, x, Squared(x));
  }

  lemma SquareOfZero(x: real)
    requires x == 0.0
    ensures Squared(x) == 0.0
  {
  }

  lemma VarianceIs(cfg: Config, stat: Stat, failures: nat)
    requires stat.n >= 1 && failures <= stat.n && Total(stat.n, stat.mean) == failures as real
    ensures Variance(ValidationFailure, stat, cfg.minStd)
      == Larger(RateVarianceOf(stat.n, failures), Squared(cfg.minStd))
    ensures Variance(ValidationFailure, stat, cfg.minStd) > 0.0
  {
    RateVariance(stat, failures as real);
    SmoothedVarianceIs(stat, failures);
    hide Smoothed, RateVarianceOf, Total;
  }

  lemma FailingDocumentBreaches(cfg: Config, stat: Stat, failures: nat)
    requires stat.n >= 1 && failures <= stat.n && Total(stat.n, stat.mean) == failures as real
    ensures Breaches(cfg, ValidationFailure, stat, 1.0) <==> FailureStandsOut(cfg, stat.n, failures)
  {
    hide Variance, RateVarianceOf, Total, Larger, Squared;
    RateIs(stat, failures);
    VarianceIs(cfg, stat, failures);
  }

  lemma PassingDocumentDoesNot(cfg: Config, stat: Stat, failures: nat)
    requires stat.n >= 1 && failures <= stat.n && Total(stat.n, stat.mean) == failures as real
    requires cfg.threshold > 0.0
    ensures !Breaches(cfg, ValidationFailure, stat, 0.0)
  {
    hide Variance, RateVarianceOf, Total, Larger, Squared;
    VarianceIs(cfg, stat, failures);
    assert stat.mean >= 0.0 by {
      RateIs(stat, failures);
    }
    var variance := Variance(ValidationFailure, stat, cfg.minStd);
    SquarePositive(cfg.threshold);
    ProductPositive(Squared(cfg.threshold), variance, Squared(cfg.threshold) * variance);
    if stat.mean == 0.0 {
      SquareOfZero(0.0 - stat.mean);
    }
  }

  lemma {:induction false} FailuresAtMost(results: seq<bool>)
    ensures Failures(results) <= |results|
  {
    if results == [] {
    } else {
      FailuresAtMost(results[..|results| - 1]);
    }
  }

  /** Where the baseline stands on validation, in results. */
  lemma {:induction false} RateBaseline(cfg: Config, docs: seq<Document>)
    requires |docs| <= cfg.baselineN
    ensures var (row, results) := (Stream(cfg, docs), Results(docs));
      && (ValidationFailure in row.stats <==> results != [])
      && Failures(results) <= |results|
      && (ValidationFailure in row.stats ==>
            var stat := row.stats[ValidationFailure];
            stat.n == |results| && stat.consecutive == 0 && Total(stat.n, stat.mean) == Failures(results) as real)
  {
    hide Stream, Values, SquaredDeviations, Sum, Welford, Total;
    BaselineStats(cfg, docs, ValidationFailure);
    RateValuesAreResults(cfg, docs);
    WelfordIsBatch(Values(cfg, docs, ValidationFailure));
    FailuresAtMost(Results(docs));
  }

  lemma {:induction false} NotJudged(cfg: Config, base: Row, later: seq<Document>, s: Signal)
    requires s in base.stats ==> base.stats[s].n < 2
    ensures Judged(cfg, base, later, s) == []
  {
  }

  /** Each judgement of a later document, in results. */
  lemma {:induction false} RateJudgements(cfg: Config, base: Row, later: seq<Document>, failures: nat)
    requires ValidationFailure in base.stats && base.stats[ValidationFailure].n >= 2 && cfg.threshold > 0.0
    requires var stat := base.stats[ValidationFailure];
      failures <= stat.n && Total(stat.n, stat.mean) == failures as real
    ensures var (judged, results) := (Judged(cfg, base, later, ValidationFailure), Results(later));
      && |judged| == |results|
      && forall i :: 0 <= i < |results| ==>
           judged[i] == (!results[i] && FailureStandsOut(cfg, base.stats[ValidationFailure].n, failures))
  {
    var stat := base.stats[ValidationFailure].(consecutive := 0);
    hide *;
    JudgedResults(cfg, base, later);
    FailingDocumentBreaches(cfg, stat, failures);
    PassingDocumentDoesNot(cfg, stat, failures);
  }

  predicate LastFailed(results: seq<bool>, k: nat)
  {
    |results| >= k && forall i :: |results| - k <= i < |results| ==> !results[i]
  }

  lemma LastAreFailures(judged: seq<bool>, results: seq<bool>, k: nat, standsOut: bool)
    requires |judged| == |results| && k >= 1
    requires forall i :: 0 <= i < |results| ==> judged[i] == (!results[i] && standsOut)
    ensures |judged| >= k && (forall i :: |judged| - k <= i < |judged| ==> judged[i])
      <==> standsOut && LastFailed(results, k)
  {
    if |judged| >= k {
      assert judged[|judged| - 1] == (!results[|judged| - 1] && standsOut);
    }
  }

  /**
    In results alone: validation is flagged exactly when the baseline has at least
    two results, the last k results after it are all failures, and a failure
    stands out from the baseline's failure rate.
   */
  lemma {:induction false} RateFlaggedIff(cfg: Config, docs: seq<Document>)
    requires |docs| >= cfg.baselineN && cfg.k >= 1 && cfg.threshold > 0.0
    ensures var (first, later) := (Results(docs[..cfg.baselineN]), Results(docs[cfg.baselineN..]));
      ValidationFailure in FlaggedBy(cfg, Stream(cfg, docs).stats)
      <==> |first| >= 2 && FailureStandsOut(cfg, |first|, Failures(first)) && LastFailed(later, cfg.k)
  {
    var base, rest := Frozen(cfg, docs), docs[cfg.baselineN..];
    var first, later := Results(docs[..cfg.baselineN]), Results(rest);
    hide Stream, Judged, Results, Failures, FailureStandsOut, Total, FlaggedBy;
    assert base == Stream(cfg, docs[..cfg.baselineN]);
    hide *;
    RateBaseline(cfg, docs[..cfg.baselineN]);
    FlaggedIffLastKBreach(cfg, docs, ValidationFailure);
    if |first| >= 2 {
      RateJudgements(cfg, base, rest, Failures(first));
      LastAreFailures(Judged(cfg, base, rest, ValidationFailure), later, cfg.k,
                      FailureStandsOut(cfg, |first|, Failures(first)));
    } else {
      NotJudged(cfg, base, rest, ValidationFailure);
    }
  }

  /**
    With the deployed thresholds a failing document stands out from a baseline of
    fifty with up to four failures, and from none with five.
   */
  lemma FailureStandsOutAsDeployed(cfg: Config)
    requires cfg.baselineN == 50 && cfg.threshold == 3.0 && cfg.k == 3 && cfg.minStd == 0.01
    ensures FailureStandsOut(cfg, 50, 0) && FailureStandsOut(cfg, 50, 4) && !FailureStandsOut(cfg, 50, 5)
  {
    assert Squared(3.0) == 9.0 && Squared(0.01) == 0.0001;
    assert RateVarianceOf(50, 0) == 25.25 / 2601.0;
    assert RateVarianceOf(50, 4) == 209.25 / 2601.0;
    assert RateVarianceOf(50, 5) == 250.25 / 2601.0;
    assert Squared(1.0 - 4.0 / 50.0) == 0.8464 && Squared(1.0 - 5.0 / 50.0) == 0.81;
    hide Squared, RateVarianceOf;
  }

  /** A confidence breaches when it is below the baseline's mean by the threshold's worth of sample deviations. */
  predicate ConfidenceStandsOut(cfg: Config, baseline: seq<real>, confidence: real)
    requires |baseline| >= 2
  {
    var mean := Sum(baseline) / |baseline| as real;
    && confidence <= mean
    && Squared(mean - confidence)
         >= Squared(cfg.threshold)
            * Larger(SquaredDeviations(baseline, mean) / (|baseline| as real - 1.0), Squared(cfg.minStd))
  }

  lemma {:induction false} ConfidenceBreaches(cfg: Config, stat: Stat, baseline: seq<real>, confidence: real)
    requires |baseline| >= 2 && stat.n == |baseline|
    requires Total(stat.n, stat.mean) == Sum(baseline) && stat.m2 == SquaredDeviations(baseline, stat.mean)
    ensures Breaches(cfg, DocConfidence, stat, confidence) <==> ConfidenceStandsOut(cfg, baseline, confidence)
  {
    hide Sum, SquaredDeviations;
    MeanOf(stat.n, stat.mean, Sum(baseline));
  }

  /**
    In confidences alone: confidence is flagged exactly when the baseline has at
    least two and the last k after it all stand out from them, downwards.
   */
  lemma {:induction false} ConfidenceFlaggedIff(cfg: Config, docs: seq<Document>)
    requires |docs| >= cfg.baselineN && cfg.k >= 1
    ensures var (first, later) := (Confidences(docs[..cfg.baselineN]), Confidences(docs[cfg.baselineN..]));
      DocConfidence in FlaggedBy(cfg, Stream(cfg, docs).stats)
      <==> && |first| >= 2 && |later| >= cfg.k
           && forall i :: |later| - cfg.k <= i < |later| ==> ConfidenceStandsOut(cfg, first, later[i])
  {
    var base, rest := Frozen(cfg, docs), docs[cfg.baselineN..];
    var first, later := Confidences(docs[..cfg.baselineN]), Confidences(rest);
    BaselineStats(cfg, docs[..cfg.baselineN], DocConfidence);
    ValuesAreConfidences(cfg, docs[..cfg.baselineN]);
    WelfordIsBatch(first);
    var judged := Judged(cfg, base, rest, DocConfidence);
    assert !(|first| >= 2) ==> judged == [];
    hide Stream, Judged, Confidences, Breaches, ConfidenceStandsOut, Sum, SquaredDeviations, Welford, Values, Total;
    FlaggedIffLastKBreach(cfg, docs, DocConfidence);
    if |first| >= 2 {
      JudgedConfidences(cfg, base, rest);
      forall i | 0 <= i < |later| ensures judged[i] == ConfidenceStandsOut(cfg, first, later[i]) {
        ConfidenceBreaches(cfg, base.stats[DocConfidence].(consecutive := 0), first, later[i]);
      }
    }
  }

  /** The text signal is the distance to the mean profile of the documents so far, of the baseline once it is full. */
  lemma {:induction false} TextIsMeasuredFromMean(cfg: Config, docs: seq<Document>, doc: Document, j: nat)
    requires docs != [] && cfg.baselineN >= 1 && j < |doc.profile|
    requires forall d :: d in docs ==> |d.profile| == |doc.profile|
    ensures var m := Min(|docs|, cfg.baselineN);
      var centroid := Stream(cfg, docs).centroid;
      && (forall d :: d in docs[..m] ==> |d.profile| == |doc.profile|)
      && centroid.Some? && |centroid.value| == |doc.profile|
      && Total(m, centroid.value[j]) == Sum(Coordinate(docs[..m], j))
      && Carried(cfg, Stream(cfg, docs), doc, TextDistance) == Some(cfg.distance(doc.profile, centroid.value))
  {
    var m := Min(|docs|, cfg.baselineN);
    assert forall d :: d in docs[..m] ==> d in docs;
    assert docs[..|docs|] == docs;
    hide Stream, Total, Sum;
    CentroidIsMean(cfg, docs[..m], |doc.profile|, j);
    ObservedCounts(cfg, docs[..m]);
    if |docs| > cfg.baselineN {
      BaselineIsFrozen(cfg, docs, TextDistance);
    }
  }

  /** Nothing is flagged before k documents past the baseline. */
  lemma {:induction false} NothingFlaggedEarly(cfg: Config, docs: seq<Document>, s: Signal)
    requires cfg.k >= 1 && s in FlaggedBy(cfg, Stream(cfg, docs).stats)
    ensures |docs| >= cfg.baselineN + cfg.k
  {
    if |docs| < cfg.baselineN {
      BaselineHasNoRun(cfg, docs, s);
    } else {
      FlaggedIffLastKBreach(cfg, docs, s);
      JudgedAtMost(cfg, Frozen(cfg, docs), docs[cfg.baselineN..], s);
    }
  }

  /** What a row shows agrees with how many documents it has seen and what it once flagged. */
  ghost predicate Consistent(cfg: Config, row: Row)
  {
    && (row.flagged != {} <==> row.status == Drifting)
    && (row.flagged != {} <==> row.firstFlaggedAt.Some?)
    && (row.observed < cfg.baselineN ==> row.status == Baseline)
    && (row.observed >= cfg.baselineN > 0 ==> row.status != Baseline)
  }

  lemma {:induction false} StreamIsConsistent(cfg: Config, docs: seq<Document>)
    requires cfg.k >= 1
    ensures Consistent(cfg, Stream(cfg, docs))
  {
    if docs == [] {
    } else {
      StreamIsConsistent(cfg, docs[..|docs| - 1]);
      ObservedCounts(cfg, docs[..|docs| - 1]);
      var flagged := FlaggedBy(cfg, Stream(cfg, docs).stats);
      if flagged != {} {
        var s :| s in flagged;
        NothingFlaggedEarly(cfg, docs, s);
      }
    }
  }

  function StatusRank(status: Status): nat
  {
    match status
    case Baseline => 0
    case Stable => 1
    case Drifting => 2
  }

  /** Status runs baseline* stable* drifting*; once raised, the flag and its first time stay as written. */
  lemma {:induction false} VerdictIsMonotone(cfg: Config, docs: seq<Document>, i: nat)
    requires cfg.k >= 1 && i <= |docs|
    ensures var early, late := Stream(cfg, docs[..i]), Stream(cfg, docs);
      && StatusRank(early.status) <= StatusRank(late.status)
      && (early.firstFlaggedAt.Some? ==> late.firstFlaggedAt == early.firstFlaggedAt)
      && (early.flagged != {} ==> late.flagged != {})
  {
    if i == |docs| {
      assert docs[..i] == docs;
    } else {
      var before := docs[..|docs| - 1];
      assert before[..i] == docs[..i];
      VerdictIsMonotone(cfg, before, i);
      StreamIsConsistent(cfg, before);
      StreamIsConsistent(cfg, docs);
      ObservedCounts(cfg, before);
    }
  }

  /** Drift is announced at most once in the life of a row. */
  lemma {:induction false} NewlyFlaggedOnce(cfg: Config, docs: seq<Document>, i: nat, j: nat)
    requires cfg.k >= 1 && i < j < |docs|
    requires NewlyFlagged(cfg, Stream(cfg, docs[..i]), docs[i])
    ensures !NewlyFlagged(cfg, Stream(cfg, docs[..j]), docs[j])
  {
    assert docs[..i + 1][..i] == docs[..i];
    assert docs[..j][..i + 1] == docs[..i + 1];
    VerdictIsMonotone(cfg, docs[..j], i + 1);
  }

  /** Some signal is flagged right after the first m documents. */
  ghost predicate RaisedAfter(cfg: Config, docs: seq<Document>, m: nat)
    requires m <= |docs|
  {
    FlaggedBy(cfg, Stream(cfg, docs[..m]).stats) != {}
  }

  ghost predicate FirstRaised(cfg: Config, docs: seq<Document>, i: nat)
    requires i < |docs|
  {
    RaisedAfter(cfg, docs, i + 1) && forall m :: 0 <= m <= i ==> !RaisedAfter(cfg, docs, m)
  }

  lemma RaisedInPrefix(cfg: Config, docs: seq<Document>, n: nat)
    requires n <= |docs|
    ensures forall m :: 0 <= m <= n ==> (RaisedAfter(cfg, docs[..n], m) <==> RaisedAfter(cfg, docs, m))
  {
    hide Stream, FlaggedBy;
    assert forall m :: 0 <= m <= n ==> docs[..n][..m] == docs[..m];
  }

  lemma {:induction false} ObserveFlags(cfg: Config, row: Row, doc: Document)
    ensures var (after, now) := (Observe(cfg, row, doc), FlaggedBy(cfg, Observe(cfg, row, doc).stats));
      && after.flagged == (if now != {} then now else row.flagged)
      && (now != {} && row.firstFlaggedAt.None? ==> after.firstFlaggedAt == Some(doc.at))
      && (NewlyFlagged(cfg, row, doc) <==> now != {} && row.flagged == {})
  {
    hide StatsAfter, CentroidAfter, FlaggedBy;
  }

  lemma {:induction false} NothingRaisedYet(cfg: Config)
    ensures !RaisedAfter(cfg, [], 0) && Stream(cfg, []).flagged == {}
  {
  }

  /** The row's flags are the latest raised, and there are some exactly when anything ever was raised. */
  lemma {:induction false} FlaggedIffRaised(cfg: Config, docs: seq<Document>)
    ensures Stream(cfg, docs).flagged != {} <==> exists m :: 0 <= m <= |docs| && RaisedAfter(cfg, docs, m)
    ensures RaisedAfter(cfg, docs, |docs|) ==> Stream(cfg, docs).flagged == FlaggedBy(cfg, Stream(cfg, docs).stats)
  {
    hide Observe, FlaggedBy;
    assert docs[..|docs|] == docs;
    if docs == [] {
      NothingRaisedYet(cfg);
    } else {
      var n, before := |docs| - 1, docs[..|docs| - 1];
      FlaggedIffRaised(cfg, before);
      RaisedInPrefix(cfg, docs, n);
      assert RaisedAfter(cfg, docs, |docs|) <==> FlaggedBy(cfg, Stream(cfg, docs).stats) != {};
      assert Stream(cfg, docs) == Observe(cfg, Stream(cfg, before), docs[n]);
      hide *;
      ObserveFlags(cfg, Stream(cfg, before), docs[n]);
      if m :| 0 <= m <= n && RaisedAfter(cfg, before, m) {
        assert RaisedAfter(cfg, docs, m);
      }
      if m :| 0 <= m <= n && RaisedAfter(cfg, docs, m) {
        assert RaisedAfter(cfg, before, m);
      }
    }
  }

  /** The announcement, and the time kept, are those of the first document after which anything is flagged. */
  lemma {:induction false} AnnouncedAtFirst(cfg: Config, docs: seq<Document>, i: nat)
    requires cfg.k >= 1 && i < |docs|
    ensures NewlyFlagged(cfg, Stream(cfg, docs[..i]), docs[i]) <==> FirstRaised(cfg, docs, i)
    ensures FirstRaised(cfg, docs, i) ==> Stream(cfg, docs).firstFlaggedAt == Some(docs[i].at)
  {
    var before, upTo := docs[..i], docs[..i + 1];
    assert upTo[..i] == before && upTo[i] == docs[i];
    assert Stream(cfg, upTo) == Observe(cfg, Stream(cfg, before), docs[i]);
    assert RaisedAfter(cfg, docs, i + 1) <==> FlaggedBy(cfg, Stream(cfg, upTo).stats) != {};
    hide Stream, Observe, FlaggedBy, NewlyFlagged, RaisedAfter;
    FlaggedIffRaised(cfg, before);
    RaisedInPrefix(cfg, docs, i);
    ObserveFlags(cfg, Stream(cfg, before), docs[i]);
    StreamIsConsistent(cfg, before);
    VerdictIsMonotone(cfg, docs, i + 1);
    assert Stream(cfg, before).flagged == {} <==> forall m :: 0 <= m <= i ==> !RaisedAfter(cfg, docs, m);
  }

  /**
    A profile of another dimension than the centroid, or the first of all, has no
    text signal; during the baseline it becomes the centroid.
   */
  lemma {:induction false} OtherDimensionRestarts(cfg: Config, docs: seq<Document>, doc: Document)
    requires var centroid := Stream(cfg, docs).centroid; centroid.None? || |centroid.value| != |doc.profile|
    ensures Carried(cfg, Stream(cfg, docs), doc, TextDistance) == None
    ensures Stream(cfg, docs + [doc]).centroid
      == if |docs| < cfg.baselineN then Some(doc.profile) else Stream(cfg, docs).centroid
  {
    assert (docs + [doc])[..|docs|] == docs;
    ObservedCounts(cfg, docs);
    hide StatsAfter, FlaggedBy;
  }
}
