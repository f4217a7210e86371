/**
  The per-tenant token bucket (packages/core/docfactory_core/backpressure.py).

  The spend is one conditional UPDATE, so concurrent requests are a sequence of
  spends; each carries the timestamp of its own transaction, which may be
  earlier than the one that committed before it.  Arithmetic is over reals.
 */
module RateLimit {
  import opened Common

  datatype Limits = Limits(burst: int, rate: real)

  datatype Bucket = Bucket(tokens: real, refilledAt: real)

  datatype RateDecision = RateDecision(allowed: bool, tokensLeft: real, retryAfter: real)

  function Least(a: real, b: real): real
  {
    if a <= b then a else b
  }

  /** Tokens on hand at `now`, refilled by elapsed time and capped at the burst. */
  function Available(cfg: Limits, b: Bucket, now: real): real
  {
    Least(b.tokens + (now - b.refilledAt) * cfg.rate, cfg.burst as real)
  }

  function Ensured(cfg: Limits, now: real): Bucket
  {
    Bucket(cfg.burst as real, now)
  }

  /** How the stored column rounds what is written to it. */
  datatype Storage = Exact | Numeric4

  /** NUMERIC(10,4): nearest multiple of 1/10000, halves away from zero. */
  function Stored(storage: Storage, x: real): real
  {
    match storage
    case Exact => x
    case Numeric4 =>
      if x >= 0.0 then (x * 10000.0 + 0.5).Floor as real / 10000.0
      else -((-x * 10000.0 + 0.5).Floor as real / 10000.0)
  }

  /** The most a write can gain through rounding. */
  function RoundingGain(storage: Storage): real
  {
    if storage.Exact? then 0.0 else 0.00005
  }

  lemma StoredIsNear(storage: Storage, x: real)
    ensures x - RoundingGain(storage) <= Stored(storage, x) <= x + RoundingGain(storage)
    ensures x >= 0.0 ==> Stored(storage, x) >= 0.0
  {
    if storage.Numeric4? {
      var y := if x >= 0.0 then x * 10000.0 + 0.5 else -x * 10000.0 + 0.5;
      assert y - 1.0 < y.Floor as real <= y;
    }
  }

  function Spend(cfg: Limits, storage: Storage, b: Bucket, now: real): (bool, Bucket)
  {
    var available := Available(cfg, b, now);
    if available >= 1.0 then (true, Bucket(Stored(storage, available - 1.0), now)) else (false, b)
  }

  /** The bucket after every spend of `times`, and the number granted. */
  function Spends(cfg: Limits, storage: Storage, b: Bucket, times: seq<real>): (Bucket, nat)
  {
    if times == [] then (b, 0)
    else
      var (before, n) := Spends(cfg, storage, b, times[..|times| - 1]);
      var (ok, after) := Spend(cfg, storage, before, times[|times| - 1]);
      (after, if ok then n + 1 else n)
  }

  /** A grant takes one token of those on hand, to within the rounding of the write; a refusal takes nothing. */
  lemma GrantTakesOne(cfg: Limits, storage: Storage, b: Bucket, now: real)
    ensures var (ok, after) := Spend(cfg, storage, b, now);
      && (ok <==> Available(cfg, b, now) >= 1.0)
      && (ok ==> after.refilledAt == now)
      && (ok ==> after.tokens >= Available(cfg, b, now) - 1.0 - RoundingGain(storage))
      && (ok ==> after.tokens <= Available(cfg, b, now) - 1.0 + RoundingGain(storage))
      && (!ok ==> after == b)
  {
    StoredIsNear(storage, Available(cfg, b, now) - 1.0);
  }

  /** Whole tokens are stored as they are. */
  lemma StoredWhole(storage: Storage, n: nat)
    ensures Stored(storage, n as real) == n as real
  {
    var scaled := n * 10000;
    assert n as real * 10000.0 == scaled as real;
    assert (scaled as real + 0.5).Floor == scaled;
  }

  /** No refill in no time. */
  lemma AvailableAtOnce(cfg: Limits, tokens: real, now: real)
    ensures Available(cfg, Bucket(tokens, now), now) == Least(tokens, cfg.burst as real)
  {
    assert (now - now) * cfg.rate == 0.0;
  }

  lemma SpendWhole(cfg: Limits, storage: Storage, b: Bucket, now: real, n: nat)
    requires Available(cfg, b, now) == n as real && n <= cfg.burst
    ensures Spend(cfg, storage, b, now) == if n == 0 then (false, b) else (true, Bucket((n - 1) as real, now))
    ensures n > 0 ==> Available(cfg, Bucket((n - 1) as real, now), now) == (n - 1) as real
  {
    hide Stored;
    if n > 0 {
      StoredWhole(storage, n - 1);
      AvailableAtOnce(cfg, (n - 1) as real, now);
    }
  }

  /** With a whole number of tokens on hand, requests at one instant get exactly that many grants, and the rest stay. */
  lemma {:induction false} GrantsAtOnce(cfg: Limits, storage: Storage, b: Bucket, now: real, n: nat, times: seq<real>)
    requires Available(cfg, b, now) == n as real && n <= cfg.burst
    requires forall t :: t in times ==> t == now
    ensures var (after, granted) := Spends(cfg, storage, b, times);
      granted == Min(|times|, n) && Available(cfg, after, now) == (n - granted) as real
  {
    if times == [] {
    } else {
      var before, last := times[..|times| - 1], times[|times| - 1];
      assert last in times && forall t :: t in before ==> t in times;
      hide Available, Spend;
      GrantsAtOnce(cfg, storage, b, now, n, before);
      var (earlier, granted) := Spends(cfg, storage, b, before);
      SpendWhole(cfg, storage, earlier, now, n - granted);
    }
  }

  /** A new tenant's first requests, all at one instant, get exactly the burst. */
  lemma {:induction false} NewTenantGetsBurst(cfg: Limits, storage: Storage, now: real, times: seq<real>)
    requires forall t :: t in times ==> t == now
    ensures Spends(cfg, storage, Ensured(cfg, now), times).1 == Min(|times|, Max(cfg.burst, 0))
  {
    var n := Max(cfg.burst, 0);
    if cfg.burst >= 0 {
      AvailableAtOnce(cfg, n as real, now);
      GrantsAtOnce(cfg, storage, Ensured(cfg, now), now, n, times);
    } else {
      NothingWithoutBurst(cfg, storage, Ensured(cfg, now), times);
    }
  }

  lemma {:induction false} NothingWithoutBurst(cfg: Limits, storage: Storage, b: Bucket, times: seq<real>)
    requires cfg.burst < 1
    ensures Spends(cfg, storage, b, times) == (b, 0)
  {
    if times == [] {
    } else {
      NothingWithoutBurst(cfg, storage, b, times[..|times| - 1]);
    }
  }

  /** So does a tenant that has been idle long enough to fill the bucket again, and no more than that. */
  lemma {:induction false} IdleTenantGetsBurst(cfg: Limits, storage: Storage, b: Bucket, now: real, times: seq<real>)
    requires cfg.burst >= 0 && b.tokens >= 0.0 && (now - b.refilledAt) * cfg.rate >= cfg.burst as real
    requires forall t :: t in times ==> t == now
    ensures Spends(cfg, storage, b, times).1 == Min(|times|, cfg.burst)
  {
    var refill := (now - b.refilledAt) * cfg.rate;
    assert Available(cfg, b, now) == Least(b.tokens + refill, cfg.burst as real) == cfg.burst as real;
    hide Available;
    GrantsAtOnce(cfg, storage, b, now, cfg.burst, times);
  }

  /** tokens - rate * refilledAt: waiting leaves it alone, and every grant lowers it by one. */
  function Potential(cfg: Limits, b: Bucket): real
  {
    b.tokens - cfg.rate * b.refilledAt
  }

  lemma GrantLowersPotential(cfg: Limits, storage: Storage, b: Bucket, now: real)
    requires Spend(cfg, storage, b, now).0
    ensures var after := Spend(cfg, storage, b, now).1;
      && Potential(cfg, after) <= Potential(cfg, b) - (1.0 - RoundingGain(storage))
      && after.tokens >= 0.0 && after.refilledAt == now
  {
    StoredIsNear(storage, Available(cfg, b, now) - 1.0);
    MulDifference(cfg.rate, now, b.refilledAt);
  }

  lemma {:induction false} PotentialFallsPerGrant(cfg: Limits, storage: Storage, b: Bucket, times: seq<real>)
    ensures var (after, n) := Spends(cfg, storage, b, times);
      && Potential(cfg, after) <= Potential(cfg, b) - n as real * (1.0 - RoundingGain(storage))
      && (n == 0 ==> after == b)
      && (n > 0 ==> after.tokens >= 0.0 && after.refilledAt in times)
  {
    if times == [] {
    } else {
      PotentialFallsPerGrant(cfg, storage, b, times[..|times| - 1]);
      var (before, n) := Spends(cfg, storage, b, times[..|times| - 1]);
      if Spend(cfg, storage, before, times[|times| - 1]).0 {
        GrantLowersPotential(cfg, storage, before, times[|times| - 1]);
        var unit := 1.0 - RoundingGain(storage);
        assert (n + 1) as real * unit == n as real * unit + unit;
      }
    }
  }

  /**
    Whatever order the timestamps commit in, the grants since the bucket was
    created at `created` fit in the burst plus the refill up to the latest
    timestamp; with NUMERIC(10,4) storage each grant may cost 0.00005 less.
   */
  lemma {:induction false} GrantsBounded(cfg: Limits, storage: Storage, created: real, times: seq<real>, latest: real)
    requires cfg.rate >= 0.0
    requires forall t :: t in times ==> t <= latest
    ensures var n := Spends(cfg, storage, Ensured(cfg, created), times).1;
      n > 0 ==> n as real * (1.0 - RoundingGain(storage)) <= cfg.burst as real + cfg.rate * (latest - created)
  {
    hide Spends, Potential, RoundingGain;
    var start := Ensured(cfg, created);
    PotentialFallsPerGrant(cfg, storage, start, times);
    var (after, n) := Spends(cfg, storage, start, times);
    if n > 0 {
      GrantsFitRefill(cfg, start, after, n as real * (1.0 - RoundingGain(storage)), latest);
    }
  }

  lemma GrantsFitRefill(cfg: Limits, start: Bucket, after: Bucket, granted: real, latest: real)
    requires cfg.rate >= 0.0 && after.tokens >= 0.0 && after.refilledAt <= latest
    requires Potential(cfg, after) <= Potential(cfg, start) - granted
    ensures granted <= start.tokens + cfg.rate * (latest - start.refilledAt)
  {
    MulNonNegative(cfg.rate, latest - after.refilledAt);
    MulDifference(cfg.rate, latest, after.refilledAt);
    MulDifference(cfg.rate, latest, start.refilledAt);
  }

  lemma RefillSplits(cfg: Limits, b: Bucket, now: real, later: real)
    ensures (later - b.refilledAt) * cfg.rate == (now - b.refilledAt) * cfg.rate + (later - now) * cfg.rate
  {
  }

  ghost predicate InOrder(times: seq<real>)
  {
    forall i, j :: 0 <= i < j < |times| ==> times[i] <= times[j]
  }

  function Refill(cfg: Limits, from: real, to: real): real
  {
    cfg.rate * (to - from)
  }

  /** Between two times in order the tokens on hand grow by the refill at most, and never shrink. */
  lemma RefillAtMost(cfg: Limits, b: Bucket, now: real, later: real)
    requires cfg.rate >= 0.0 && now <= later
    ensures Available(cfg, b, now) <= Available(cfg, b, later) <= Available(cfg, b, now) + Refill(cfg, now, later)
  {
    RefillSplits(cfg, b, now, later);
    MulNonNegative(cfg.rate, later - now);
  }

  /** One spend, in tokens on hand right after it. */
  lemma SpendLowers(cfg: Limits, storage: Storage, b: Bucket, now: real)
    ensures var (ok, after) := Spend(cfg, storage, b, now);
      Available(cfg, after, now) <= Available(cfg, b, now) - (if ok then 1.0 - RoundingGain(storage) else 0.0)
    ensures var (ok, after) := Spend(cfg, storage, b, now); ok ==> Available(cfg, after, now) >= 0.0
  {
    var available := Available(cfg, b, now);
    assert available <= cfg.burst as real;
    hide Available, Stored;
    StoredIsNear(storage, available - 1.0);
    AvailableAtOnce(cfg, Stored(storage, available - 1.0), now);
  }

  /** What n grants cost the bucket at least. */
  function Cost(storage: Storage, n: nat): real
  {
    n as real * (1.0 - RoundingGain(storage))
  }

  lemma CostsAdd(storage: Storage, n: nat)
    ensures Cost(storage, 0) == 0.0 && Cost(storage, n + 1) == Cost(storage, n) + (1.0 - RoundingGain(storage))
  {
    var unit := 1.0 - RoundingGain(storage);
    assert (n + 1) as real * unit == n as real * unit + unit;
  }

  lemma RefillsAdd(cfg: Limits, first: real, previous: real, last: real)
    ensures Refill(cfg, first, last) == Refill(cfg, first, previous) + Refill(cfg, previous, last)
    ensures Refill(cfg, last, last) == 0.0
  {
    MulDifference(cfg.rate, last, first);
    MulDifference(cfg.rate, last, previous);
    MulDifference(cfg.rate, previous, first);
  }

  lemma {:induction false} WindowStep(cfg: Limits, storage: Storage, b: Bucket, times: seq<real>)
    requires cfg.rate >= 0.0 && times != [] && InOrder(times)
    ensures var (after, n) := Spends(cfg, storage, b, times);
      var last := times[|times| - 1];
      && Available(cfg, after, last) + Cost(storage, n) <= Available(cfg, b, times[0]) + Refill(cfg, times[0], last)
      && (n > 0 ==> Available(cfg, after, last) >= 0.0)
  {
    var before, last := times[..|times| - 1], times[|times| - 1];
    var (earlier, n) := Spends(cfg, storage, b, before);
    assert before == [] ==> earlier == b && n == 0;
    hide Spend, Available, RoundingGain, Refill, Cost;
    SpendLowers(cfg, storage, earlier, last);
    CostsAdd(storage, n);
    if before == [] {
      RefillsAdd(cfg, last, last, last);
    } else {
      var previous := before[|before| - 1];
      WindowStep(cfg, storage, b, before);
      RefillAtMost(cfg, earlier, previous, last);
      RefillsAdd(cfg, times[0], previous, last);
    }
  }

  /**
    The window law, from any state of the row, however long the tenant was idle:
    requests in order get at most the burst plus the refill of their window.
   */
  lemma {:induction false} GrantsInWindow(cfg: Limits, storage: Storage, b: Bucket, times: seq<real>)
    requires cfg.rate >= 0.0 && times != [] && InOrder(times)
    ensures var n := Spends(cfg, storage, b, times).1;
      n > 0 ==> Cost(storage, n) <= cfg.burst as real + Refill(cfg, times[0], times[|times| - 1])
  {
    assert Available(cfg, b, times[0]) <= cfg.burst as real;
    hide *;
    WindowStep(cfg, storage, b, times);
  }

  /** The wait reported with a refusal, before the source rounds it to two decimals. */
  function RetryAfter(cfg: Limits, available: real): real
  {
    var deficit := if 1.0 - available >= 0.0 then 1.0 - available else 0.0;
    if cfg.rate != 0.0 then deficit / cfg.rate else 60.0
  }

  /**
    The unrounded wait is exact: with no other spend in between, a later
    request is granted if and only if it comes at least that much later, given
    a burst of one or more and a positive rate.
   */
  lemma RetryAfterIsExact(cfg: Limits, storage: Storage, b: Bucket, now: real, later: real)
    requires cfg.burst >= 1 && cfg.rate > 0.0
    requires !Spend(cfg, storage, b, now).0 && later >= now
    ensures Spend(cfg, storage, b, later).0 <==> later - now >= RetryAfter(cfg, Available(cfg, b, now))
  {
    var available := Available(cfg, b, now);
    RefillSplits(cfg, b, now, later);
    DivisionIsExact(later - now, 1.0 - available, cfg.rate);
    hide RetryAfter;
    assert RetryAfter(cfg, available) == (1.0 - available) / cfg.rate by {
      RetryAfterDivides(cfg, available);
    }
  }

  lemma RetryAfterDivides(cfg: Limits, available: real)
    requires cfg.rate > 0.0 && available < 1.0
    ensures RetryAfter(cfg, available) == (1.0 - available) / cfg.rate
  {
  }

  lemma DivisionIsExact(wait: real, deficit: real, rate: real)
    requires rate > 0.0
    ensures wait * rate >= deficit <==> wait >= deficit / rate
  {
    var q := deficit / rate;
    assert q * rate == deficit;
    if wait >= q {
      MulNonNegative(wait - q, rate);
    } else {
      assert (q - wait) * rate > 0.0;
    }
    assert (wait - q) * rate == wait * rate - deficit;
  }

  /** Without a refill a refused tenant stays refused, whenever it comes back, and is told a minute. */
  lemma NoRefillNoGrant(cfg: Limits, storage: Storage, b: Bucket, now: real, later: real)
    requires cfg.rate == 0.0 && !Spend(cfg, storage, b, now).0
    ensures !Spend(cfg, storage, b, later).0 && ReportedWait(RetryAfter(cfg, Available(cfg, b, now))) == 60.0
  {
    assert (later - b.refilledAt) * cfg.rate == 0.0 == (now - b.refilledAt) * cfg.rate;
    assert 60.0 * 100.0 == 6000.0;
  }

  /** A burst below one never grants anything, whatever wait is reported. */
  lemma NoBurstNoGrant(cfg: Limits, storage: Storage, b: Bucket, now: real)
    requires cfg.burst < 1
    ensures !Spend(cfg, storage, b, now).0
  {
  }

  /** `round(x, 2)`: the wait the caller is actually told. */
  function ReportedWait(wait: real): (reported: real)
    ensures wait - 0.005 <= reported <= wait + 0.005
  {
    RoundHalfEven(wait * 100.0) as real / 100.0
  }

  /** What rounding to hundredths drops or adds: the part of a hundredth the wait has left over. */
  predicate RoundsUp(wait: real)
  {
    var hundredths := (wait * 100.0).Floor;
    var rest := wait * 100.0 - hundredths as real;
    rest == 0.0 || rest > 0.5 || (rest == 0.5 && hundredths % 2 == 1)
  }

  lemma RoundingIsShortIff(wait: real)
    requires wait >= 0.0
    ensures ReportedWait(wait) >= 0.0
    ensures ReportedWait(wait) >= wait <==> RoundsUp(wait)
  {
    var x := wait * 100.0;
    assert x >= 0.0 && x.Floor >= 0;
    assert ReportedWait(wait) * 100.0 == RoundHalfEven(x) as real;
  }

  lemma WaitIsNonNegative(cfg: Limits, available: real)
    requires cfg.rate >= 0.0
    ensures RetryAfter(cfg, available) >= 0.0
  {
    if cfg.rate > 0.0 {
      DivisionIsExact(0.0, if 1.0 - available >= 0.0 then 1.0 - available else 0.0, cfg.rate);
    }
  }

  /**
    Coming back after the reported wait works exactly when the wait is a whole
    number of hundredths or is more than half a hundredth past one, the tie
    counting for odd ones only.
   */
  lemma ReportedWaitWorksIffRoundedUp(cfg: Limits, storage: Storage, b: Bucket, now: real)
    requires cfg.burst >= 1 && cfg.rate > 0.0 && !Spend(cfg, storage, b, now).0
    ensures var wait := RetryAfter(cfg, Available(cfg, b, now));
      Spend(cfg, storage, b, now + ReportedWait(wait)).0 <==> RoundsUp(wait)
  {
    hide Spend, ReportedWait, RoundsUp, RetryAfter;
    var wait := RetryAfter(cfg, Available(cfg, b, now));
    WaitIsNonNegative(cfg, Available(cfg, b, now));
    RoundingIsShortIff(wait);
    RetryAfterIsExact(cfg, storage, b, now, now + ReportedWait(wait));
  }

  /** At eight tokens a second an empty bucket reports 0.12 s, which is too early. */
  lemma ReportedWaitCanBeShort()
    ensures var cfg := Limits(1, 8.0);
      && ReportedWait(RetryAfter(cfg, 0.0)) == 0.12
      && !Spend(cfg, Exact, Bucket(0.0, 0.0), 0.12).0
  {
    assert RetryAfter(Limits(1, 8.0), 0.0) == 0.125;
    assert RoundHalfEven(12.5) == 12;
    assert Available(Limits(1, 8.0), Bucket(0.0, 0.0), 0.12) == 0.96;
  }

  /** One tenant's row of the table, and the statements that touch it. */
  class TenantBucket {
    const cfg: Limits
    const storage: Storage
    var row: Option<Bucket>

    constructor (cfg: Limits, storage: Storage)
      ensures this.cfg == cfg && this.storage == storage && row == None
    {
      this.cfg, this.storage, row := cfg, storage, None;
    }

    /** The row as the spend sees it: created full if it was not there. */
    function Row(now: real): Bucket
      reads this
    {
      if row.Some? then row.value else Ensured(cfg, now)
    }

    method CheckRateLimit(now: real) returns (d: RateDecision)
      modifies this
      ensures row.Some? && (d.allowed, row.value) == Spend(cfg, storage, old(Row(now)), now)
      ensures d.allowed ==> d == RateDecision(true, row.value.tokens, 0.0)
      ensures !d.allowed ==> d.tokensLeft == Available(cfg, old(Row(now)), now) < 1.0
      ensures !d.allowed ==> d.retryAfter == ReportedWait(RetryAfter(cfg, d.tokensLeft))
    {
      if row.None? {
        row := Some(Ensured(cfg, now));
      }
      var available := Available(cfg, row.value, now);
      if available >= 1.0 {
        row := Some(Bucket(Stored(storage, available - 1.0), now));
        return RateDecision(true, row.value.tokens, 0.0);
      }
      d := RateDecision(false, available, ReportedWait(RetryAfter(cfg, available)));
    }
  }
}
