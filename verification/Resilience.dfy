/**
  Error classification, bounded retry and the circuit breaker
  (packages/core/docfactory_core/resilience.py).

  The breaker is a clocked state machine under a lock, so every method of the
  class is one atomic step and an interleaving of callers is a sequence of
  `Event`s.  Times are integers (microseconds, the resolution of `datetime`).
 */
module Resilience {
  import opened Common

  datatype Verdict = Transient | Permanent

  // --- classification -------------------------------------------------------

  datatype ErrorKind = TransientError | PermanentError | Other

  const TRANSIENT_NAMES: set<string> := {
    "ConnectionError", "ConnectTimeoutError", "EndpointConnectionError", "ReadTimeoutError", "ConnectionClosedError",
    "IncompleteReadError", "ResponseStreamingError", "OperationalError", "InterfaceError", "DBAPIError", "TimeoutError",
    "APIConnectionError", "APITimeoutError", "InternalServerError", "RateLimitError", "OverloadedError",
    "ConnectionResetError", "ConnectionAbortedError", "BrokenPipeError", "socket.timeout"}

  const PERMANENT_NAMES: set<string> := {
    "BadRequestError", "UnprocessableEntityError", "PermissionDeniedError", "NotFoundError", "LLMRefusalError",
    "PDFSyntaxError", "PdfminerException", "PSEOF", "IntegrityError", "CheckViolation", "ProgrammingError", "DataError"}

  const TRANSIENT_STATUS: set<int> := {408, 425, 429, 500, 502, 503, 504, 509}

  const TRANSIENT_CODES: set<string> := {
    "ThrottlingException", "Throttling", "TooManyRequestsException", "RequestThrottled", "RequestThrottledException",
    "ProvisionedThroughputExceededException", "ServiceUnavailable", "InternalError", "InternalFailure", "SlowDown",
    "RequestTimeout", "RequestTimeoutException", "KMSThrottlingException"}

  /** What one exception says about itself: its class name, its AWS code and its HTTP status, in this order. */
  function VerdictOf(name: string, awsCode: Option<string>, status: Option<int>): Option<Verdict>
  {
    if name in PERMANENT_NAMES then Some(Permanent)
    else if awsCode.Some? && awsCode.value in TRANSIENT_CODES then Some(Transient)
    else if status.Some? && status.value in TRANSIENT_STATUS then Some(Transient)
    else if status.Some? && 400 <= status.value < 500 then Some(Permanent)
    else if name in TRANSIENT_NAMES then Some(Transient)
    else None
  }

  /**
    One exception, read in full: a permanent name decides; then a throttling code
    is transient even in a 400; then the status, 4xx permanent but for 408, 425
    and 429, and 500, 502, 503, 504 and 509 transient; a name alone is the last resort.
   */
  lemma VerdictIffSigns(name: string, awsCode: Option<string>, status: Option<int>)
    ensures var throttled := awsCode.Some? && awsCode.value in TRANSIENT_CODES;
      var rejected := status.Some? && 400 <= status.value <= 499 && status.value !in {408, 425, 429};
      var later := status.Some? && status.value in {408, 425, 429, 500, 502, 503, 504, 509};
      && (VerdictOf(name, awsCode, status) == Some(Permanent) <==> name in PERMANENT_NAMES || (!throttled && rejected))
      && (VerdictOf(name, awsCode, status) == Some(Transient)
          <==> name !in PERMANENT_NAMES && (throttled || later || (!rejected && name in TRANSIENT_NAMES)))
  {
  }

  /** A throttle arrives as a 400 and is transient; the same 400 without its code, or with another, is not. */
  lemma ThrottleIsTransient()
    ensures VerdictOf("ClientError", Some("ThrottlingException"), Some(400)) == Some(Transient)
    ensures VerdictOf("ClientError", Some("ValidationException"), Some(400)) == Some(Permanent)
    ensures VerdictOf("ClientError", None, Some(429)) == Some(Transient)
    ensures VerdictOf("RateLimitError", None, Some(403)) == Some(Permanent)
    ensures VerdictOf("RateLimitError", None, Some(501)) == Some(Transient)
    ensures VerdictOf("IntegrityError", Some("SlowDown"), Some(503)) == Some(Permanent)
    ensures VerdictOf("KeyError", None, None) == None
  {
  }

  /** An exception object: what it says about itself, and the exception it wraps. */
  class Error {
    const kind: ErrorKind
    const name: string
    const awsCode: Option<string>
    const status: Option<int>
    var cause: Error?
    var context: Error?

    constructor (kind: ErrorKind, name: string, awsCode: Option<string>, status: Option<int>,
                 cause: Error?, context: Error?)
      ensures this.kind == kind && this.Verdict() == VerdictOf(name, awsCode, status)
      ensures this.cause == cause && this.context == context
    {
      this.kind, this.name, this.awsCode, this.status := kind, name, awsCode, status;
      this.cause, this.context := cause, context;
    }

    function Verdict(): Option<Verdict>
    {
      VerdictOf(name, awsCode, status)
    }

    function Wrapped(): Error?
      reads this
    {
      if cause != null then cause else context
    }
  }

  /** Each error of the list is wrapped by the one before it, and none repeats. */
  ghost predicate WrapChain(errors: seq<Error>)
    reads errors
  {
    && (forall i :: 0 <= i < |errors| - 1 ==> errors[i].Wrapped() == errors[i + 1])
    && (forall i, j :: 0 <= i < j < |errors| ==> errors[i] != errors[j])
  }

  /** The errors `exc` wraps, outermost first; it stops at `limit`, at the end, or at a cycle. */
  method Causes(exc: Error, limit: nat) returns (chain: seq<Error>)
    ensures |chain| <= limit
    ensures WrapChain([exc] + chain)
    ensures var innermost := ([exc] + chain)[|chain|].Wrapped();
            |chain| == limit || innermost == null || innermost in [exc] + chain
  {
    chain := [];
    var seen := {exc};
    var current := exc;
    while |chain| < limit
      invariant |chain| <= limit
      invariant current == ([exc] + chain)[|chain|]
      invariant WrapChain([exc] + chain)
      invariant forall e :: e in seen <==> e in [exc] + chain
      decreases limit - |chain|
    {
      var next := current.Wrapped();
      if next == null || next in seen {
        break;
      }
      assert [exc] + (chain + [next]) == ([exc] + chain) + [next];
      chain := chain + [next];
      seen := seen + {next};
      current := next;
    }
  }

  /**
    Transient exactly when the outermost error says so by type, or no error of
    the scanned chain is permanent and some error is transient.  The type is
    checked first: a TransientError that wraps a permanent error is transient,
    although the source's comment says a permanent error anywhere wins.
   */
  method Classify(exc: Error) returns (v: Verdict, chain: seq<Error>)
    ensures |chain| <= 5 && WrapChain([exc] + chain)
    ensures var innermost := ([exc] + chain)[|chain|].Wrapped();
            |chain| == 5 || innermost == null || innermost in [exc] + chain
    ensures exc.kind == TransientError ==> v == Transient
    ensures exc.kind == PermanentError ==> v == Permanent
    ensures exc.kind == Other ==>
      (v == Transient <==>
        && (exists e :: e in [exc] + chain && e.Verdict() == Some(Transient))
        && (forall e :: e in [exc] + chain ==> e.Verdict() != Some(Permanent)))
  {
    hide VerdictOf;
    chain := Causes(exc, 5);
    if exc.kind == TransientError {
      return Transient, chain;
    }
    if exc.kind == PermanentError {
      return Permanent, chain;
    }
    var scanned := [exc] + chain;
    var permanent, transient := false, false;
    for i := 0 to |scanned|
      invariant permanent <==> exists e :: e in scanned[..i] && e.Verdict() == Some(Permanent)
      invariant transient <==> exists e :: e in scanned[..i] && e.Verdict() == Some(Transient)
    {
      assert scanned[..i + 1] == scanned[..i] + [scanned[i]];
      permanent := permanent || scanned[i].Verdict() == Some(Permanent);
      transient := transient || scanned[i].Verdict() == Some(Transient);
    }
    assert scanned[..|scanned|] == scanned;
    v := if permanent then Permanent else if transient then Transient else Permanent;
  }

  /**
    A connection error around a rejected request: stopped at once, unless the
    outer error is a TransientError by type, which is retried although a
    permanent one is in its chain.
   */
  method ClassifyWrappedRejection(kind: ErrorKind) returns (outer: Error, v: Verdict)
    ensures outer.kind == kind && outer.Wrapped() != null && outer.Wrapped().Verdict() == Some(Permanent)
    ensures v == if kind == TransientError then Transient else Permanent
  {
    var rejection := new Error(Other, "BadRequestError", None, Some(400), null, null);
    outer := new Error(kind, "ConnectionError", None, None, rejection, null);
    var chain: seq<Error>;
    v, chain := Classify(outer);
    assert ([outer] + chain)[0] == outer;
    if chain == [] {
      assert ([outer] + chain)[|chain|].Wrapped() == rejection;
    } else {
      assert ([outer] + chain)[1] == chain[0] && ([outer] + chain)[0].Wrapped() == chain[0];
      assert chain[0] == rejection && rejection in [outer] + chain;
    }
  }

  // --- bounded retry --------------------------------------------------------

  datatype RetryPolicy = RetryPolicy(attempts: int, baseDelay: real, maxDelay: real)

  /** What one invocation of the wrapped function did. */
  datatype Attempt = Returned | Raised(verdict: Verdict)

  function Pow2(n: nat): (p: int)
    ensures p >= 1
  {
    if n == 0 then 1 else 2 * Pow2(n - 1)
  }

  ghost predicate Sleepable(policy: RetryPolicy)
  {
    policy.baseDelay >= 0.0 && policy.maxDelay >= 0.0
  }

  function CappedDelay(policy: RetryPolicy, attempt: int): real
    requires attempt >= 1
  {
    var exponential := policy.baseDelay * Pow2(attempt - 1) as real;
    if exponential <= policy.maxDelay then exponential else policy.maxDelay
  }

  /** A uniform draw between zero and the capped delay. */
  function DelayFor(policy: RetryPolicy, attempt: int, share: real): (delay: real)
    requires Sleepable(policy) && attempt >= 1 && 0.0 <= share <= 1.0
    ensures 0.0 <= delay <= CappedDelay(policy, attempt)
  {
    var cap := CappedDelay(policy, attempt);
    MulNonNegative(policy.baseDelay, Pow2(attempt - 1) as real);
    MulNonNegative(share, cap);
    MulNonNegative(1.0 - share, cap);
    share * cap
  }

  /** The capped delay starts at the base and doubles until it meets the ceiling. */
  lemma DelayDoubles(policy: RetryPolicy, attempt: int)
    requires Sleepable(policy) && attempt >= 1
    ensures CappedDelay(policy, 1) == if policy.baseDelay <= policy.maxDelay then policy.baseDelay else policy.maxDelay
    ensures var doubled := 2.0 * CappedDelay(policy, attempt);
      CappedDelay(policy, attempt + 1) == if doubled <= policy.maxDelay then doubled else policy.maxDelay
  {
    MulNonNegative(policy.baseDelay, Pow2(attempt - 1) as real);
    assert policy.baseDelay * Pow2(attempt) as real == 2.0 * (policy.baseDelay * Pow2(attempt - 1) as real);
  }

  lemma ProductAbove(share: real, cap: real)
    requires share > 1.0 && cap > 0.0
    ensures share * cap > cap
  {
  }

  lemma ProductBelow(share: real, cap: real)
    requires share < 0.0 && cap > 0.0
    ensures share * cap < 0.0
  {
  }

  lemma ShareInside(share: real, delay: real, cap: real)
    requires 0.0 < delay <= cap && share * cap == delay
    ensures 0.0 <= share <= 1.0
  {
    if share > 1.0 {
      ProductAbove(share, cap);
    } else if share < 0.0 {
      ProductBelow(share, cap);
    }
  }

  /** Full jitter: every delay up to the cap is drawn, by its own share. */
  lemma EveryDelayIsDrawn(policy: RetryPolicy, attempt: int, delay: real)
    requires Sleepable(policy) && attempt >= 1 && 0.0 < delay <= CappedDelay(policy, attempt)
    ensures 0.0 <= delay / CappedDelay(policy, attempt) <= 1.0
    ensures DelayFor(policy, attempt, delay / CappedDelay(policy, attempt)) == delay
  {
    var cap := CappedDelay(policy, attempt);
    hide CappedDelay;
    var share := delay / cap;
    assert share * cap == delay;
    ShareInside(share, delay, cap);
  }

  /** What n draws add up to. */
  ghost function Drawn(policy: RetryPolicy, jitter: nat -> real, n: nat): real
    requires Sleepable(policy) && forall i :: 0.0 <= jitter(i) <= 1.0
  {
    if n == 0 then 0.0 else Drawn(policy, jitter, n - 1) + DelayFor(policy, n, jitter(n))
  }

  /** Sum of the capped delays of attempts 1..n. */
  function Backoff(policy: RetryPolicy, n: nat): real
  {
    if n == 0 then 0.0 else Backoff(policy, n - 1) + CappedDelay(policy, n)
  }

  /**
    `result(i)` is what the i-th invocation would do and `jitter(i)` the share
    of the capped delay drawn after it (`time.sleep` refuses a negative delay,
    hence `Sleepable`).  With no attempts at all the final assertion fails,
    which classifies as permanent.
   */
  method RetryTransient(policy: RetryPolicy, result: nat -> Attempt, jitter: nat -> real)
    returns (out: Attempt, invocations: nat, slept: real)
    requires Sleepable(policy)
    requires forall i :: 0.0 <= jitter(i) <= 1.0
    ensures policy.attempts <= 0 ==> invocations == 0 && out == Raised(Permanent)
    ensures policy.attempts >= 1 ==> 1 <= invocations <= policy.attempts && out == result(invocations)
    ensures forall i :: 1 <= i < invocations ==> result(i) == Raised(Transient)
    ensures out == Raised(Transient) ==> invocations == policy.attempts
    ensures slept == Drawn(policy, jitter, if invocations == 0 then 0 else invocations - 1)
    ensures 0.0 <= slept <= Backoff(policy, if invocations == 0 then 0 else invocations - 1)
  {
    hide CappedDelay, DelayFor, Sleepable;
    slept := 0.0;
    invocations := 0;
    out := Raised(Permanent);
    var attempt := 1;
    while attempt <= policy.attempts
      invariant 1 <= attempt
      invariant invocations == attempt - 1
      invariant policy.attempts >= 1 ==> attempt <= policy.attempts
      invariant policy.attempts <= 0 ==> attempt == 1 && out == Raised(Permanent)
      invariant forall i :: 1 <= i < attempt ==> result(i) == Raised(Transient)
      invariant slept == Drawn(policy, jitter, attempt - 1)
      invariant 0.0 <= slept <= Backoff(policy, attempt - 1)
      decreases policy.attempts - attempt
    {
      out := result(attempt);
      invocations := invocations + 1;
      if out.Returned? || out.verdict == Permanent || attempt == policy.attempts {
        return;
      }
      var delay := DelayFor(policy, attempt, jitter(attempt));
      slept := slept + delay;
      attempt := attempt + 1;
    }
  }

  /** A retried call never sleeps longer than its attempts times the ceiling. */
  lemma {:induction false} BackoffBelowCeiling(policy: RetryPolicy, n: nat)
    requires Sleepable(policy)
    ensures 0.0 <= Backoff(policy, n) <= n as real * policy.maxDelay
  {
    if n == 0 {
    } else {
      BackoffBelowCeiling(policy, n - 1);
      MulNonNegative(policy.baseDelay, Pow2(n - 1) as real);
      assert n as real * policy.maxDelay == (n - 1) as real * policy.maxDelay + policy.maxDelay;
    }
  }

  // --- circuit breaker ------------------------------------------------------

  datatype Settings = Settings(threshold: int, cooldown: int)

  /** The guarded fields of a breaker, as a value. */
  datatype Breaker = Breaker(failures: nat, openedAt: Option<int>, probe: bool)

  datatype Circuit = Closed | Open | HalfOpen

  const FRESH := Breaker(0, None, false)

  function StateAt(cfg: Settings, b: Breaker, now: int): Circuit
  {
    if b.openedAt.None? then Closed
    else if now - b.openedAt.value >= cfg.cooldown then HalfOpen
    else Open
  }

  predicate Granted(cfg: Settings, b: Breaker, now: int)
  {
    match StateAt(cfg, b, now)
    case Closed => true
    case Open => false
    case HalfOpen => !b.probe
  }

  /** One locked operation; a result may come back long after its admission. */
  datatype Event =
    | Allow(at: int)
    | Success(at: int)
    | Failure(at: int, verdict: Verdict)

  function Step(cfg: Settings, b: Breaker, e: Event): Breaker
  {
    match e
    case Allow(now) =>
      if StateAt(cfg, b, now) == HalfOpen && !b.probe then b.(probe := true) else b
    case Success(_) => FRESH
    case Failure(now, verdict) =>
      if verdict == Permanent then b
      else if b.probe then b.(probe := false, openedAt := Some(now))
      else if b.failures + 1 >= cfg.threshold && b.openedAt.None? then
        b.(failures := b.failures + 1, openedAt := Some(now))
      else b.(failures := b.failures + 1)
  }

  class CircuitBreaker {
    const cfg: Settings
    var failures: nat
    var openedAt: Option<int>
    var halfOpenProbe: bool

    constructor (cfg: Settings)
      ensures this.cfg == cfg && State() == FRESH
    {
      this.cfg := cfg;
      failures, openedAt, halfOpenProbe := 0, None, false;
    }

    function State(): Breaker
      reads this
    {
      Breaker(failures, openedAt, halfOpenProbe)
    }

    method AllowCall(now: int) returns (ok: bool)
      modifies this
      ensures ok == Granted(cfg, old(State()), now)
      ensures State() == Step(cfg, old(State()), Allow(now))
    {
      if openedAt.None? {
        return true;
      }
      if now - openedAt.value < cfg.cooldown {
        return false;
      }
      if halfOpenProbe {
        return false;
      }
      halfOpenProbe := true;
      return true;
    }

    method RecordSuccess(now: int)
      modifies this
      ensures State() == Step(cfg, old(State()), Success(now))
    {
      failures := 0;
      openedAt := None;
      halfOpenProbe := false;
    }

    method RecordFailure(verdict: Verdict, now: int)
      modifies this
      ensures State() == Step(cfg, old(State()), Failure(now, verdict))
    {
      if verdict != Transient {
        return;
      }
      if halfOpenProbe {
        halfOpenProbe := false;
        openedAt := Some(now);
      } else {
        failures := failures + 1;
        if failures >= cfg.threshold && openedAt.None? {
          openedAt := Some(now);
        }
      }
    }

    /** One guarded call that starts at `start` and whose result arrives at `end`. */
    method Call(start: int, outcome: Attempt, end: int) returns (invoked: bool)
      modifies this
      ensures (invoked, State()) == CallOnce(cfg, old(State()), CallAt(start, end, outcome))
    {
      invoked := AllowCall(start);
      if invoked {
        if outcome.Returned? {
          RecordSuccess(end);
        } else {
          RecordFailure(outcome.verdict, end);
        }
      }
    }
  }

  /**
    Breaker outside, retry inside, as the worker calls the model: a refused
    call makes no invocation, a call that fails transiently every time makes
    them all, and the breaker sees one outcome for the whole retried call.
   */
  method GuardedRetry(breaker: CircuitBreaker, policy: RetryPolicy, result: nat -> Attempt, jitter: nat -> real,
                      start: int, end: int) returns (out: Option<Attempt>, invocations: nat, slept: real)
    requires Sleepable(policy) && policy.attempts >= 1
    requires forall i :: 0.0 <= jitter(i) <= 1.0
    modifies breaker
    ensures out.Some? <==> Granted(breaker.cfg, old(breaker.State()), start)
    ensures out.None? ==>
      invocations == 0 && slept == 0.0 && breaker.State() == Step(breaker.cfg, old(breaker.State()), Allow(start))
    ensures out.Some? ==> 1 <= invocations <= policy.attempts && out.value == result(invocations)
    ensures out.Some? ==> breaker.State() == CallOnce(breaker.cfg, old(breaker.State()), CallAt(start, end, out.value)).1
    ensures out == Some(Raised(Transient)) ==> invocations == policy.attempts
    ensures slept == Drawn(policy, jitter, if invocations == 0 then 0 else invocations - 1)
    ensures 0.0 <= slept <= Backoff(policy, if invocations == 0 then 0 else invocations - 1)
  {
    var granted := breaker.AllowCall(start);
    if !granted {
      return None, 0, 0.0;
    }
    var outcome: Attempt;
    outcome, invocations, slept := RetryTransient(policy, result, jitter);
    if outcome.Returned? {
      breaker.RecordSuccess(end);
    } else {
      breaker.RecordFailure(outcome.verdict, end);
    }
    out := Some(outcome);
  }

  /** The state after a whole interleaving of locked operations. */
  function Run(cfg: Settings, b: Breaker, es: seq<Event>): Breaker
  {
    if es == [] then b else Step(cfg, Run(cfg, b, es[..|es| - 1]), es[|es| - 1])
  }

  lemma {:induction false} RunOneMore(cfg: Settings, b: Breaker, es: seq<Event>, n: nat)
    requires n < |es|
    ensures Run(cfg, b, es[..n + 1]) == Step(cfg, Run(cfg, b, es[..n]), es[n])
  {
    assert es[..n + 1][..n] == es[..n];
  }

  ghost predicate Timely(es: seq<Event>)
  {
    forall i, j :: 0 <= i < j < |es| ==> es[i].at <= es[j].at
  }

  /** Closed means fewer failures than the threshold; a probe is out only while opened. */
  ghost predicate Sound(cfg: Settings, b: Breaker)
  {
    && (b.openedAt.None? ==> b.failures < Max(cfg.threshold, 1))
    && (b.probe ==> b.openedAt.Some?)
  }

  lemma {:induction false} RunIsSound(cfg: Settings, es: seq<Event>)
    ensures Sound(cfg, Run(cfg, FRESH, es))
  {
    if es == [] {
    } else {
      RunIsSound(cfg, es[..|es| - 1]);
    }
  }

  /** Transient failures recorded since the last success. */
  function FailuresSince(es: seq<Event>): nat
  {
    if es == [] then 0
    else
      var last := es[|es| - 1];
      if last.Success? then 0
      else FailuresSince(es[..|es| - 1]) + if last.Failure? && last.verdict == Transient then 1 else 0
  }

  /**
    The whole of what opens and closes it, over every interleaving: it is closed
    exactly while fewer than `threshold` transient failures were recorded since
    the last success, and counts exactly those.
   */
  lemma {:induction false} OpenIffFailing(cfg: Settings, es: seq<Event>)
    ensures var b := Run(cfg, FRESH, es);
      && (b.openedAt.Some? <==> FailuresSince(es) >= Max(cfg.threshold, 1))
      && (b.openedAt.None? ==> b.failures == FailuresSince(es) && !b.probe)
  {
    if es == [] {
    } else {
      OpenIffFailing(cfg, es[..|es| - 1]);
    }
  }

  /** So no interleaving with fewer transient failures between any two successes ever opens it. */
  lemma {:induction false} FewFailuresNeverOpen(cfg: Settings, es: seq<Event>, n: nat)
    requires n <= |es| && forall i :: 0 <= i <= |es| ==> FailuresSince(es[..i]) < cfg.threshold
    ensures Run(cfg, FRESH, es[..n]).openedAt.None?
    ensures forall now :: Granted(cfg, Run(cfg, FRESH, es[..n]), now)
  {
    OpenIffFailing(cfg, es[..n]);
  }

  /** Everyone is admitted, at every time, exactly while it is closed; right after any success it is. */
  lemma {:induction false} AdmitsAllIffClosed(cfg: Settings, es: seq<Event>)
    ensures (forall now :: Granted(cfg, Run(cfg, FRESH, es), now)) <==> FailuresSince(es) < Max(cfg.threshold, 1)
    ensures es != [] && es[|es| - 1].Success? ==> forall now :: Granted(cfg, Run(cfg, FRESH, es), now)
  {
    OpenIffFailing(cfg, es);
    var b := Run(cfg, FRESH, es);
    if b.openedAt.Some? {
      assert !Granted(cfg, b, b.openedAt.value + cfg.cooldown - 1);
    }
  }

  /** The only operations that give the probe slot back. */
  predicate Clears(e: Event)
  {
    e.Success? || (e.Failure? && e.verdict == Transient)
  }

  /**
    When the cooldown starts and who holds the slot: it starts at the failure
    that reaches the threshold and at every transient failure while a probe is
    out, and at no other; the slot is taken by the first caller after the cooldown
    and freed by a success or a transient failure.
   */
  lemma {:induction false} CooldownAndSlot(cfg: Settings, es: seq<Event>, e: Event)
    ensures var (b, after) := (Run(cfg, FRESH, es), Run(cfg, FRESH, es + [e]));
      && after.openedAt == (
           if e.Success? then None
           else if e.Failure? && e.verdict == Transient && (b.probe || FailuresSince(es) + 1 == Max(cfg.threshold, 1))
             then Some(e.at)
           else b.openedAt)
      && (after.probe <==>
            (b.probe && !Clears(e))
            || (e.Allow? && b.openedAt.Some? && e.at - b.openedAt.value >= cfg.cooldown))
  {
    assert (es + [e])[..|es|] == es;
    OpenIffFailing(cfg, es);
    OpenIffFailing(cfg, es + [e]);
  }

  /** Event i of the interleaving is an admission granted while not closed. */
  ghost predicate ProbeGranted(cfg: Settings, es: seq<Event>, i: nat)
    requires i < |es|
  {
    var b := Run(cfg, FRESH, es[..i]);
    es[i].Allow? && StateAt(cfg, b, es[i].at) != Closed && Granted(cfg, b, es[i].at)
  }

  ghost predicate NoSuccess(es: seq<Event>, lo: int, hi: int)
  {
    forall k :: 0 <= lo <= k < hi <= |es| ==> !es[k].Success?
  }

  /** Between a probe and the next success, the slot is taken or the cooldown restarted after it. */
  lemma {:induction false} ProbeRestartsCooldown(cfg: Settings, es: seq<Event>, i: nat, m: nat)
    requires i < m <= |es| && Timely(es) && ProbeGranted(cfg, es, i) && NoSuccess(es, i + 1, m)
    ensures var b := Run(cfg, FRESH, es[..m]);
            b.openedAt.Some? && (b.probe || b.openedAt.value >= es[i].at)
    decreases m
  {
    hide Run;
    RunOneMore(cfg, FRESH, es, m - 1);
    if m > i + 1 {
      ProbeRestartsCooldown(cfg, es, i, m - 1);
      assert !es[m - 1].Success?;
    }
  }

  /** Two probes with no success recorded between them are at least a cooldown apart. */
  lemma ProbeSpacing(cfg: Settings, es: seq<Event>, i: nat, j: nat)
    requires i < j < |es| && Timely(es) && NoSuccess(es, i + 1, j)
    requires ProbeGranted(cfg, es, i) && ProbeGranted(cfg, es, j)
    ensures es[j].at - es[i].at >= cfg.cooldown
  {
    ProbeRestartsCooldown(cfg, es, i, j);
  }

  /**
    "Always recovers" is false: while nothing clears the slot, the breaker is
    frozen and refuses every caller at every time.
   */
  lemma {:induction false} WedgedUntilCleared(cfg: Settings, b: Breaker, es: seq<Event>, now: int)
    requires Sound(cfg, b) && b.probe
    requires forall k :: 0 <= k < |es| ==> !Clears(es[k])
    ensures Run(cfg, b, es) == b && !Granted(cfg, b, now)
  {
    if es == [] {
    } else {
      WedgedUntilCleared(cfg, b, es[..|es| - 1], now);
      assert !Clears(es[|es| - 1]);
    }
  }

  ghost predicate GrantedFrom(cfg: Settings, b: Breaker, from: int)
  {
    forall now :: now >= from ==> Granted(cfg, b, now)
  }

  /** It admits callers again, from some time on, exactly when the slot is free; clearing frees it. */
  lemma RecoversIffSlotFree(cfg: Settings, b: Breaker, e: Event)
    requires Sound(cfg, b)
    ensures (exists from :: GrantedFrom(cfg, b, from)) <==> !b.probe
    ensures b.probe ==> (!Step(cfg, b, e).probe <==> Clears(e))
  {
    if b.probe {
      forall from ensures !GrantedFrom(cfg, b, from) {
        assert !Granted(cfg, b, Max(from, b.openedAt.value + cfg.cooldown));
      }
    } else {
      var from := if b.openedAt.Some? then b.openedAt.value + cfg.cooldown else 0;
      assert GrantedFrom(cfg, b, from);
    }
  }

  // --- one caller, one call after another -------------------------------------

  datatype TimedCall = CallAt(start: int, end: int, outcome: Attempt)

  function CallOnce(cfg: Settings, b: Breaker, c: TimedCall): (bool, Breaker)
  {
    if !Granted(cfg, b, c.start) then (false, Step(cfg, b, Allow(c.start)))
    else
      var admitted := Step(cfg, b, Allow(c.start));
      (true, Step(cfg, admitted, if c.outcome.Returned? then Success(c.end) else Failure(c.end, c.outcome.verdict)))
  }

  /** State after the calls, and how many of them reached the wrapped function. */
  function Calls(cfg: Settings, b: Breaker, cs: seq<TimedCall>): (Breaker, nat)
  {
    if cs == [] then (b, 0)
    else
      var (before, n) := Calls(cfg, b, cs[..|cs| - 1]);
      var (invoked, after) := CallOnce(cfg, before, cs[|cs| - 1]);
      (after, if invoked then n + 1 else n)
  }

  /** A call leaves the slot taken exactly when it was the probe and failed permanently. */
  lemma PermanentProbeHoldsSlot(cfg: Settings, b: Breaker, c: TimedCall)
    requires Sound(cfg, b) && !b.probe
    ensures CallOnce(cfg, b, c).1.probe
      <==> StateAt(cfg, b, c.start) == HalfOpen && c.outcome == Raised(Permanent)
  {
  }

  /** After that, a sequential caller never reaches the provider again. */
  lemma {:induction false} SequentialCallerWedged(cfg: Settings, b: Breaker, cs: seq<TimedCall>)
    requires Sound(cfg, b) && b.probe
    ensures Calls(cfg, b, cs) == (b, 0)
  {
    if cs == [] {
    } else {
      SequentialCallerWedged(cfg, b, cs[..|cs| - 1]);
    }
  }

  /** The wedge is reached from a fresh breaker: the failures that open it, then one permanent error as the probe. */
  lemma WedgeIsReachable(cfg: Settings, later: seq<TimedCall>) returns (cs: seq<TimedCall>)
    ensures Calls(cfg, FRESH, cs).0.probe
    ensures Calls(cfg, Calls(cfg, FRESH, cs).0, later) == (Calls(cfg, FRESH, cs).0, 0)
  {
    var n := Max(cfg.threshold, 1);
    var failing := seq(n, _ => CallAt(0, 0, Raised(Transient)));
    FailuresOpen(cfg, n);
    var at := Max(cfg.cooldown, 0);
    var probe := CallAt(at, at, Raised(Permanent));
    cs := failing + [probe];
    assert cs[..|cs| - 1] == failing;
    var b := Calls(cfg, FRESH, cs).0;
    assert b.probe && b.openedAt == Some(0);
    SequentialCallerWedged(cfg, b, later);
  }

  lemma {:induction false} FailuresOpen(cfg: Settings, k: nat)
    requires k <= Max(cfg.threshold, 1)
    ensures Calls(cfg, FRESH, seq(k, _ => CallAt(0, 0, Raised(Transient)))).0
      == Breaker(k, if k == Max(cfg.threshold, 1) then Some(0) else None, false)
  {
    var failing := seq(k, _ => CallAt(0, 0, Raised(Transient)));
    if k == 0 {
    } else {
      FailuresOpen(cfg, k - 1);
      assert failing[..k - 1] == seq(k - 1, _ => CallAt(0, 0, Raised(Transient)));
    }
  }

  /** Every call fails transiently, and each starts after the previous one ended. */
  ghost predicate Outage(cs: seq<TimedCall>)
  {
    && (forall i :: 0 <= i < |cs| ==> cs[i].outcome == Raised(Transient) && cs[i].start <= cs[i].end)
    && (forall i, j :: 0 <= i < j < |cs| ==> cs[i].end <= cs[j].start)
  }

  /** The moment the breaker opens in an outage: the end of call number `threshold`. */
  function OpensAt(cfg: Settings, cs: seq<TimedCall>): int
    requires 1 <= cfg.threshold <= |cs|
  {
    cs[cfg.threshold - 1].end
  }

  /** k cooldowns, one after another. */
  function Cooldowns(cfg: Settings, k: nat): int
  {
    if k == 0 then 0 else Cooldowns(cfg, k - 1) + cfg.cooldown
  }

  lemma {:induction false} CooldownsAreProduct(cfg: Settings, k: nat)
    ensures Cooldowns(cfg, k) == k * cfg.cooldown
  {
    if k == 0 {
    } else {
      CooldownsAreProduct(cfg, k - 1);
      assert k * cfg.cooldown == (k - 1) * cfg.cooldown + cfg.cooldown;
    }
  }

  /** Where a breaker stands after `calls` failed calls that opened it, `n` of them admitted. */
  ghost predicate Opened(cfg: Settings, cs: seq<TimedCall>, b: Breaker, n: nat)
    requires 1 <= cfg.threshold <= |cs|
  {
    && b.openedAt.Some? && !b.probe
    && n >= cfg.threshold
    && OpensAt(cfg, cs) + Cooldowns(cfg, n - cfg.threshold) <= b.openedAt.value <= cs[|cs| - 1].end
    && (n > cfg.threshold ==>
          exists k :: 0 <= k < |cs| && cs[k].start >= OpensAt(cfg, cs) + Cooldowns(cfg, n - cfg.threshold))
  }

  lemma OpenedStaysOpened(cfg: Settings, cs: seq<TimedCall>, last: TimedCall, b: Breaker, n: nat)
    requires 1 <= cfg.threshold <= |cs| && Opened(cfg, cs, b, n) && Outage(cs + [last])
    ensures var (invoked, after) := CallOnce(cfg, b, last);
      Opened(cfg, cs + [last], after, if invoked then n + 1 else n)
  {
    var all := cs + [last];
    assert all[|all| - 1] == last && OpensAt(cfg, all) == OpensAt(cfg, cs);
    assert all[|cs| - 1] == cs[|cs| - 1];
    if Granted(cfg, b, last.start) {
      assert all[|cs|].start >= OpensAt(cfg, all) + Cooldowns(cfg, n + 1 - cfg.threshold);
    } else if n > cfg.threshold {
      var k :| 0 <= k < |cs| && cs[k].start >= OpensAt(cfg, cs) + Cooldowns(cfg, n - cfg.threshold);
      assert all[k] == cs[k];
    }
  }

  lemma {:induction false} BeforeOpening(cfg: Settings, cs: seq<TimedCall>)
    requires |cs| < cfg.threshold && Outage(cs)
    ensures Calls(cfg, FRESH, cs) == (Breaker(|cs|, None, false), |cs|)
  {
    if cs == [] {
    } else {
      BeforeOpening(cfg, cs[..|cs| - 1]);
    }
  }

  lemma {:induction false} OpensAtThreshold(cfg: Settings, cs: seq<TimedCall>)
    requires cfg.threshold >= 1 && Outage(cs) && |cs| == cfg.threshold
    ensures Calls(cfg, FRESH, cs) == (Breaker(cfg.threshold, Some(OpensAt(cfg, cs)), false), cfg.threshold)
  {
    BeforeOpening(cfg, cs[..|cs| - 1]);
  }

  lemma {:induction false} OutageHistory(cfg: Settings, cs: seq<TimedCall>)
    requires 1 <= cfg.threshold <= |cs| && Outage(cs)
    ensures Opened(cfg, cs, Calls(cfg, FRESH, cs).0, Calls(cfg, FRESH, cs).1)
  {
    if |cs| == cfg.threshold {
      OpensAtThreshold(cfg, cs);
    } else {
      var earlier, last := cs[..|cs| - 1], cs[|cs| - 1];
      var (before, n) := Calls(cfg, FRESH, earlier);
      assert Outage(earlier) && earlier + [last] == cs;
      assert Calls(cfg, FRESH, cs).0 == CallOnce(cfg, before, last).1;
      assert Calls(cfg, FRESH, cs).1 == if CallOnce(cfg, before, last).0 then n + 1 else n;
      hide *;
      OutageHistory(cfg, earlier);
      OpenedStaysOpened(cfg, earlier, last, before, n);
    }
  }

  /** How often the wrapped function runs when every admitted call retries `attempts` times. */
  function Invocations(cfg: Settings, attempts: nat, cs: seq<TimedCall>): nat
  {
    if cs == [] then 0
    else
      var earlier := cs[..|cs| - 1];
      Invocations(cfg, attempts, earlier)
        + if CallOnce(cfg, Calls(cfg, FRESH, earlier).0, cs[|cs| - 1]).0 then attempts else 0
  }

  lemma {:induction false} InvocationsPerCall(cfg: Settings, attempts: nat, cs: seq<TimedCall>)
    ensures Invocations(cfg, attempts, cs) == attempts * Calls(cfg, FRESH, cs).1
  {
    hide CallOnce;
    if cs == [] {
    } else {
      InvocationsPerCall(cfg, attempts, cs[..|cs| - 1]);
      var n := Calls(cfg, FRESH, cs[..|cs| - 1]).1;
      assert attempts * (n + 1) == attempts * n + attempts;
    }
  }

  lemma QuotientBound(k: nat, d: int, L: nat)
    requires d > 0 && k * d <= L
    ensures k <= L / d
  {
    var q := L / d;
    assert L < (q + 1) * d;
    if q + 1 <= k {
      MulMonotone(d, q + 1, k);
      assert false;
    }
  }

  lemma ProbesFitCooldowns(cfg: Settings, cs: seq<TimedCall>, b: Breaker, n: nat, L: nat)
    requires 1 <= cfg.threshold <= |cs| && cfg.cooldown > 0 && Opened(cfg, cs, b, n)
    requires forall i :: 0 <= i < |cs| ==> cs[i].start <= OpensAt(cfg, cs) + L
    ensures n <= cfg.threshold + L / cfg.cooldown
  {
    if n > cfg.threshold {
      CooldownsAreProduct(cfg, n - cfg.threshold);
      QuotientBound(n - cfg.threshold, cfg.cooldown, L);
    }
  }

  /**
    The price of an outage to one worker: `attempts` invocations for each of
    the `threshold` calls that open the breaker, then at most one retried probe
    per full cooldown among the calls started within L of the opening.
   */
  lemma {:induction false} OutageCost(cfg: Settings, attempts: nat, cs: seq<TimedCall>, L: nat)
    requires cfg.threshold >= 1 && cfg.cooldown > 0 && Outage(cs)
    requires |cs| >= cfg.threshold
    requires forall i :: 0 <= i < |cs| ==> cs[i].start <= OpensAt(cfg, cs) + L
    ensures Invocations(cfg, attempts, cs[..cfg.threshold]) == attempts * cfg.threshold
    ensures Calls(cfg, FRESH, cs[..cfg.threshold]).0.openedAt == Some(OpensAt(cfg, cs))
    ensures Invocations(cfg, attempts, cs) <= attempts * (cfg.threshold + L / cfg.cooldown)
  {
    OpensAtThreshold(cfg, cs[..cfg.threshold]);
    OutageHistory(cfg, cs);
    hide Calls, Opened, Invocations;
    InvocationsPerCall(cfg, attempts, cs[..cfg.threshold]);
    InvocationsPerCall(cfg, attempts, cs);
    var n := Calls(cfg, FRESH, cs).1;
    ProbesFitCooldowns(cfg, cs, Calls(cfg, FRESH, cs).0, n, L);
    MulMonotone(attempts, n, cfg.threshold + L / cfg.cooldown);
  }

  lemma {:induction false} NoCalls(cfg: Settings, attempts: nat)
    ensures Calls(cfg, FRESH, []) == (FRESH, 0) && Invocations(cfg, attempts, []) == 0
  {
  }

  lemma {:induction false} OneMoreCall(cfg: Settings, attempts: nat, cs: seq<TimedCall>, i: nat)
    requires i < |cs|
    ensures var (before, n) := Calls(cfg, FRESH, cs[..i]);
      var (invoked, after) := CallOnce(cfg, before, cs[i]);
      && Calls(cfg, FRESH, cs[..i + 1]) == (after, if invoked then n + 1 else n)
      && Invocations(cfg, attempts, cs[..i + 1])
           == Invocations(cfg, attempts, cs[..i]) + if invoked then attempts else 0
  {
    hide CallOnce;
    assert cs[..i + 1][..i] == cs[..i];
  }

  lemma CallAdmits(cfg: Settings, b: Breaker, c: TimedCall)
    ensures CallOnce(cfg, b, c).0 <==> Granted(cfg, b, c.start)
    ensures !Granted(cfg, b, c.start) ==> CallOnce(cfg, b, c).1 == Step(cfg, b, Allow(c.start))
  {
  }

  lemma OneMoreBackoff(n: nat, backoff: real)
    ensures (n + 1) as real * backoff == n as real * backoff + backoff
  {
  }

  /**
    The worker itself in an outage: it makes exactly that many invocations, and
    sleeps no longer than one retried call's backoff per admitted call.
   */
  method WorkThroughOutage(breaker: CircuitBreaker, policy: RetryPolicy, cs: seq<TimedCall>, jitter: nat -> real)
    returns (invocations: nat, slept: real)
    requires Sleepable(policy) && policy.attempts >= 1 && Outage(cs)
    requires breaker.State() == FRESH && forall i :: 0.0 <= jitter(i) <= 1.0
    modifies breaker
    ensures invocations == Invocations(breaker.cfg, policy.attempts, cs)
    ensures breaker.State() == Calls(breaker.cfg, FRESH, cs).0
    ensures 0.0 <= slept <= Calls(breaker.cfg, FRESH, cs).1 as real * Backoff(policy, policy.attempts - 1)
  {
    hide CallOnce, Backoff, Calls, Invocations, Granted, Step;
    NoCalls(breaker.cfg, policy.attempts);
    invocations, slept := 0, 0.0;
    for i := 0 to |cs|
      invariant invocations == Invocations(breaker.cfg, policy.attempts, cs[..i])
      invariant breaker.State() == Calls(breaker.cfg, FRESH, cs[..i]).0
      invariant 0.0 <= slept <= Calls(breaker.cfg, FRESH, cs[..i]).1 as real * Backoff(policy, policy.attempts - 1)
    {
      OneMoreCall(breaker.cfg, policy.attempts, cs, i);
      var n := Calls(breaker.cfg, FRESH, cs[..i]).1;
      CallAdmits(breaker.cfg, breaker.State(), cs[i]);
      var out, made, waited := GuardedRetry(breaker, policy, _ => Raised(Transient), jitter, cs[i].start, cs[i].end);
      invocations, slept := invocations + made, slept + waited;
      OneMoreBackoff(n, Backoff(policy, policy.attempts - 1));
    }
    assert cs[..|cs|] == cs;
  }
}
