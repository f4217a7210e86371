/**
  Per-tenant budget caps (packages/core/docfactory_core/budget.py): the counter
  row, the metered call around it (apps/worker/docfactory_worker/handlers.py)
  and the audit log beside it (packages/core/docfactory_core/metering.py).

  Each SQL statement is one atomic step, so any number of workers, in any
  interleaving and with any crashes, is a sequence of `Event`s.
 */
module Budget {
  import opened Common
  import opened Resilience
  import opened Pricing

  /** The tenant_spend row. */
  datatype Spend = Spend(spent: int, unsettled: int)

  /** The conditional charge: the cap lives in the WHERE clause. */
  function Charge(row: Spend, cap: int, amount: int): (bool, Spend)
  {
    if row.spent + amount <= cap then (true, Spend(row.spent + amount, row.unsettled + 1)) else (false, row)
  }

  /** The unconditional settlement, with both GREATEST clamps. */
  function SettleBy(row: Spend, delta: int): Spend
  {
    Spend(Max(row.spent + delta, 0), Max(row.unsettled - 1, 0))
  }

  // --- every interleaving -----------------------------------------------------

  /** One metered call, from the reservation it was granted to the event it records. */
  datatype Call =
    | Reserved(amount: int)
    | Abandoned(amount: int)
    | Released(amount: int)
    | Settled(amount: int, actual: int, recorded: bool)

  datatype World = World(row: Spend, cap: int, largestCap: int, calls: seq<Call>, log: seq<int>)

  datatype Event =
    | Reserve(amount: nat)
    | Settle(call: nat, actual: nat)
    | Release(call: nat)
    | Crash(call: nat)
    | Record(call: nat)
    | SetCap(cap: int)

  function Start(cap: int): World
  {
    World(Spend(0, 0), cap, Max(cap, 0), [], [])
  }

  function Step(w: World, e: Event): World
  {
    match e
    case Reserve(amount) =>
      var (granted, row) := Charge(w.row, w.cap, amount);
      if granted then w.(row := row, calls := w.calls + [Reserved(amount)]) else w
    case Settle(i, actual) =>
      if i < |w.calls| && w.calls[i].Reserved? then
        w.(row := SettleBy(w.row, actual - w.calls[i].amount),
           calls := w.calls[i := Settled(w.calls[i].amount, actual, false)])
      else w
    case Release(i) =>
      if i < |w.calls| && w.calls[i].Reserved? then
        w.(row := SettleBy(w.row, 0 - w.calls[i].amount), calls := w.calls[i := Released(w.calls[i].amount)])
      else w
    case Crash(i) =>
      if i < |w.calls| && w.calls[i].Reserved? then w.(calls := w.calls[i := Abandoned(w.calls[i].amount)]) else w
    case Record(i) =>
      if i < |w.calls| && w.calls[i].Settled? && !w.calls[i].recorded then
        w.(calls := w.calls[i := w.calls[i].(recorded := true)], log := w.log + [w.calls[i].actual])
      else w
    case SetCap(cap) => w.(cap := cap, largestCap := Max(cap, w.largestCap))
  }

  function Run(w: World, es: seq<Event>): World
  {
    if es == [] then w else Step(Run(w, es[..|es| - 1]), es[|es| - 1])
  }

  // --- what the calls add up to -------------------------------------------------

  function Total(f: Call -> int, calls: seq<Call>): int
  {
    if calls == [] then 0 else Total(f, calls[..|calls| - 1]) + f(calls[|calls| - 1])
  }

  lemma TotalUpdate(f: Call -> int, calls: seq<Call>, i: nat, c: Call)
    requires i < |calls|
    ensures Total(f, calls[i := c]) == Total(f, calls) - f(calls[i]) + f(c)
  {
    var last := |calls| - 1;
    if i == last {
      assert calls[i := c][..last] == calls[..last];
    } else {
      TotalUpdate(f, calls[..last], i, c);
      assert calls[i := c][..last] == calls[..last][i := c];
    }
  }

  lemma {:induction false} TotalAppend(f: Call -> int, calls: seq<Call>, c: Call)
    ensures Total(f, calls + [c]) == Total(f, calls) + f(c)
  {
    assert (calls + [c])[..|calls|] == calls;
  }

  lemma {:induction false} TotalAtLeast(f: Call -> int, calls: seq<Call>, i: nat)
    requires i < |calls|
    requires forall c :: c in calls ==> f(c) >= 0
    ensures Total(f, calls) >= f(calls[i]) >= 0
  {
    TotalNonNegative(f, calls[..|calls| - 1]);
    if i < |calls| - 1 {
      TotalAtLeast(f, calls[..|calls| - 1], i);
    }
  }

  lemma {:induction false} TotalNonNegative(f: Call -> int, calls: seq<Call>)
    requires forall c :: c in calls ==> f(c) >= 0
    ensures Total(f, calls) >= 0
  {
    if calls == [] {
    } else {
      TotalNonNegative(f, calls[..|calls| - 1]);
    }
  }

  function CommittedOf(c: Call): int
  {
    match c
    case Reserved(amount) => amount
    case Abandoned(amount) => amount
    case Released(_) => 0
    case Settled(_, actual, _) => actual
  }

  function OutstandingOf(c: Call): int
  {
    if c.Reserved? || c.Abandoned? then 1 else 0
  }

  function RecordedOf(c: Call): int
  {
    if c.Settled? && c.recorded then c.actual else 0
  }

  function UnrecordedOf(c: Call): int
  {
    if c.Settled? && !c.recorded then c.actual else 0
  }

  function ActualOf(c: Call): int
  {
    if c.Settled? then c.actual else 0
  }

  function ExcessOf(c: Call): int
  {
    if c.Settled? then OverrunOf(c.amount, c.actual) else 0
  }

  function Sum(xs: seq<int>): int
  {
    if xs == [] then 0 else Sum(xs[..|xs| - 1]) + xs[|xs| - 1]
  }

  /** The books balance: counter, open calls, audit log and cap, all at once. */
  ghost predicate Balanced(w: World)
  {
    && (forall c :: c in w.calls ==> c.amount >= 0 && (c.Settled? ==> c.actual >= 0))
    && w.row.spent == Total(CommittedOf, w.calls)
    && w.row.unsettled == Total(OutstandingOf, w.calls)
    && Sum(w.log) == Total(RecordedOf, w.calls)
    && w.row.spent <= w.largestCap + Total(ExcessOf, w.calls)
    && w.cap <= w.largestCap && 0 <= w.largestCap
  }

  /** Closing call i as `c`: how each total moves, and that neither clamp binds. */
  lemma CloseCall(w: World, i: nat, c: Call)
    requires Balanced(w) && i < |w.calls| && w.calls[i].Reserved?
    requires !c.Reserved? && !c.Abandoned? && c.amount == w.calls[i].amount && (c.Settled? ==> c.actual >= 0 && !c.recorded)
    ensures w.row.spent + CommittedOf(c) - c.amount >= 0 && w.row.unsettled - 1 >= 0
    ensures var after := w.(row := SettleBy(w.row, CommittedOf(c) - c.amount), calls := w.calls[i := c]);
            Balanced(after)
  {
    TotalAtLeast(CommittedOf, w.calls, i);
    TotalAtLeast(OutstandingOf, w.calls, i);
    TotalUpdate(CommittedOf, w.calls, i, c);
    TotalUpdate(OutstandingOf, w.calls, i, c);
    TotalUpdate(RecordedOf, w.calls, i, c);
    TotalUpdate(ExcessOf, w.calls, i, c);
  }

  lemma ReserveKeepsBalance(w: World, amount: nat)
    requires Balanced(w)
    ensures Balanced(Step(w, Reserve(amount)))
  {
    var c := Reserved(amount);
    assert CommittedOf(c) == amount && OutstandingOf(c) == 1 && RecordedOf(c) == 0 && ExcessOf(c) == 0;
    TotalNonNegative(ExcessOf, w.calls);
    hide Total, Sum, CommittedOf, OutstandingOf, RecordedOf, ExcessOf;
    TotalAppend(CommittedOf, w.calls, c);
    TotalAppend(OutstandingOf, w.calls, c);
    TotalAppend(RecordedOf, w.calls, c);
    TotalAppend(ExcessOf, w.calls, c);
  }

  lemma CrashKeepsBalance(w: World, i: nat)
    requires Balanced(w) && i < |w.calls| && w.calls[i].Reserved?
    ensures Balanced(Step(w, Crash(i)))
  {
    ReplaceKeeps(w, i, Abandoned(w.calls[i].amount));
  }

  lemma RecordKeepsBalance(w: World, i: nat)
    requires Balanced(w) && i < |w.calls| && w.calls[i].Settled? && !w.calls[i].recorded
    ensures Balanced(Step(w, Record(i)))
  {
    ReplaceKeeps(w, i, w.calls[i].(recorded := true));
    assert (w.log + [w.calls[i].actual])[..|w.log|] == w.log;
  }

  lemma StepKeepsBalance(w: World, e: Event)
    requires Balanced(w)
    ensures Balanced(Step(w, e))
  {
    match e
    case Reserve(amount) => ReserveKeepsBalance(w, amount);
    case Settle(i, actual) =>
      hide Balanced;
      if i < |w.calls| && w.calls[i].Reserved? {
        CloseCall(w, i, Settled(w.calls[i].amount, actual, false));
      }
    case Release(i) =>
      hide Balanced;
      if i < |w.calls| && w.calls[i].Reserved? {
        CloseCall(w, i, Released(w.calls[i].amount));
      }
    case Crash(i) =>
      hide Balanced;
      if i < |w.calls| && w.calls[i].Reserved? {
        CrashKeepsBalance(w, i);
      }
    case Record(i) =>
      hide Balanced;
      if i < |w.calls| && w.calls[i].Settled? && !w.calls[i].recorded {
        RecordKeepsBalance(w, i);
      }
    case SetCap(_) =>
  }

  lemma ReplaceKeeps(w: World, i: nat, c: Call)
    requires i < |w.calls|
    ensures Total(CommittedOf, w.calls[i := c]) == Total(CommittedOf, w.calls) - CommittedOf(w.calls[i]) + CommittedOf(c)
    ensures Total(OutstandingOf, w.calls[i := c]) == Total(OutstandingOf, w.calls) - OutstandingOf(w.calls[i]) + OutstandingOf(c)
    ensures Total(RecordedOf, w.calls[i := c]) == Total(RecordedOf, w.calls) - RecordedOf(w.calls[i]) + RecordedOf(c)
    ensures Total(ExcessOf, w.calls[i := c]) == Total(ExcessOf, w.calls) - ExcessOf(w.calls[i]) + ExcessOf(c)
  {
    TotalUpdate(CommittedOf, w.calls, i, c);
    TotalUpdate(OutstandingOf, w.calls, i, c);
    TotalUpdate(RecordedOf, w.calls, i, c);
    TotalUpdate(ExcessOf, w.calls, i, c);
  }

  lemma {:induction false} RunKeepsBalance(cap: int, es: seq<Event>)
    ensures Balanced(Run(Start(cap), es))
  {
    if es == [] {
    } else {
      RunKeepsBalance(cap, es[..|es| - 1]);
      StepKeepsBalance(Run(Start(cap), es[..|es| - 1]), es[|es| - 1]);
    }
  }

  lemma {:induction false} TotalSplits(calls: seq<Call>)
    ensures Total(RecordedOf, calls) == Total(ActualOf, calls) - Total(UnrecordedOf, calls)
  {
    if calls == [] {
    } else {
      TotalSplits(calls[..|calls| - 1]);
    }
  }

  /** Conservation after every interleaving, crashes included. */
  lemma {:induction false} Conservation(cap: int, es: seq<Event>)
    ensures var w := Run(Start(cap), es);
      && w.row.spent == Total(CommittedOf, w.calls)
      && w.row.unsettled == Total(OutstandingOf, w.calls)
      && Sum(w.log) == Total(ActualOf, w.calls) - Total(UnrecordedOf, w.calls)
  {
    RunKeepsBalance(cap, es);
    TotalSplits(Run(Start(cap), es).calls);
  }

  /** Neither clamp ever binds: settling an open call is plain arithmetic. */
  lemma {:induction false} ClampsNeverBind(cap: int, es: seq<Event>, i: nat, actual: nat)
    ensures var w := Run(Start(cap), es);
      i < |w.calls| && w.calls[i].Reserved? ==>
        SettleBy(w.row, actual - w.calls[i].amount)
          == Spend(w.row.spent + actual - w.calls[i].amount, w.row.unsettled - 1)
  {
    RunKeepsBalance(cap, es);
    var w := Run(Start(cap), es);
    if i < |w.calls| && w.calls[i].Reserved? {
      CloseCall(w, i, Settled(w.calls[i].amount, actual, false));
    }
  }

  /** Spend never passes the largest cap so far by more than the settled overruns. */
  lemma {:induction false} CapBound(cap: int, es: seq<Event>)
    ensures var w := Run(Start(cap), es);
      w.row.spent <= w.largestCap + Total(ExcessOf, w.calls)
  {
    RunKeepsBalance(cap, es);
  }

  /** With a fixed cap and every settlement within its reservation, the cap holds outright. */
  lemma {:induction false} NoOverrunNoBreach(cap: nat, es: seq<Event>)
    requires forall e :: e in es ==> !e.SetCap?
    requires var w := Run(Start(cap), es); forall c :: c in w.calls ==> ExcessOf(c) == 0
    ensures Run(Start(cap), es).row.spent <= cap
  {
    CapBound(cap, es);
    FixedCap(cap, es);
    NothingInExcess(Run(Start(cap), es).calls);
  }

  lemma {:induction false} FixedCap(cap: nat, es: seq<Event>)
    requires forall e :: e in es ==> !e.SetCap?
    ensures Run(Start(cap), es).cap == Run(Start(cap), es).largestCap == cap
  {
    if es == [] {
    } else {
      FixedCap(cap, es[..|es| - 1]);
      assert es[|es| - 1] in es;
    }
  }

  lemma {:induction false} NothingInExcess(calls: seq<Call>)
    requires forall c :: c in calls ==> ExcessOf(c) == 0
    ensures Total(ExcessOf, calls) == 0
  {
    if calls == [] {
    } else {
      NothingInExcess(calls[..|calls| - 1]);
    }
  }

  lemma OneCallSpends(cap: nat, reserved: nat, actual: nat)
    ensures Run(Start(cap), [Reserve(reserved), Settle(0, actual)]).row.spent == if reserved <= cap then actual else 0
  {
    var es := [Reserve(reserved), Settle(0, actual)];
    assert es[..1] == [Reserve(reserved)] && es[..1][..0] == [];
    assert Run(Start(cap), es[..1]) == Step(Run(Start(cap), es[..1][..0]), Reserve(reserved));
  }

  /** What a call of these tokens is charged. */
  ghost function Due(price: ModelPrice, input: nat, output: nat): (due: nat)
    requires Charged(price)
    ensures due == Cost(price, input, output)
  {
    CostIsMonotone(price, input, output, input, output);
    Cost(price, input, output)
  }

  /** One call against an untouched cap: its worst case reserved, its tokens settled. */
  ghost function SpentOnce(cap: nat, price: ModelPrice, estimate: nat, ceiling: nat, input: nat, output: nat): int
    requires Charged(price)
  {
    Run(Start(cap), [Reserve(Due(price, estimate, ceiling)), Settle(0, Due(price, input, output))]).row.spent
  }

  lemma SpentOnceIsDue(cap: nat, price: ModelPrice, estimate: nat, ceiling: nat, input: nat, output: nat)
    requires Charged(price)
    ensures SpentOnce(cap, price, estimate, ceiling, input, output)
      == if Due(price, estimate, ceiling) <= cap then Due(price, input, output) else 0
  {
    hide Run, Due;
    OneCallSpends(cap, Due(price, estimate, ceiling), Due(price, input, output));
  }

  lemma EveryCapIffWithin(estimate: nat, ceiling: nat, input: nat, output: nat)
    ensures (forall price, cap: nat :: Charged(price) ==> SpentOnce(cap, price, estimate, ceiling, input, output) <= cap)
      <==> input <= estimate && output <= ceiling
  {
    hide SpentOnce, Cost, Due, Charged;
    WithinIffTokensWithin(estimate, ceiling, input, output);
    if input <= estimate && output <= ceiling {
      forall price, cap: nat | Charged(price) ensures SpentOnce(cap, price, estimate, ceiling, input, output) <= cap {
        SpentOnceIsDue(cap, price, estimate, ceiling, input, output);
        assert OverrunOf(Cost(price, estimate, ceiling), Cost(price, input, output)) == 0;
      }
    } else {
      var price :| Charged(price) && OverrunOf(Cost(price, estimate, ceiling), Cost(price, input, output)) != 0;
      var cap := Due(price, estimate, ceiling);
      SpentOnceIsDue(cap, price, estimate, ceiling, input, output);
      assert SpentOnce(cap, price, estimate, ceiling, input, output) > cap;
    }
  }

  /**
    The completions of one call keep every cap, at every price, exactly when
    their input tokens add up to no more than the estimate and their output
    tokens to no more than the ceiling.
   */
  lemma {:induction false} SingleCallKeepsCapIffWithin(estimate: nat, ceiling: nat, provider: nat -> Completion)
    requires Extracted(provider).Outcome?
    ensures var replies, r := Answers(provider, Made(provider)), Extracted(provider);
      && (r.inputTokens, r.outputTokens) == (InputOf(replies), OutputOf(replies))
      && ((forall price, cap: nat :: Charged(price) ==>
             SpentOnce(cap, price, estimate, ceiling, r.inputTokens, r.outputTokens) <= cap)
          <==> InputOf(replies) <= estimate && OutputOf(replies) <= ceiling)
  {
    ExtractedTokens(provider);
    hide Extracted, SpentOnce, Answers, InputOf, OutputOf, Charged;
    EveryCapIffWithin(estimate, ceiling, Extracted(provider).inputTokens, Extracted(provider).outputTokens);
  }

  /** A provider whose first completion is valid and within its estimate never crosses a cap. */
  lemma {:induction false} ValidFirstKeepsCap(cap: nat, price: ModelPrice, estimate: nat, ceiling: nat,
                                              provider: nat -> Completion)
    requires Charged(price) && provider(1).Reply? && provider(1).valid && FirstWithin(provider, estimate, ceiling)
    ensures var r := Extracted(provider);
      r.Outcome? && SpentOnce(cap, price, estimate, ceiling, r.inputTokens, r.outputTokens) <= cap
  {
    SingleCallKeepsCapIffWithin(estimate, ceiling, provider);
    AnswersUpToTwo(provider);
    TokensOfTwo(provider(1), provider(1));
    hide SpentOnce, InputOf, OutputOf, Answers;
  }

  lemma {:induction false} RunOne(w: World, es: seq<Event>, e: Event)
    ensures Run(w, es + [e]) == Step(Run(w, es), e)
  {
    assert (es + [e])[..|es|] == es;
  }

  /** A reservation is granted exactly when it fits under the cap of the moment, whatever came before. */
  lemma {:induction false} CapTakesEffect(cap: int, es: seq<Event>, newCap: int, amount: nat)
    ensures var (w, after) := (Run(Start(cap), es), Run(Start(cap), es + [SetCap(newCap)] + [Reserve(amount)]));
      && |after.calls| == |w.calls| + (if w.row.spent + amount <= newCap then 1 else 0)
      && after.row.spent == w.row.spent + (if w.row.spent + amount <= newCap then amount else 0)
  {
    RunOne(Start(cap), es, SetCap(newCap));
    RunOne(Start(cap), es + [SetCap(newCap)], Reserve(amount));
    hide Run;
  }

  /** A release gives back all that was reserved, a settlement all but the actual cost; a crash gives back nothing. */
  lemma {:induction false} ReleaseGivesBack(cap: int, es: seq<Event>, i: nat, actual: nat)
    requires i < |Run(Start(cap), es).calls| && Run(Start(cap), es).calls[i].Reserved?
    ensures var (w, start) := (Run(Start(cap), es), Start(cap));
      && Run(start, es + [Release(i)]).row == Spend(w.row.spent - w.calls[i].amount, w.row.unsettled - 1)
      && Run(start, es + [Settle(i, actual)]).row == Spend(w.row.spent - w.calls[i].amount + actual, w.row.unsettled - 1)
      && Run(start, es + [Crash(i)]).row == w.row
      && i < |Run(start, es + [Crash(i)]).calls| && Run(start, es + [Crash(i)]).calls[i] == Abandoned(w.calls[i].amount)
  {
    RunOne(Start(cap), es, Release(i));
    RunOne(Start(cap), es, Settle(i, actual));
    RunOne(Start(cap), es, Crash(i));
    ClampsNeverBind(cap, es, i, actual);
    ClampsNeverBind(cap, es, i, 0);
    hide Run;
  }

  /** And what a crash left reserved stays so: no later event, in any order, gives it back. */
  lemma {:induction false} AbandonedStays(cap: int, es: seq<Event>, more: seq<Event>, i: nat)
    requires i < |Run(Start(cap), es).calls| && Run(Start(cap), es).calls[i].Abandoned?
    ensures i < |Run(Start(cap), es + more).calls| && Run(Start(cap), es + more).calls[i] == Run(Start(cap), es).calls[i]
    ensures Run(Start(cap), es + more).row.unsettled >= 1
    ensures Run(Start(cap), es + more).row.spent >= Run(Start(cap), es).calls[i].amount
  {
    if more == [] {
      assert es + more == es;
    } else {
      var n := |more| - 1;
      assert es + more == es + more[..n] + [more[n]];
      AbandonedStays(cap, es, more[..n], i);
      RunOne(Start(cap), es + more[..n], more[n]);
    }
    StillHeld(cap, es + more, i);
  }

  lemma {:induction false} StillHeld(cap: int, es: seq<Event>, i: nat)
    requires i < |Run(Start(cap), es).calls| && Run(Start(cap), es).calls[i].Abandoned?
    ensures Run(Start(cap), es).row.unsettled >= 1
    ensures Run(Start(cap), es).row.spent >= Run(Start(cap), es).calls[i].amount
  {
    hide Run;
    RunKeepsBalance(cap, es);
    var w := Run(Start(cap), es);
    TotalAtLeast(CommittedOf, w.calls, i);
    TotalAtLeast(OutstandingOf, w.calls, i);
  }

  function Requests(es: seq<Event>): nat
  {
    if es == [] then 0 else Requests(es[..|es| - 1]) + if es[|es| - 1].Reserve? then 1 else 0
  }

  /** A run of equal charges against one cap, with nothing settled, stands here. */
  ghost predicate Granting(w: World, cap: nat, charge: nat, requests: nat)
    requires charge > 0
  {
    && w.cap == cap
    && |w.calls| == Min(requests, cap / charge)
    && w.row.spent == charge * |w.calls|
    && (forall c :: c in w.calls ==> !c.Settled?)
  }

  lemma GrantingStep(w: World, cap: nat, charge: nat, requests: nat)
    requires charge > 0 && Granting(w, cap, charge, requests)
    ensures Granting(Step(w, Reserve(charge)), cap, charge, requests + 1)
  {
    FloorAdmits(cap, charge, |w.calls|);
  }

  /** Equal charges with nothing settled: the grants number floor(cap / charge), whoever wins each race. */
  lemma {:induction false} GrantsAreFloor(cap: nat, charge: nat, es: seq<Event>)
    requires charge > 0
    requires forall e :: e in es ==> e == Reserve(charge) || e.Crash?
    ensures |Run(Start(cap), es).calls| == Min(Requests(es), cap / charge)
    ensures Granting(Run(Start(cap), es), cap, charge, Requests(es))
  {
    if es == [] {
    } else {
      var earlier := es[..|es| - 1];
      GrantsAreFloor(cap, charge, earlier);
      assert es[|es| - 1] in es;
      if es[|es| - 1].Reserve? {
        GrantingStep(Run(Start(cap), earlier), cap, charge, Requests(earlier));
      }
    }
  }

  lemma FloorAdmits(cap: nat, charge: nat, n: nat)
    requires charge > 0
    ensures charge * n + charge == charge * (n + 1)
    ensures charge * (n + 1) <= cap <==> n + 1 <= cap / charge
  {
    var q := cap / charge;
    assert charge * q <= cap < charge * (q + 1);
    if n + 1 <= q {
      MulMonotone(charge, n + 1, q);
    } else {
      MulMonotone(charge, q + 1, n + 1);
    }
  }

  // --- the row and the metered call ---------------------------------------------

  class TenantSpend {
    var spentUsd: int
    var unsettledCalls: int

    constructor ()
      ensures State() == Spend(0, 0)
    {
      spentUsd, unsettledCalls := 0, 0;
    }

    function State(): Spend
      reads this
    {
      Spend(spentUsd, unsettledCalls)
    }

    method ReserveAmount(cap: int, amount: int) returns (granted: bool)
      modifies this
      ensures (granted, State()) == Charge(old(State()), cap, amount)
    {
      granted := spentUsd + amount <= cap;
      if granted {
        spentUsd := spentUsd + amount;
        unsettledCalls := unsettledCalls + 1;
      }
    }

    method SettleReservation(reserved: int, actual: int)
      modifies this
      ensures State() == SettleBy(old(State()), actual - reserved)
    {
      spentUsd := Max(spentUsd + (actual - reserved), 0);
      unsettledCalls := Max(unsettledCalls - 1, 0);
    }

    method ReleaseReservation(reserved: int)
      modifies this
      ensures State() == SettleBy(old(State()), 0 - reserved)
    {
      SettleReservation(reserved, 0);
    }
  }

  datatype Purpose = FirstCall | Escalation

  /** One row of the audit log; the tier is the price list's, the cost this module's. */
  datatype UsageEvent = UsageEvent(
    tenant: string, document: Option<int>, pipeline: Option<string>, model: string, tier: string, purpose: Purpose,
    inputTokens: nat, outputTokens: nat, cost: int, latencyMs: Option<int>)

  /** What a call is logged under, whatever it turns out to cost. */
  datatype CallLabel = CallLabel(
    tenant: string, document: Option<int>, pipeline: Option<string>, model: string, tier: string, purpose: Purpose)

  function UsageOf(tag: CallLabel, price: ModelPrice, input: nat, output: nat, latencyMs: Option<int>): UsageEvent
  {
    UsageEvent(tag.tenant, tag.document, tag.pipeline, tag.model, tag.tier, tag.purpose,
               input, output, Cost(price, input, output), latencyMs)
  }

  class UsageLog {
    var events: seq<UsageEvent>

    constructor ()
      ensures events == []
    {
      events := [];
    }

    /** Prices the call and appends it. */
    method RecordUsage(tag: CallLabel, price: ModelPrice, input: nat, output: nat, latencyMs: Option<int>)
      returns (cost: int)
      modifies this
      ensures cost == Cost(price, input, output)
      ensures events == old(events) + [UsageOf(tag, price, input, output, latencyMs)]
      ensures var u := events[|old(events)|];
        && (u.tenant, u.document, u.pipeline) == (tag.tenant, tag.document, tag.pipeline)
        && (u.model, u.tier, u.purpose) == (tag.model, tag.tier, tag.purpose)
        && (u.inputTokens, u.outputTokens, u.cost, u.latencyMs) == (input, output, cost, latencyMs)
    {
      cost := Cost(price, input, output);
      events := events + [UsageEvent(tag.tenant, tag.document, tag.pipeline, tag.model, tag.tier, tag.purpose,
                                     input, output, cost, latencyMs)];
    }
  }

  datatype Metered = OverBudget | Failed | Done(cost: int)

  /** What the breaker sees of an extraction. */
  function EndOf(extraction: Extraction): Attempt
  {
    if extraction.Outcome? then Returned else Raised(extraction.verdict)
  }

  /**
    One uninterrupted metered call: `provider` answers the try its retries end
    with, and the call starts and ends at the given times.  A refused reservation
    touches nothing; a failed call, the open breaker included, gives its money
    back in full; a finished one moves the counter by exactly what it records.
    The breaker sees the admitted call as one, finished or failed.  If the first
    completion is within its estimate the cap is passed by at most the second
    completion's price and one unit of rounding, and by nothing if there is none.
   */
  method MeteredExtraction(spend: TenantSpend, log: UsageLog, breaker: CircuitBreaker, cap: int,
                           tag: CallLabel, price: ModelPrice, promptTokens: nat, maxOutput: nat,
                           provider: nat -> Completion, start: int, end: int, latencyMs: Option<int>)
    returns (r: Metered)
    requires Charged(price) && spend.spentUsd >= 0 && spend.unsettledCalls >= 0
    modifies spend, log, breaker
    ensures r == OverBudget <==> old(spend.spentUsd) + Cost(price, promptTokens, maxOutput) > cap
    ensures r.Done? <==>
      r != OverBudget && Extracted(provider).Outcome? && Granted(breaker.cfg, old(breaker.State()), start)
    ensures !r.Done? ==> spend.State() == old(spend.State()) && log.events == old(log.events)
    ensures r.Done? ==>
      var tokens := Extracted(provider);
      && r.cost == Cost(price, tokens.inputTokens, tokens.outputTokens)
      && spend.State() == old(spend.State()).(spent := old(spend.spentUsd) + r.cost)
      && log.events == old(log.events) + [UsageOf(tag, price, tokens.inputTokens, tokens.outputTokens, latencyMs)]
    ensures r.Done? ==>
      var (tokens, u) := (Extracted(provider), log.events[|old(log.events)|]);
      && (u.inputTokens, u.outputTokens, u.cost) == (tokens.inputTokens, tokens.outputTokens, r.cost)
      && (u.tenant, u.document, u.model, u.purpose) == (tag.tenant, tag.document, tag.model, tag.purpose)
    ensures FirstWithin(provider, promptTokens, maxOutput) ==>
      spend.spentUsd <= Max(old(spend.spentUsd), cap + SecondCost(price, provider))
    ensures breaker.State() == if r == OverBudget then old(breaker.State())
      else CallOnce(breaker.cfg, old(breaker.State()), CallAt(start, end, EndOf(Extracted(provider)))).1
  {
    var worstCase := Cost(price, promptTokens, maxOutput);
    CostIsMonotone(price, promptTokens, maxOutput, promptTokens, maxOutput);
    hide CallOnce, Granted, Cost;
    var granted := spend.ReserveAmount(cap, worstCase);
    if !granted {
      return OverBudget;
    }
    var extraction, made := RunExtraction(provider);
    CallAdmits(breaker.cfg, breaker.State(), CallAt(start, end, EndOf(extraction)));
    var invoked := breaker.Call(start, EndOf(extraction), end);
    if !invoked || extraction.Aborted? {
      spend.ReleaseReservation(worstCase);
      return Failed;
    }
    var input, output := extraction.inputTokens, extraction.outputTokens;
    var cost := Cost(price, input, output);
    CostIsMonotone(price, input, output, input, output);
    if FirstWithin(provider, promptTokens, maxOutput) {
      RunOverrun(price, promptTokens, maxOutput, provider);
    }
    spend.SettleReservation(worstCase, cost);
    cost := log.RecordUsage(tag, price, input, output, latencyMs);
    r := Done(cost);
  }
}
