/**
  No document is lost: whatever was lost or crashed, a document that is not in
  a terminal status is swept, and what the sweep sends is accepted and moves it
  on, until a counting sweep has spent its rescues and fails it visibly.

  The sweeps are the deployed ones: the API's, which does not count and sends
  to parse only (apps/api/docfactory_api/main.py:70-106), and the worker's,
  which counts everything but budget-paused documents
  (packages/core/docfactory_core/healing.py:399-412).
 */
module Recovery {
  import opened Common
  import opened Pipeline
  import opened Overlap

  /** Rescued by counting sweeps only: past parsing and not paused on budget. */
  predicate Counted(status: Status)
  {
    RequeueStage(status) == Some(Extract) && !status.BudgetExceeded?
  }

  /** Past the bound no sweep sends it any more. */
  predicate Spent(cfg: Config, s: System)
  {
    Counted(s.status) && s.reapCount >= cfg.giveUpAfter
  }

  function Stale(cfg: Config, s: System): System
  {
    Step(cfg, Step(cfg, s, Late(cfg, s)), Sweep)
  }

  /** Time passes until the row is stale, and a deployed sweep gets to it. */
  function SweepAndSend(cfg: Config, s: System): System
  {
    Step(cfg, Stale(cfg, s), if Counted(s.status) then Claim(|s.scans|, true) else Poll(|s.scans|))
  }

  /**
    A sweep picks the document up exactly when it is live and was untouched for
    longer than the bound, and changes nothing else.
   */
  lemma SweptIffStale(cfg: Config, s: System)
    ensures var live := s.status in {Received, Parsing, Parsed, Extracting, BudgetExceeded};
      Step(cfg, s, Sweep)
        == if live && s.clock - s.updatedAt > cfg.staleAfter then
             s.(scans := s.scans + [Scan(s.status, s.clock - cfg.staleAfter)])
           else s
  {
  }

  /** A stale live document is scanned as it stands. */
  lemma StaleIsScanned(cfg: Config, s: System)
    requires Orderly(cfg, s) && !Terminal(s.status)
    ensures var t := Stale(cfg, s);
      && Orderly(cfg, t) && t == s.(clock := t.clock, scans := t.scans)
      && |t.scans| == |s.scans| + 1 && t.scans[|s.scans|].status == s.status && Claimable(t, t.scans[|s.scans|])
  {
    var late := Step(cfg, s, Late(cfg, s));
    StepKeepsOrder(cfg, s, Late(cfg, s));
    StepKeepsOrder(cfg, late, Sweep);
    hide SweepsSound;
  }

  /**
    A counted rescue of a stale document ends in FAILED exactly when its
    rescues are spent; until then it sends one message, accepted where it goes.
   */
  lemma CountedRescueFailsIffSpent(cfg: Config, s: System)
    requires Orderly(cfg, s) && !Terminal(s.status) && !s.status.BudgetExceeded?
    ensures var after := Step(cfg, Stale(cfg, s), Claim(|s.scans|, true));
      && (after.status == Failed <==> s.reapCount >= cfg.giveUpAfter)
      && (after.status != Failed ==> after.status == s.status && after.run == s.run && after.reapCount == s.reapCount + 1)
      && if after.status == Failed then after.queue == s.queue
         else |after.queue| == |s.queue| + 1 && after.queue[..|s.queue|] == s.queue
              && Accepts(after.queue[|s.queue|].stage, s.status)
  {
    StaleIsScanned(cfg, s);
    ClaimOutcome(cfg, Stale(cfg, s), |s.scans|);
  }

  /** A stranded document is swept: failed if its rescues are spent, else sent to a handler that accepts it. */
  lemma StrandedIsSwept(cfg: Config, s: System)
    requires Orderly(cfg, s) && !Terminal(s.status)
    ensures var after := SweepAndSend(cfg, s);
      && Orderly(cfg, after)
      && if Spent(cfg, s) then after.status == Failed && after.queue == s.queue
         else && after.status == s.status && after.run == s.run
              && |after.queue| == |s.queue| + 1
              && after.queue[|s.queue|] == Fresh(RequeueStage(s.status).value)
              && Accepts(RequeueStage(s.status).value, s.status)
  {
    var t := Stale(cfg, s);
    StaleIsScanned(cfg, s);
    StepKeepsOrder(cfg, t, if Counted(s.status) then Claim(|s.scans|, true) else Poll(|s.scans|));
    hide Stale, Orderly;
  }

  /** What a handler run that succeeds commits. */
  predicate Succeeds(stage: Stage, e: Event)
  {
    match stage
    case Parse => e.ParsedText? || e.Empty?
    case Extract => e.Route?
  }

  function RunThrough(cfg: Config, s: System, i: nat, e: Event): System
  {
    Step(cfg, Step(cfg, Step(cfg, s, Deliver(i)), Guard), e)
  }

  lemma AcceptedIsAtWork(cfg: Config, s: System, i: nat)
    requires s.run.None? && i < |s.queue| && s.queue[i].receives < cfg.maxReceives
    requires Accepts(s.queue[i].stage, s.status)
    ensures Step(cfg, s, Deliver(i)).run.Some?
    ensures var t := Step(cfg, Step(cfg, s, Deliver(i)), Guard);
      AtStage(t, Working, s.queue[i].stage) && t.status == InProgress(s.queue[i].stage)
  {
  }

  lemma WorkCommits(cfg: Config, s: System, stage: Stage, e: Event)
    requires AtStage(s, Working, stage) && s.status == InProgress(stage) && Succeeds(stage, e)
    ensures var after := Step(cfg, s, e);
      && Rank(after.status) > Rank(s.status)
      && (e.ParsedText? ==> after.status == Parsed && At(after, HandingOff))
      && (e == Route(true) ==> after.status == Approved)
  {
  }

  /** A delivered message that is accepted and succeeds strictly raises the rank. */
  lemma SuccessRaisesRank(cfg: Config, s: System, i: nat, e: Event)
    requires s.run.None? && i < |s.queue| && s.queue[i].receives < cfg.maxReceives
    requires Accepts(s.queue[i].stage, s.status) && Succeeds(s.queue[i].stage, e)
    ensures var after := RunThrough(cfg, s, i, e);
      && Rank(after.status) > Rank(s.status)
      && (e.ParsedText? ==> after.status == Parsed && At(after, HandingOff))
      && (e == Route(true) ==> after.status == Approved)
      && (Orderly(cfg, s) ==> Orderly(cfg, after))
  {
    var stage := s.queue[i].stage;
    assert Rank(InProgress(stage)) >= Rank(s.status);
    hide Step, Accepts, Rank, At, AtStage, InProgress, Orderly;
    if Orderly(cfg, s) {
      StepKeepsOrder(cfg, s, Deliver(i));
      StepKeepsOrder(cfg, Step(cfg, s, Deliver(i)), Guard);
      StepKeepsOrder(cfg, Step(cfg, Step(cfg, s, Deliver(i)), Guard), e);
    }
    AcceptedIsAtWork(cfg, s, i);
    WorkCommits(cfg, Step(cfg, Step(cfg, s, Deliver(i)), Guard), stage, e);
  }

  /** One sweep, delivery and successful run of a document nobody is working on. */
  function Rescued(cfg: Config, s: System, e: Event): System
  {
    RunThrough(cfg, SweepAndSend(cfg, s), |s.queue|, e)
  }

  lemma RescueRaisesRank(cfg: Config, s: System, e: Event)
    requires cfg.maxReceives >= 1 && Orderly(cfg, s) && s.run.None? && !Terminal(s.status) && !Spent(cfg, s)
    requires Succeeds(RequeueStage(s.status).value, e)
    ensures Rank(Rescued(cfg, s, e).status) > Rank(s.status)
    ensures e.ParsedText? ==> Rescued(cfg, s, e).status == Parsed && At(Rescued(cfg, s, e), HandingOff)
    ensures e == Route(true) ==> Rescued(cfg, s, e).status == Approved
    ensures Orderly(cfg, Rescued(cfg, s, e))
  {
    hide Step, Orderly, Rank, At, SweepAndSend, RunThrough;
    StrandedIsSwept(cfg, s);
    SuccessRaisesRank(cfg, SweepAndSend(cfg, s), |s.queue|, e);
  }

  /** The parse run's own hand-off, and the extraction it starts. */
  function Finished(cfg: Config, s: System): System
  {
    RunThrough(cfg, Step(cfg, Step(cfg, s, HandOff), Ack), |s.queue|, Route(true))
  }

  lemma HandOffSends(cfg: Config, s: System)
    requires At(s, HandingOff)
    ensures Step(cfg, s, HandOff).run.Some?
    ensures var t := Step(cfg, Step(cfg, s, HandOff), Ack);
      && t.run.None? && t.status == s.status
      && |t.queue| == |s.queue| + 1 && t.queue[|s.queue|] == Fresh(Extract)
  {
  }

  lemma HandOffFinishes(cfg: Config, s: System)
    requires cfg.maxReceives >= 1 && At(s, HandingOff) && s.status == Parsed
    ensures Finished(cfg, s).status == Approved
  {
    hide Step, At;
    HandOffSends(cfg, s);
    SuccessRaisesRank(cfg, Step(cfg, Step(cfg, s, HandOff), Ack), |s.queue|, Route(true));
  }

  // --- from every execution --------------------------------------------------------

  /** Everything that was going on is lost: every run dies where it stands. */
  function AllCrashed(cfg: Config, b: Bag): Bag
    decreases |b.runs|
  {
    if b.runs == [] then b else AllCrashed(cfg, BagStep(cfg, b, Own(0, Crash)))
  }

  function Held(runs: seq<Run>): seq<Message>
  {
    if runs == [] then [] else [runs[0].msg] + Held(runs[1..])
  }

  lemma CrashGivesBack(cfg: Config, b: Bag)
    requires b.runs != [] && b.base.run.None?
    ensures BagStep(cfg, b, Own(0, Crash)) == Bag(b.base.(queue := b.base.queue + [b.runs[0].msg]), b.runs[1..])
  {
    assert Remove(b.runs, 0) == b.runs[1..];
  }

  /** The row survives, and every message that was being worked on is in the queue again. */
  lemma {:induction false} CrashKeepsRow(cfg: Config, b: Bag)
    requires Orderly(cfg, b.base) && b.base.run.None?
    ensures Orderly(cfg, AllCrashed(cfg, b).base)
    ensures AllCrashed(cfg, b) == Bag(b.base.(queue := b.base.queue + Held(b.runs)), [])
    decreases |b.runs|
  {
    hide BagStep, Orderly;
    var messages := b.base.queue;
    if b.runs == [] {
      assert messages + [] == messages;
    } else {
      BagStepKeepsOrder(cfg, b, Own(0, Crash));
      CrashGivesBack(cfg, b);
      CrashKeepsRow(cfg, BagStep(cfg, b, Own(0, Crash)));
      assert messages + [b.runs[0].msg] + Held(b.runs[1..]) == messages + Held(b.runs);
    }
  }

  /** What the sweeps and successful runs make of a document nobody is working on any more. */
  ghost predicate Recoverable(cfg: Config, s: System)
  {
    if Spent(cfg, s) then SweepAndSend(cfg, s).status == Failed && SweepAndSend(cfg, s).queue == s.queue
    else if RequeueStage(s.status) == Some(Extract) then Rescued(cfg, s, Route(true)).status == Approved
    else Finished(cfg, Rescued(cfg, s, ParsedText)).status == Approved
  }

  lemma StrandedIsRecoverable(cfg: Config, s: System)
    requires cfg.maxReceives >= 1 && Orderly(cfg, s) && s.run.None? && !Terminal(s.status)
    ensures Recoverable(cfg, s)
  {
    hide Step, Orderly, SweepAndSend, Rescued, Finished, At;
    if Spent(cfg, s) {
      StrandedIsSwept(cfg, s);
    } else if RequeueStage(s.status) == Some(Extract) {
      RescueRaisesRank(cfg, s, Route(true));
    } else {
      RescueRaisesRank(cfg, s, ParsedText);
      HandOffFinishes(cfg, Rescued(cfg, s, ParsedText));
    }
  }

  /**
    After every execution with any number of runs at once, even if all of them
    then crash where they stand: a live document whose rescues are not spent is
    one rescue and successful runs away from being approved; one whose rescues
    are spent is failed by its next sweep, and nothing is sent.
   */
  lemma {:induction false} NoDocumentIsLost(cfg: Config, now: int, sent: bool, es: seq<BagEvent>)
    requires cfg.maxReceives >= 1
    ensures var b := BagExecute(cfg, Start(now, sent), es);
      !Terminal(b.base.status) ==>
        var s := AllCrashed(cfg, b).base;
        && s.status == b.base.status && s.reapCount == b.base.reapCount
        && if Spent(cfg, s) then SweepAndSend(cfg, s).status == Failed && SweepAndSend(cfg, s).queue == s.queue
           else if RequeueStage(s.status) == Some(Extract) then Rescued(cfg, s, Route(true)).status == Approved
           else Finished(cfg, Rescued(cfg, s, ParsedText)).status == Approved
  {
    hide BagExecute, Step, Orderly, AllCrashed, SweepAndSend, Rescued, Finished, Spent;
    var b := BagExecute(cfg, Start(now, sent), es);
    BagKeepsOrder(cfg, now, sent, es);
    CrashKeepsRow(cfg, b);
    if !Terminal(b.base.status) {
      StrandedIsRecoverable(cfg, AllCrashed(cfg, b).base);
    }
  }

  // --- and the recovery is an execution ----------------------------------------------

  /** The bag, seen as the single slot it is when at most one run is under way. */
  predicate Shows(b: Bag, s: System)
  {
    |b.runs| <= 1 && b.base.run.None? && Single(b) == s
  }

  /** A step of the single slot is a step of the bag. */
  lemma Follow(cfg: Config, start: Bag, es: seq<BagEvent>, s: System, e: Event) returns (more: seq<BagEvent>)
    requires Shows(BagExecute(cfg, start, es), s)
    requires if OfRun(e) then s.run.Some? else e.Deliver? ==> s.run.None?
    ensures es <= more && Shows(BagExecute(cfg, start, more), Step(cfg, s, e))
  {
    var b := BagExecute(cfg, start, es);
    var next := if OfRun(e) then Own(0, e) else Shared(e);
    hide BagExecute, Step;
    BagOne(cfg, start, es, next);
    SlotStaysEmpty(cfg, b, next);
    if OfRun(e) {
      OwnIsSingle(cfg, b, 0, e);
    } else {
      SharedIsSingle(cfg, b, e);
    }
    more := es + [next];
  }

  lemma {:induction false} FollowCrashes(cfg: Config, start: Bag, es: seq<BagEvent>) returns (more: seq<BagEvent>)
    requires Orderly(cfg, BagExecute(cfg, start, es).base) && BagExecute(cfg, start, es).base.run.None?
    ensures es <= more && Shows(BagExecute(cfg, start, more), AllCrashed(cfg, BagExecute(cfg, start, es)).base)
    decreases |BagExecute(cfg, start, es).runs|
  {
    hide BagExecute, BagStep, Orderly;
    var b := BagExecute(cfg, start, es);
    if b.runs == [] {
      assert b.base.(run := None) == b.base;
      more := es;
    } else {
      BagOne(cfg, start, es, Own(0, Crash));
      BagStepKeepsOrder(cfg, b, Own(0, Crash));
      CrashGivesBack(cfg, b);
      more := FollowCrashes(cfg, start, es + [Own(0, Crash)]);
    }
  }

  lemma FollowSweep(cfg: Config, start: Bag, es: seq<BagEvent>, s: System) returns (more: seq<BagEvent>)
    requires Shows(BagExecute(cfg, start, es), s)
    ensures es <= more && Shows(BagExecute(cfg, start, more), SweepAndSend(cfg, s))
  {
    hide BagExecute, Step, Shows;
    more := Follow(cfg, start, es, s, Late(cfg, s));
    more := Follow(cfg, start, more, Step(cfg, s, Late(cfg, s)), Sweep);
    var send := if Counted(s.status) then Claim(|s.scans|, true) else Poll(|s.scans|);
    more := Follow(cfg, start, more, Stale(cfg, s), send);
  }

  lemma FollowRun(cfg: Config, start: Bag, es: seq<BagEvent>, s: System, i: nat, e: Event) returns (more: seq<BagEvent>)
    requires Shows(BagExecute(cfg, start, es), s)
    requires s.run.None? && i < |s.queue| && s.queue[i].receives < cfg.maxReceives
    requires Accepts(s.queue[i].stage, s.status) && Succeeds(s.queue[i].stage, e)
    ensures es <= more && Shows(BagExecute(cfg, start, more), RunThrough(cfg, s, i, e))
  {
    hide BagExecute, Step, Shows;
    AcceptedIsAtWork(cfg, s, i);
    more := Follow(cfg, start, es, s, Deliver(i));
    more := Follow(cfg, start, more, Step(cfg, s, Deliver(i)), Guard);
    more := Follow(cfg, start, more, Step(cfg, Step(cfg, s, Deliver(i)), Guard), e);
  }

  lemma FollowRescue(cfg: Config, start: Bag, es: seq<BagEvent>, s: System, e: Event) returns (more: seq<BagEvent>)
    requires Shows(BagExecute(cfg, start, es), s)
    requires cfg.maxReceives >= 1 && Orderly(cfg, s) && s.run.None? && !Terminal(s.status) && !Spent(cfg, s)
    requires Succeeds(RequeueStage(s.status).value, e)
    ensures es <= more && Shows(BagExecute(cfg, start, more), Rescued(cfg, s, e))
  {
    hide BagExecute, Step, Shows, Orderly, SweepAndSend;
    StrandedIsSwept(cfg, s);
    more := FollowSweep(cfg, start, es, s);
    more := FollowRun(cfg, start, more, SweepAndSend(cfg, s), |s.queue|, e);
  }

  lemma FollowFinish(cfg: Config, start: Bag, es: seq<BagEvent>, s: System) returns (more: seq<BagEvent>)
    requires Shows(BagExecute(cfg, start, es), s)
    requires cfg.maxReceives >= 1 && At(s, HandingOff) && s.status == Parsed
    ensures es <= more && Shows(BagExecute(cfg, start, more), Finished(cfg, s))
  {
    assert s.run.Some?;
    hide BagExecute, Step, Shows, At;
    HandOffSends(cfg, s);
    var sent := Step(cfg, s, HandOff);
    more := Follow(cfg, start, es, s, HandOff);
    more := Follow(cfg, start, more, sent, Ack);
    more := FollowRun(cfg, start, more, Step(cfg, sent, Ack), |s.queue|, Route(true));
  }

  /**
    Every execution that leaves the document live can be continued until it is
    approved, or, with its rescues spent, failed.
   */
  lemma {:induction false} EveryExecutionRecovers(cfg: Config, now: int, sent: bool, es: seq<BagEvent>)
    returns (more: seq<BagEvent>)
    requires cfg.maxReceives >= 1 && !Terminal(BagExecute(cfg, Start(now, sent), es).base.status)
    ensures es <= more
    ensures BagExecute(cfg, Start(now, sent), more).base.status
      == if Spent(cfg, BagExecute(cfg, Start(now, sent), es).base) then Failed else Approved
  {
    hide BagExecute, Step, Orderly, AllCrashed, SweepAndSend, Rescued, Finished, At;
    var start := Start(now, sent);
    var b := BagExecute(cfg, start, es);
    BagKeepsOrder(cfg, now, sent, es);
    CrashKeepsRow(cfg, b);
    var s := AllCrashed(cfg, b).base;
    more := FollowCrashes(cfg, start, es);
    StrandedIsRecoverable(cfg, s);
    if Spent(cfg, s) {
      more := FollowSweep(cfg, start, more, s);
    } else if RequeueStage(s.status) == Some(Extract) {
      more := FollowRescue(cfg, start, more, s, Route(true));
    } else {
      RescueRaisesRank(cfg, s, ParsedText);
      more := FollowRescue(cfg, start, more, s, ParsedText);
      more := FollowFinish(cfg, start, more, Rescued(cfg, s, ParsedText));
    }
  }
}
