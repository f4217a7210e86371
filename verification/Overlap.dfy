/**
  Any number of handler runs on one document at once, each on a message of its
  own: what `Pipeline` proves of one run at a time holds of executions whose
  runs do not overlap, and not of all; the sweeps' bounds hold regardless.

  The visibility timeouts keep one message from two runs
  (packages/core/docfactory_core/queues.py:45-52); two messages of one document,
  the original and a rescue's, can be in flight together.
 */
module Overlap {
  import opened Common
  import opened Pipeline

  /** The document and its queues, with no run in the slot, and the runs beside them. */
  datatype Bag = Bag(base: System, runs: seq<Run>)

  datatype BagEvent =
    | Own(i: nat, e: Event)     // a step of run i
    | Shared(e: Event)          // the queue service and the sweepers

  predicate OfRun(e: Event)
  {
    !(e.Tick? || e.Deliver? || e.DeadLetter? || e.Redrive? || e.Sweep? || e.Poll? || e.Claim? || e.Skip?)
  }

  /** The document as run i sees it. */
  function Focus(b: Bag, i: nat): System
    requires i < |b.runs|
  {
    b.base.(run := Some(b.runs[i]))
  }

  function Unfocus(b: Bag, i: nat, s: System): Bag
    requires i < |b.runs|
  {
    Bag(s.(run := None), if s.run.None? then Remove(b.runs, i) else b.runs[i := s.run.value])
  }

  /** This claim gives the document up. */
  predicate GivesUp(cfg: Config, s: System, e: Event)
  {
    && e.Claim? && e.k < |s.scans| && !s.scans[e.k].status.BudgetExceeded? && RequeueStage(s.scans[e.k].status).Some?
    && Claimable(s, s.scans[e.k]) && s.reapCount >= cfg.giveUpAfter
  }

  function Mark(r: Run): Run
  {
    if r.phase.Working? || r.phase.StoredInvalid? then r.(overtaken := true) else r
  }

  function BagStep(cfg: Config, b: Bag, e: BagEvent): Bag
  {
    match e
    case Own(i, e) => if i < |b.runs| && OfRun(e) then Unfocus(b, i, Step(cfg, Focus(b, i), e)) else b
    case Shared(e) =>
      if OfRun(e) then b
      else
        var s := Step(cfg, b.base, e);
        var runs := if GivesUp(cfg, b.base, e) then seq(|b.runs|, i requires 0 <= i < |b.runs| => Mark(b.runs[i])) else b.runs;
        Bag(s.(run := None), runs + if s.run.Some? then [s.run.value] else [])
  }

  function Start(now: int, sent: bool): Bag
  {
    Bag(Ingested(now, sent), [])
  }

  function BagExecute(cfg: Config, b: Bag, es: seq<BagEvent>): Bag
  {
    if es == [] then b else BagStep(cfg, BagExecute(cfg, b, es[..|es| - 1]), es[|es| - 1])
  }

  lemma {:induction false} BagOne(cfg: Config, b: Bag, es: seq<BagEvent>, e: BagEvent)
    ensures BagExecute(cfg, b, es + [e]) == BagStep(cfg, BagExecute(cfg, b, es), e)
  {
    hide BagStep;
    assert (es + [e])[..|es|] == es;
  }

  // --- without overlap -------------------------------------------------------------

  /** Every delivery finds no run under way. */
  ghost predicate NoOverlap(cfg: Config, b: Bag, es: seq<BagEvent>)
  {
    forall i :: 0 <= i < |es| && es[i].Shared? && es[i].e.Deliver? ==> BagExecute(cfg, b, es[..i]).runs == []
  }

  /** At most one run, put back in its slot. */
  function Single(b: Bag): System
    requires |b.runs| <= 1
  {
    b.base.(run := if b.runs == [] then None else Some(b.runs[0]))
  }

  lemma OwnIsSingle(cfg: Config, b: Bag, i: nat, e: Event)
    requires |b.runs| <= 1 && i < |b.runs|
    ensures var after := Unfocus(b, i, Step(cfg, Focus(b, i), e));
      |after.runs| <= 1 && Single(after) == Step(cfg, Single(b), e)
  {
    hide Step;
  }

  lemma TransportIgnoresRun(cfg: Config, s: System, run: Option<Run>, e: Event)
    requires !e.Deliver?
    ensures TransportStep(cfg, s.(run := run), e) == TransportStep(cfg, s, e).(run := run)
      || OfRun(e) || e.Sweep? || e.Poll? || e.Claim? || e.Skip?
  {
  }

  lemma HealerMarksRun(cfg: Config, s: System, r: Run, e: Event)
    requires s.run.None?
    ensures HealerStep(cfg, s, e).run.None?
    ensures HealerStep(cfg, s.(run := Some(r)), e)
      == HealerStep(cfg, s, e).(run := Some(if GivesUp(cfg, s, e) then Mark(r) else r))
  {
  }

  lemma SharedKeepsRun(cfg: Config, s: System, r: Run, e: Event)
    requires s.run.None? && !OfRun(e) && !e.Deliver?
    ensures Step(cfg, s, e).run.None?
    ensures Step(cfg, s.(run := Some(r)), e) == Step(cfg, s, e).(run := Some(if GivesUp(cfg, s, e) then Mark(r) else r))
  {
    TransportIgnoresRun(cfg, s, Some(r), e);
    TransportIgnoresRun(cfg, s, None, e);
    HealerMarksRun(cfg, s, r, e);
    assert s.(run := None) == s;
    hide TransportStep, HealerStep, HandlerStep, Mark;
  }

  lemma SharedIsSingle(cfg: Config, b: Bag, e: Event)
    requires |b.runs| <= 1 && b.base.run.None? && !OfRun(e) && (e.Deliver? ==> b.runs == [])
    ensures var after := BagStep(cfg, b, Shared(e));
      |after.runs| <= 1 && Single(after) == Step(cfg, Single(b), e)
  {
    if b.runs != [] {
      SharedKeepsRun(cfg, b.base, b.runs[0], e);
    } else {
      assert b.base.(run := None) == b.base;
    }
    hide Step, GivesUp, Mark;
  }

  lemma SlotStaysEmpty(cfg: Config, b: Bag, e: BagEvent)
    requires b.base.run.None?
    ensures BagStep(cfg, b, e).base.run.None?
  {
    hide Step, GivesUp, OfRun;
  }

  /** An execution without overlap is one of the single-slot pipeline, so everything proved there holds of it. */
  lemma NoOverlapIsSingle(cfg: Config, now: int, sent: bool, es: seq<BagEvent>)
    returns (plain: seq<Event>)
    requires NoOverlap(cfg, Start(now, sent), es)
    ensures var b := BagExecute(cfg, Start(now, sent), es);
      |b.runs| <= 1 && b.base.run.None? && Single(b) == Execute(cfg, Ingested(now, sent), plain)
  {
    plain := [];
    if es == [] {
      assert Ingested(now, sent).(run := None) == Ingested(now, sent);
    } else {
      var n, last := |es| - 1, es[|es| - 1];
      assert forall i :: 0 <= i < n ==> es[..n][i] == es[i] && es[..n][..i] == es[..i];
      hide Step, Single, GivesUp, OfRun;
      plain := NoOverlapIsSingle(cfg, now, sent, es[..n]);
      var b := BagExecute(cfg, Start(now, sent), es[..n]);
      SlotStaysEmpty(cfg, b, last);
      match last
      case Own(i, e) =>
        if i < |b.runs| && OfRun(e) {
          OwnIsSingle(cfg, b, i, e);
          ExecuteOne(cfg, Ingested(now, sent), plain, e);
          plain := plain + [e];
        }
      case Shared(e) =>
        if !OfRun(e) {
          SharedIsSingle(cfg, b, e);
          ExecuteOne(cfg, Ingested(now, sent), plain, e);
          plain := plain + [e];
        }
    }
  }

  /** With the premise spelled out: stages happen once when no two runs overlap. */
  lemma {:induction false} StagesHappenOnceWithoutOverlap(cfg: Config, now: int, sent: bool, es: seq<BagEvent>)
    requires NoOverlap(cfg, Start(now, sent), es)
    ensures var s := BagExecute(cfg, Start(now, sent), es).base;
      && s.handoffs <= 1 && s.tasks <= 1
      && s.routed == (if Routed(s.status) then 1 else 0)
  {
    var plain := NoOverlapIsSingle(cfg, now, sent, es);
    hide BagExecute, Execute;
    StagesHappenOnce(cfg, now, sent, plain);
    TaskIffNotLost(cfg, now, sent, plain);
  }

  /** And a terminal status is left only by the second write of a run a give-up has overtaken. */
  lemma {:induction false} TerminalLeftWithoutOverlap(cfg: Config, now: int, sent: bool, es: seq<BagEvent>, e: BagEvent)
    requires NoOverlap(cfg, Start(now, sent), es)
    requires e.Shared? && e.e.Deliver? ==> BagExecute(cfg, Start(now, sent), es).runs == []
    ensures var b := BagExecute(cfg, Start(now, sent), es);
      && |b.runs| <= 1
      && (Terminal(b.base.status) ==>
            ((BagStep(cfg, b, e).base.status != b.base.status) <==>
              (e.Own? && e.i < |b.runs| && OvertakenWrite(Single(b), e.e))))
  {
    var plain := NoOverlapIsSingle(cfg, now, sent, es);
    var b := BagExecute(cfg, Start(now, sent), es);
    assert !OfRun(e.e) ==> !OvertakenWrite(Single(b), e.e);
    hide BagExecute, Execute, Step, Sound, Terminal, OvertakenWrite, OfRun;
    ExecutionIsSound(cfg, now, sent, plain);
    TerminalLeftIffOvertaken(cfg, Single(b), e.e);
    if e.Own? && e.i < |b.runs| {
      OwnIsSingle(cfg, b, e.i, e.e);
    } else if e.Shared? && !OfRun(e.e) {
      SharedIsSingle(cfg, b, e.e);
      SharedWritesNothing(Single(b), e.e);
    }
  }

  lemma SharedWritesNothing(s: System, e: Event)
    requires !OfRun(e)
    ensures !OvertakenWrite(s, e)
  {
  }

  // --- with overlap: what still holds ------------------------------------------------

  lemma HealerKeepsTime(cfg: Config, s: System, e: Event)
    requires s.updatedAt <= s.clock
    ensures HealerStep(cfg, s, e).updatedAt <= HealerStep(cfg, s, e).clock
    ensures TransportStep(cfg, s, e).updatedAt <= TransportStep(cfg, s, e).clock
  {
  }

  lemma TransportKeepsSweeps(cfg: Config, s: System, e: Event)
    requires SweepsSound(cfg, s)
    ensures SweepsSound(cfg, TransportStep(cfg, s, e))
  {
  }

  /** Scans, claims and counts of the sweepers do not depend on any run. */
  lemma SweepsIgnoreRun(cfg: Config, s: System, run: Option<Run>)
    ensures Orderly(cfg, s.(run := run)) == Orderly(cfg, s)
  {
  }

  /** What any number of runs keeps: the sweepers' bookkeeping, and a row stamped no later than now. */
  ghost predicate Orderly(cfg: Config, s: System)
  {
    SweepsSound(cfg, s) && s.updatedAt <= s.clock
  }

  lemma StepKeepsOrder(cfg: Config, s: System, e: Event)
    requires Orderly(cfg, s)
    ensures Orderly(cfg, Step(cfg, s, e))
  {
    HandlerWritesOnClock(cfg, s, e);
    WritesKeepSweeps(cfg, s, HandlerStep(cfg, s, e));
    HealerKeepsSweeps(cfg, s, e);
    HealerKeepsTime(cfg, s, e);
    TransportKeepsSweeps(cfg, s, e);
    hide HandlerStep, HealerStep, TransportStep, SweepsSound;
  }

  lemma BagStepKeepsOrder(cfg: Config, b: Bag, e: BagEvent)
    requires Orderly(cfg, b.base)
    ensures Orderly(cfg, BagStep(cfg, b, e).base)
  {
    hide Step, Orderly, GivesUp, OfRun;
    match e
    case Own(i, e) =>
      if i < |b.runs| {
        var s := Step(cfg, Focus(b, i), e);
        SweepsIgnoreRun(cfg, b.base, Some(b.runs[i]));
        StepKeepsOrder(cfg, Focus(b, i), e);
        SweepsIgnoreRun(cfg, s, None);
      }
    case Shared(e) =>
      StepKeepsOrder(cfg, b.base, e);
      SweepsIgnoreRun(cfg, Step(cfg, b.base, e), None);
  }

  lemma {:induction false} BagKeepsOrder(cfg: Config, now: int, sent: bool, es: seq<BagEvent>)
    ensures var b := BagExecute(cfg, Start(now, sent), es); Orderly(cfg, b.base) && b.base.run.None?
  {
    if es == [] {
    } else {
      hide BagStep, Orderly;
      var before := BagExecute(cfg, Start(now, sent), es[..|es| - 1]);
      BagKeepsOrder(cfg, now, sent, es[..|es| - 1]);
      BagStepKeepsOrder(cfg, before, es[|es| - 1]);
      SlotStaysEmpty(cfg, before, es[|es| - 1]);
    }
  }

  /** The rescue bound and the spacing of claims need no premise: they hold with any number of runs at once. */
  lemma {:induction false} RescuesBoundedRegardless(cfg: Config, now: int, sent: bool, es: seq<BagEvent>)
    ensures var s := BagExecute(cfg, Start(now, sent), es).base;
      && s.rescues <= cfg.giveUpAfter
      && |s.claims| == s.reapCount
      && forall i, j :: 0 <= i < j < |s.claims| ==> s.claims[j] - s.claims[i] > cfg.staleAfter
  {
    hide BagExecute;
    BagKeepsOrder(cfg, now, sent, es);
  }

  /** This claim still finds its document as scanned, not paused on budget, and writes: a rescue sent, or a give-up. */
  predicate Counts(cfg: Config, s: System, k: nat, sent: bool)
  {
    && k < |s.scans| && s.scans[k].status in {Received, Parsing, Parsed, Extracting}
    && s.updatedAt < s.scans[k].cutoff && !Terminal(s.status)
    && (sent || s.reapCount >= cfg.giveUpAfter)
  }

  /** The count of rescues is raised exactly by such a claim, by one. */
  lemma CountRaisedIffClaimed(cfg: Config, b: Bag, e: BagEvent)
    requires b.base.run.None? && SweepsSound(cfg, b.base)
    ensures var after := BagStep(cfg, b, e).base;
      && (after.reapCount != b.base.reapCount
          <==> e.Shared? && e.e.Claim? && Counts(cfg, b.base, e.e.k, e.e.sent))
      && b.base.reapCount <= after.reapCount <= b.base.reapCount + 1
  {
    match e
    case Own(i, e) =>
      if i < |b.runs| {
        HandlerWritesOnClock(cfg, Focus(b, i), e);
      }
      hide HandlerStep, SweepsSound;
    case Shared(e) =>
      hide HandlerStep;
  }

  /** No claim ever counts against a document while it is paused on budget, whatever was scanned before. */
  lemma {:induction false} PausedIsNeverCounted(cfg: Config, now: int, sent: bool, es: seq<BagEvent>,
                                                more: seq<BagEvent>)
    requires forall i :: 0 <= i < |more| ==>
      BagExecute(cfg, Start(now, sent), es + more[..i]).base.status == BudgetExceeded
    ensures BagExecute(cfg, Start(now, sent), es + more).base.reapCount
      == BagExecute(cfg, Start(now, sent), es).base.reapCount
  {
    if more == [] {
      assert es + more == es;
    } else {
      var n, last := |more| - 1, more[|more| - 1];
      assert forall i :: 0 <= i < n ==> more[..n][..i] == more[..i];
      assert es + more == es + more[..n] + [last];
      hide BagExecute, BagStep, SweepsSound;
      PausedIsNeverCounted(cfg, now, sent, es, more[..n]);
      BagOne(cfg, Start(now, sent), es + more[..n], last);
      BagKeepsOrder(cfg, now, sent, es + more[..n]);
      CountRaisedIffClaimed(cfg, BagExecute(cfg, Start(now, sent), es + more[..n]), last);
      CountedIsNotPaused(cfg, BagExecute(cfg, Start(now, sent), es + more[..n]).base);
    }
  }

  lemma CountedIsNotPaused(cfg: Config, s: System)
    requires SweepsSound(cfg, s) && s.status == BudgetExceeded
    ensures forall k: nat, sent :: !Counts(cfg, s, k, sent)
  {
  }

  /** A run already past its gate writes a status the row does not have. */
  predicate WritesOver(cfg: Config, s: System, e: Event)
    requires s.run.Some?
  {
    var r := s.run.value;
    match e
    case Empty => r.phase.Working? && r.msg.stage == Parse && s.status != NeedsOcr
    case ParsedText => r.phase.Working? && r.msg.stage == Parse && s.status != Parsed
    case Pause => r.phase.Working? && r.msg.stage == Extract && s.status != BudgetExceeded
    case Route(approved) =>
      r.phase.Working? && r.msg.stage == Extract && s.status != (if approved then Approved else NeedsReview)
    case Fail(noted) => r.phase.Working? && noted && r.msg.receives >= cfg.maxReceives && s.status != Failed
    case MarkInvalid(noted) => r.phase.StoredInvalid? && noted && s.status != Failed
    case _ => false
  }

  lemma RunLeavesTerminal(cfg: Config, s: System, e: Event)
    requires s.run.Some? && Terminal(s.status)
    ensures HandlerStep(cfg, s, e).status != s.status <==> WritesOver(cfg, s, e)
  {
    GateLeavesTerminal(cfg, s, e);
    EndLeavesTerminal(cfg, s, e);
    CommitLeavesTerminal(cfg, s, e);
    hide GateStep, EndStep, CommitStep, Terminal;
  }

  lemma GateLeavesTerminal(cfg: Config, s: System, e: Event)
    requires Terminal(s.status)
    ensures GateStep(cfg, s, e).status == s.status
  {
  }

  lemma EndLeavesTerminal(cfg: Config, s: System, e: Event)
    requires s.run.Some? && Terminal(s.status)
    ensures EndStep(cfg, s, e).status != s.status <==> e.Fail? && WritesOver(cfg, s, e)
  {
  }

  lemma CommitLeavesTerminal(cfg: Config, s: System, e: Event)
    requires s.run.Some? && Terminal(s.status)
    ensures CommitStep(s, e).status != s.status <==> !e.Fail? && WritesOver(cfg, s, e)
  {
  }

  /** With any number of runs at once: a terminal status is left exactly when a run past its gate writes another. */
  lemma TerminalLeftIffWrittenOver(cfg: Config, b: Bag, e: BagEvent)
    requires b.base.run.None? && Terminal(b.base.status)
    ensures BagStep(cfg, b, e).base.status != b.base.status
      <==> e.Own? && e.i < |b.runs| && WritesOver(cfg, Focus(b, e.i), e.e)
  {
    SweepProgress(cfg, b.base, e.e);
    assert !OfRun(e.e) && e.Own? && e.i < |b.runs| ==> !WritesOver(cfg, Focus(b, e.i), e.e);
    if e.Own? && e.i < |b.runs| {
      RunLeavesTerminal(cfg, Focus(b, e.i), e.e);
    }
    hide HandlerStep, TransportStep, HealerStep, WritesOver, Terminal;
  }

  // --- with overlap: what fails ----------------------------------------------------------

  /** What a run is on, and where it stands. */
  datatype Place = Place(stage: Stage, phase: Phase)

  /** The document, its queue and hand-offs, and where each run stands. */
  ghost predicate Looks(b: Bag, status: Status, queue: seq<Message>, handoffs: nat, places: seq<Place>)
  {
    && b.base.run == None && b.base.status == status && b.base.queue == queue && b.base.handoffs == handoffs
    && |b.runs| == |places|
    && forall k :: 0 <= k < |places| ==> Place(b.runs[k].msg.stage, b.runs[k].phase) == places[k]
  }

  lemma DeliverLooks(cfg: Config, b: Bag, status: Status, queue: seq<Message>, h: nat, ps: seq<Place>)
    requires cfg.maxReceives >= 1 && queue != [] && queue[0].receives == 0 && Looks(b, status, queue, h, ps)
    ensures Looks(BagStep(cfg, b, Shared(Deliver(0))), status, queue[1..], h, ps + [Place(queue[0].stage, Gate)])
  {
  }

  lemma GuardLooks(cfg: Config, b: Bag, i: nat, status: Status, queue: seq<Message>, h: nat, ps: seq<Place>)
    requires i < |ps| && ps[i].phase == Gate && Accepts(ps[i].stage, status) && Looks(b, status, queue, h, ps)
    ensures Looks(BagStep(cfg, b, Own(i, Guard)), InProgress(ps[i].stage), queue, h, ps[i := Place(ps[i].stage, Working)])
  {
  }

  lemma ParsedLooks(cfg: Config, b: Bag, i: nat, status: Status, queue: seq<Message>, h: nat, ps: seq<Place>)
    requires i < |ps| && ps[i] == Place(Parse, Working) && Looks(b, status, queue, h, ps)
    ensures Looks(BagStep(cfg, b, Own(i, ParsedText)), Parsed, queue, h, ps[i := Place(Parse, HandingOff)])
  {
  }

  lemma HandOffLooks(cfg: Config, b: Bag, i: nat, status: Status, queue: seq<Message>, h: nat, ps: seq<Place>)
    requires i < |ps| && ps[i].phase == HandingOff && Looks(b, status, queue, h, ps)
    ensures Looks(BagStep(cfg, b, Own(i, HandOff)), status, queue + [Fresh(Extract)], h + 1, ps[i := Place(ps[i].stage, Returning)])
  {
  }

  lemma AckLooks(cfg: Config, b: Bag, i: nat, status: Status, queue: seq<Message>, h: nat, ps: seq<Place>)
    requires i < |ps| && ps[i].phase == Returning && Looks(b, status, queue, h, ps)
    ensures Looks(BagStep(cfg, b, Own(i, Ack)), status, queue, h, Remove(ps, i))
  {
  }

  lemma ApproveLooks(cfg: Config, b: Bag, i: nat, status: Status, queue: seq<Message>, h: nat, ps: seq<Place>)
    requires i < |ps| && ps[i] == Place(Extract, Working) && Looks(b, status, queue, h, ps)
    ensures Looks(BagStep(cfg, b, Own(i, Route(true))), Approved, queue, h, ps[i := Place(Extract, Returning)])
  {
  }

  lemma WaitingLooks(cfg: Config, b: Bag)
    requires b == Start(0, true)
    ensures BagStep(cfg, b, Shared(Tick(cfg.staleAfter + 1))) == Bag(b.base.(clock := cfg.staleAfter + 1), [])
  {
  }

  lemma SweptLooks(cfg: Config, b: Bag)
    requires b == Bag(Ingested(0, true).(clock := cfg.staleAfter + 1), [])
    ensures BagStep(cfg, b, Shared(Sweep)) == Bag(b.base.(scans := [Scan(Received, 1)]), [])
  {
  }

  lemma PolledLooks(cfg: Config, b: Bag)
    requires Looks(b, Received, [Fresh(Parse)], 0, []) && b.base.scans == [Scan(Received, 1)]
    ensures Looks(BagStep(cfg, b, Shared(Poll(0))), Received, [Fresh(Parse), Fresh(Parse)], 0, [])
  {
  }

  /** The original message still waits when the API's sweep sends a second one. */
  lemma SecondMessageLooks(cfg: Config, b: Bag)
    requires b == Start(0, true)
    ensures var c := BagStep(cfg, BagStep(cfg, BagStep(cfg, b, Shared(Tick(cfg.staleAfter + 1))), Shared(Sweep)), Shared(Poll(0)));
      Looks(c, Received, [Fresh(Parse), Fresh(Parse)], 0, [])
  {
    hide BagStep;
    WaitingLooks(cfg, b);
    SweptLooks(cfg, BagStep(cfg, b, Shared(Tick(cfg.staleAfter + 1))));
    PolledLooks(cfg, BagStep(cfg, BagStep(cfg, b, Shared(Tick(cfg.staleAfter + 1))), Shared(Sweep)));
  }

  lemma SecondMessage(cfg: Config) returns (es: seq<BagEvent>)
    ensures Looks(BagExecute(cfg, Start(0, true), es), Received, [Fresh(Parse), Fresh(Parse)], 0, [])
  {
    hide BagStep, Looks;
    var start := Start(0, true);
    SecondMessageLooks(cfg, start);
    var late := Shared(Tick(cfg.staleAfter + 1));
    BagOne(cfg, start, [], late);
    BagOne(cfg, start, [] + [late], Shared(Sweep));
    BagOne(cfg, start, [] + [late] + [Shared(Sweep)], Shared(Poll(0)));
    es := [] + [late] + [Shared(Sweep)] + [Shared(Poll(0))];
  }

  /** Both messages are delivered and both runs pass the gate. */
  lemma BothAtWork(cfg: Config) returns (es: seq<BagEvent>)
    requires cfg.maxReceives >= 1
    ensures Looks(BagExecute(cfg, Start(0, true), es), Parsing, [], 0, [Place(Parse, Working), Place(Parse, Working)])
  {
    hide BagStep, Looks, BagExecute;
    var start, m := Start(0, true), Fresh(Parse);
    es := SecondMessage(cfg);
    BagOne(cfg, start, es, Shared(Deliver(0)));
    DeliverLooks(cfg, BagExecute(cfg, start, es), Received, [m, m], 0, []);
    es := es + [Shared(Deliver(0))];
    assert [m, m][1..] == [m] && [] + [Place(Parse, Gate)] == [Place(Parse, Gate)];
    BagOne(cfg, start, es, Shared(Deliver(0)));
    DeliverLooks(cfg, BagExecute(cfg, start, es), Received, [m], 0, [Place(Parse, Gate)]);
    es := es + [Shared(Deliver(0))];
    var ps := [Place(Parse, Gate), Place(Parse, Gate)];
    assert [m][1..] == [] && [Place(Parse, Gate)] + [Place(Parse, Gate)] == ps;
    BagOne(cfg, start, es, Own(0, Guard));
    GuardLooks(cfg, BagExecute(cfg, start, es), 0, Received, [], 0, ps);
    es := es + [Own(0, Guard)];
    ps := ps[0 := Place(Parse, Working)];
    BagOne(cfg, start, es, Own(1, Guard));
    GuardLooks(cfg, BagExecute(cfg, start, es), 1, Parsing, [], 0, ps);
    es := es + [Own(1, Guard)];
    assert ps[1 := Place(Parse, Working)] == [Place(Parse, Working), Place(Parse, Working)];
  }

  /** The first run hands over and returns; its extraction comes to the gate beside the second run. */
  lemma OneAhead(cfg: Config) returns (es: seq<BagEvent>)
    requires cfg.maxReceives >= 1
    ensures Looks(BagExecute(cfg, Start(0, true), es), Parsed, [], 1, [Place(Parse, Working), Place(Extract, Gate)])
  {
    hide BagStep, Looks, BagExecute;
    var start, x := Start(0, true), Fresh(Extract);
    es := BothAtWork(cfg);
    var ps := [Place(Parse, Working), Place(Parse, Working)];
    BagOne(cfg, start, es, Own(0, ParsedText));
    ParsedLooks(cfg, BagExecute(cfg, start, es), 0, Parsing, [], 0, ps);
    es, ps := es + [Own(0, ParsedText)], ps[0 := Place(Parse, HandingOff)];
    BagOne(cfg, start, es, Own(0, HandOff));
    HandOffLooks(cfg, BagExecute(cfg, start, es), 0, Parsed, [], 0, ps);
    es, ps := es + [Own(0, HandOff)], ps[0 := Place(Parse, Returning)];
    BagOne(cfg, start, es, Own(0, Ack));
    AckLooks(cfg, BagExecute(cfg, start, es), 0, Parsed, [] + [x], 1, ps);
    assert [] + [x] == [x] && Remove(ps, 0) == [Place(Parse, Working)];
    es := es + [Own(0, Ack)];
    BagOne(cfg, start, es, Shared(Deliver(0)));
    DeliverLooks(cfg, BagExecute(cfg, start, es), Parsed, [x], 1, [Place(Parse, Working)]);
    es := es + [Shared(Deliver(0))];
    assert [x][1..] == [] && [Place(Parse, Working)] + [Place(Extract, Gate)] == [Place(Parse, Working), Place(Extract, Gate)];
  }

  /**
    Two parse runs at once, of the original message and of the rescue the API
    sends while it waits: an approved document becomes PARSED again, and is
    handed over a second time.
   */
  lemma OverlapUndoesApproval(cfg: Config) returns (approved: seq<BagEvent>, undone: seq<BagEvent>)
    requires cfg.maxReceives >= 1
    ensures approved <= undone
    ensures BagExecute(cfg, Start(0, true), approved).base.status == Approved
    ensures BagExecute(cfg, Start(0, true), undone).base.status == Parsed
    ensures BagExecute(cfg, Start(0, true), undone).base.handoffs == 2
  {
    hide BagStep, BagExecute;
    var start := Start(0, true);
    var es := OneAhead(cfg);
    var ps := [Place(Parse, Working), Place(Extract, Gate)];
    BagOne(cfg, start, es, Own(1, Guard));
    GuardLooks(cfg, BagExecute(cfg, start, es), 1, Parsed, [], 1, ps);
    es, ps := es + [Own(1, Guard)], ps[1 := Place(Extract, Working)];
    BagOne(cfg, start, es, Own(1, Route(true)));
    ApproveLooks(cfg, BagExecute(cfg, start, es), 1, Extracting, [], 1, ps);
    es, ps := es + [Own(1, Route(true))], ps[1 := Place(Extract, Returning)];
    approved := es;
    BagOne(cfg, start, es, Own(0, ParsedText));
    ParsedLooks(cfg, BagExecute(cfg, start, es), 0, Approved, [], 1, ps);
    es, ps := es + [Own(0, ParsedText)], ps[0 := Place(Parse, HandingOff)];
    BagOne(cfg, start, es, Own(0, HandOff));
    HandOffLooks(cfg, BagExecute(cfg, start, es), 0, Parsed, [], 1, ps);
    undone := es + [Own(0, HandOff)];
  }
}
