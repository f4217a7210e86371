/**
  The at-least-once document pipeline, for one document: its row, its messages
  in the queue and the dead-letter queue, the handler run working on it, and
  every sweeper that has seen it.

  Each transaction, send, receive and delete is one `Event`, so a crash between
  two of them is simply a `Crash` in between.  One slot holds the handler run:
  two runs on one document do not overlap, which is what the visibility
  timeouts are for (packages/core/docfactory_core/queues.py).  Saturation of the
  tenant, the state of the provider, the budget and the model's answer are
  choices of the event sequence.
 */
module Pipeline {
  import opened Common

  datatype Status =
    | Received | Parsing | Parsed | Extracting | Extracted
    | NeedsOcr | Approved | NeedsReview | BudgetExceeded | Failed

  datatype Stage = Parse | Extract

  /** Statuses neither the reaper nor a failure note may touch. */
  predicate Terminal(status: Status)
  {
    status.Approved? || status.NeedsReview? || status.NeedsOcr? || status.Failed? || status.Extracted?
  }

  /** Where a stranded document goes back to. */
  function RequeueStage(status: Status): Option<Stage>
  {
    match status
    case Received => Some(Parse)
    case Parsing => Some(Parse)
    case Parsed => Some(Extract)
    case Extracting => Some(Extract)
    case BudgetExceeded => Some(Extract)
    case _ => None
  }

  /** The status guard that opens each handler. */
  predicate Accepts(stage: Stage, status: Status)
  {
    match stage
    case Parse => status.Received? || status.Parsing?
    case Extract => status.Parsed? || status.Extracting? || status.BudgetExceeded?
  }

  function InProgress(stage: Stage): Status
  {
    match stage
    case Parse => Parsing
    case Extract => Extracting
  }

  /** How far along a status is; pausing on budget and resuming stay level. */
  function Rank(status: Status): nat
  {
    match status
    case Received => 0
    case Parsing => 1
    case Parsed => 2
    case Extracting => 3
    case BudgetExceeded => 3
    case _ => 4
  }

  datatype Config = Config(maxReceives: nat, maxDefers: nat, maxRedrives: nat, staleAfter: nat, giveUpAfter: nat)

  /** A message with the counters its payload carries and the queue's receive count. */
  datatype Message = Message(stage: Stage, defers: nat, redrives: nat, receives: nat)

  function Fresh(stage: Stage): Message
  {
    Message(stage, 0, 0, 0)
  }

  datatype Phase =
    | Gate           // delivered; the status guard has not run yet
    | Working        // past the guard: the in-progress status is committed
    | HandingOff     // PARSED is committed, the extract message is not sent yet
    | StoredInvalid  // the raw extraction row is committed, FAILED is not yet
    | Reviewing      // NEEDS_REVIEW is committed, the review task is not yet
    | Returning      // the handler is done; the message is about to be deleted

  /** A handler run; `overtaken` once the reaper gave the document up underneath it. */
  datatype Run = Run(msg: Message, phase: Phase, overtaken: bool)

  /** What one sweep read about the document, and the staleness bound it used. */
  datatype Scan = Scan(status: Status, cutoff: int)

  datatype System = System(
    status: Status, reapCount: nat, updatedAt: int, hasText: bool,
    clock: int, queue: seq<Message>, dead: seq<Message>, run: Option<Run>, scans: seq<Scan>,
    // history
    handoffs: nat, routed: nat, tasks: nat, claims: seq<int>, rescues: nat, polls: nat, deliveries: nat)

  datatype Event =
    | Tick(to: int)
    // the queue service
    | Deliver(i: nat) | DeadLetter(i: nat) | Redrive(i: nat, deleted: bool)
    // the handler run
    | Defer(touched: bool) | DeferDown(touched: bool) | Guard
    | Fail(noted: bool) | Raise(noted: bool) | Crash | Ack
    | Empty | ParsedText | HandOff
    | Pause | StoreInvalid | MarkInvalid(noted: bool) | Route(approved: bool) | Review
    // the sweepers
    | Sweep | Poll(k: nat) | Claim(k: nat, sent: bool) | Skip(k: nat)

  /** A committed row in RECEIVED, with its first message or with the send lost. */
  function Ingested(now: int, sent: bool): System
  {
    System(Received, 0, now, false, now, if sent then [Fresh(Parse)] else [], [], None, [], 0, 0, 0, [], 0, 0, 0)
  }

  function Remove<T>(s: seq<T>, i: nat): seq<T>
    requires i < |s|
  {
    s[..i] + s[i + 1..]
  }

  // --- the writes --------------------------------------------------------------

  function SetStatus(s: System, status: Status): System
  {
    s.(status := status, updatedAt := s.clock)
  }

  /** An update of a live row that leaves its status alone: terminal rows are skipped. */
  function Touch(s: System): System
  {
    if Terminal(s.status) then s else s.(updatedAt := s.clock)
  }

  function Advance(s: System, phase: Phase): System
    requires s.run.Some?
  {
    s.(run := Some(s.run.value.(phase := phase)))
  }

  /** The run is over without an acknowledgement: its message is visible again. */
  function GiveBack(s: System): System
    requires s.run.Some?
  {
    s.(queue := s.queue + [s.run.value.msg], run := None)
  }

  predicate At(s: System, phase: Phase)
  {
    s.run.Some? && s.run.value.phase == phase
  }

  predicate AtStage(s: System, phase: Phase, stage: Stage)
  {
    At(s, phase) && s.run.value.msg.stage == stage
  }

  // --- the steps ---------------------------------------------------------------

  function TransportStep(cfg: Config, s: System, e: Event): System
  {
    match e
    case Tick(to) => s.(clock := Max(s.clock, to))
    case Deliver(i) =>
      if i < |s.queue| && s.run.None? && s.queue[i].receives < cfg.maxReceives then
        var msg := s.queue[i].(receives := s.queue[i].receives + 1);
        s.(queue := Remove(s.queue, i), run := Some(Run(msg, Gate, false)), deliveries := s.deliveries + 1)
      else s
    case DeadLetter(i) =>
      if i < |s.queue| && s.queue[i].receives >= cfg.maxReceives then
        s.(queue := Remove(s.queue, i), dead := s.dead + [s.queue[i]])
      else s
    case Redrive(i, deleted) =>
      if i < |s.dead| && s.dead[i].redrives < cfg.maxRedrives then
        var copy := s.dead[i].(redrives := s.dead[i].redrives + 1, receives := 0);
        s.(queue := s.queue + [copy], dead := if deleted then Remove(s.dead, i) else s.dead)
      else s
    case _ => s
  }

  /** Before the guard and at it. */
  function GateStep(cfg: Config, s: System, e: Event): System
  {
    match e
    case Defer(touched) =>
      if At(s, Gate) && s.run.value.msg.defers < cfg.maxDefers then
        var copy := s.run.value.msg.(defers := s.run.value.msg.defers + 1, receives := 0);
        var sent := Advance(s.(queue := s.queue + [copy]), Returning);
        if touched then Touch(sent) else sent
      else s
    case DeferDown(touched) =>
      if AtStage(s, Gate, Extract) then
        var sent := Advance(s.(queue := s.queue + [s.run.value.msg.(receives := 0)]), Returning);
        if touched then Touch(sent) else sent
      else s
    case Guard =>
      if !At(s, Gate) then s
      else if !Accepts(s.run.value.msg.stage, s.status) then Advance(s, Returning)
      // an unchanged status emits no UPDATE, so updated_at stays as it was
      else if s.status == InProgress(s.run.value.msg.stage) then Advance(s, Working)
      else Advance(SetStatus(s, InProgress(s.run.value.msg.stage)), Working)
    case _ => s
  }

  /** How a run ends. */
  function EndStep(cfg: Config, s: System, e: Event): System
  {
    match e
    case Fail(noted) =>
      if !At(s, Working) then s
      else if !noted then GiveBack(s)
      else if s.run.value.msg.receives >= cfg.maxReceives then GiveBack(SetStatus(s, Failed))
      else GiveBack(s.(updatedAt := s.clock))
    case Raise(noted) =>
      if s.run.None? || At(s, Returning) then s else GiveBack(if noted then Touch(s) else s)
    case Crash => if s.run.None? then s else GiveBack(s)
    case Ack => if At(s, Returning) then s.(run := None) else s
    case _ => s
  }

  /** What a run commits and sends past its guard. */
  function CommitStep(s: System, e: Event): System
  {
    match e
    case Empty => if AtStage(s, Working, Parse) then Advance(SetStatus(s, NeedsOcr), Returning) else s
    case ParsedText =>
      if AtStage(s, Working, Parse) then Advance(SetStatus(s, Parsed).(hasText := true), HandingOff) else s
    case HandOff =>
      if At(s, HandingOff) then
        Advance(s.(queue := s.queue + [Fresh(Extract)], handoffs := s.handoffs + 1), Returning)
      else s
    case Pause => if AtStage(s, Working, Extract) then Advance(SetStatus(s, BudgetExceeded), Returning) else s
    case StoreInvalid => if AtStage(s, Working, Extract) then Advance(s, StoredInvalid) else s
    case MarkInvalid(noted) =>
      if At(s, StoredInvalid) then Advance(if noted then SetStatus(s, Failed) else s, Returning) else s
    case Route(approved) =>
      if AtStage(s, Working, Extract) then
        var stored := SetStatus(s, if approved then Approved else NeedsReview).(routed := s.routed + 1);
        Advance(stored, if approved then Returning else Reviewing)
      else s
    case Review => if At(s, Reviewing) then Advance(s.(tasks := s.tasks + 1), Returning) else s
    case _ => s
  }

  function HandlerStep(cfg: Config, s: System, e: Event): System
  {
    match e
    case Defer(_) => GateStep(cfg, s, e)
    case DeferDown(_) => GateStep(cfg, s, e)
    case Guard => GateStep(cfg, s, e)
    case Fail(_) => EndStep(cfg, s, e)
    case Raise(_) => EndStep(cfg, s, e)
    case Crash => EndStep(cfg, s, e)
    case Ack => EndStep(cfg, s, e)
    case _ => CommitStep(s, e)
  }

  /** Mark the run the give-up overtook, if it is between its two status writes. */
  function Overtake(s: System): System
  {
    if At(s, Working) || At(s, StoredInvalid) then s.(run := Some(s.run.value.(overtaken := true))) else s
  }

  /** The claim's WHERE clause, re-checked against the row as it is now. */
  predicate Claimable(s: System, scan: Scan)
  {
    s.updatedAt < scan.cutoff && !Terminal(s.status)
  }

  function HealerStep(cfg: Config, s: System, e: Event): System
  {
    match e
    case Sweep =>
      var cutoff := s.clock - cfg.staleAfter;
      if !Terminal(s.status) && s.updatedAt < cutoff then s.(scans := s.scans + [Scan(s.status, cutoff)]) else s
    case Poll(k) =>
      // a sweeper that does not count, or any sweeper on a budget-paused document
      if k < |s.scans| && RequeueStage(s.scans[k].status).Some? then
        s.(queue := s.queue + [Fresh(RequeueStage(s.scans[k].status).value)],
           scans := Remove(s.scans, k), polls := s.polls + 1)
      else s
    case Claim(k, sent) =>
      if k < |s.scans| && !s.scans[k].status.BudgetExceeded? && RequeueStage(s.scans[k].status).Some? then
        var rest := s.(scans := Remove(s.scans, k));
        if !Claimable(s, s.scans[k]) then rest
        else
          var claimed := rest.(reapCount := s.reapCount + 1, updatedAt := s.clock, claims := s.claims + [s.clock]);
          if claimed.reapCount > cfg.giveUpAfter then Overtake(SetStatus(claimed, Failed))
          else if sent then
            claimed.(queue := s.queue + [Fresh(RequeueStage(s.scans[k].status).value)], rescues := s.rescues + 1)
          else rest  // the failed send rolls the claim back
      else s
    case Skip(k) => if k < |s.scans| then s.(scans := Remove(s.scans, k)) else s
    case _ => s
  }

  function Step(cfg: Config, s: System, e: Event): System
  {
    match e
    case Tick(_) => TransportStep(cfg, s, e)
    case Deliver(_) => TransportStep(cfg, s, e)
    case DeadLetter(_) => TransportStep(cfg, s, e)
    case Redrive(_, _) => TransportStep(cfg, s, e)
    case Sweep => HealerStep(cfg, s, e)
    case Poll(_) => HealerStep(cfg, s, e)
    case Claim(_, _) => HealerStep(cfg, s, e)
    case Skip(_) => HealerStep(cfg, s, e)
    case _ => HandlerStep(cfg, s, e)
  }

  function Execute(cfg: Config, s: System, es: seq<Event>): System
  {
    if es == [] then s else Step(cfg, Execute(cfg, s, es[..|es| - 1]), es[|es| - 1])
  }

  // --- what every step keeps -----------------------------------------------------

  predicate Routed(status: Status)
  {
    status.Approved? || status.NeedsReview?
  }

  ghost predicate RowSound(s: System)
  {
    && !s.status.Extracted?
    && s.updatedAt <= s.clock
    && (s.hasText ==> !s.status.Received? && !s.status.Parsing?)
    && (Accepts(Extract, s.status) || Routed(s.status) ==> s.hasText)
    && s.routed == (if Routed(s.status) then 1 else 0)
    && s.tasks <= s.routed
    && s.handoffs <= 1 && (s.handoffs == 1 ==> s.hasText)
  }

  ghost predicate RunSound(s: System)
  {
    s.run.Some? ==>
      var r := s.run.value;
      && (r.phase.Gate? ==> !r.overtaken)
      && (r.phase.Working? || r.phase.StoredInvalid? ==>
            s.status == (if r.overtaken then Failed else InProgress(r.msg.stage)))
      && (r.phase.Working? && r.msg.stage == Parse ==> !s.hasText)
      && (r.phase.Working? && r.msg.stage == Extract ==> s.hasText)
      && (r.phase.StoredInvalid? ==> r.msg.stage == Extract && s.hasText)
      && (r.phase.HandingOff? ==> r.msg.stage == Parse && s.hasText && s.handoffs == 0)
      && (r.phase.Reviewing? ==> s.status.NeedsReview? && s.tasks == 0)
  }

  ghost predicate SweepsSound(cfg: Config, s: System)
  {
    && (forall k :: 0 <= k < |s.scans| ==>
          && !Terminal(s.scans[k].status)
          && s.scans[k].cutoff <= s.clock - cfg.staleAfter
          && (s.updatedAt < s.scans[k].cutoff ==> s.status == s.scans[k].status))
    && s.reapCount == |s.claims|
    && s.rescues <= Min(s.reapCount, cfg.giveUpAfter)
    && (forall i :: 0 <= i < |s.claims| ==> s.claims[i] <= s.updatedAt)
    && (forall i, j :: 0 <= i < j < |s.claims| ==> s.claims[j] - s.claims[i] > cfg.staleAfter)
  }

  ghost predicate Sound(cfg: Config, s: System)
  {
    RowSound(s) && RunSound(s) && SweepsSound(cfg, s)
  }

  lemma TransportKeepsSound(cfg: Config, s: System, e: Event)
    requires Sound(cfg, s)
    ensures Sound(cfg, TransportStep(cfg, s, e))
  {
  }

  lemma GateKeepsSound(cfg: Config, s: System, e: Event)
    requires RowSound(s) && RunSound(s)
    ensures RowSound(GateStep(cfg, s, e)) && RunSound(GateStep(cfg, s, e))
  {
  }

  lemma EndKeepsSound(cfg: Config, s: System, e: Event)
    requires RowSound(s) && RunSound(s)
    ensures RowSound(EndStep(cfg, s, e)) && RunSound(EndStep(cfg, s, e))
  {
  }

  lemma CommitKeepsRow(s: System, e: Event)
    requires RowSound(s) && RunSound(s)
    ensures RowSound(CommitStep(s, e))
  {
  }

  lemma CommitKeepsRun(s: System, e: Event)
    requires RowSound(s) && RunSound(s)
    ensures RunSound(CommitStep(s, e))
  {
  }

  /** A handler's step leaves the sweepers alone, and stamps the row when it changes its status. */
  ghost predicate WritesOnClock(s: System, after: System)
  {
    && (after.clock, after.scans, after.claims, after.reapCount, after.rescues)
         == (s.clock, s.scans, s.claims, s.reapCount, s.rescues)
    && (after.updatedAt == s.clock || (after.updatedAt == s.updatedAt && after.status == s.status))
  }

  lemma HandlerWritesOnClock(cfg: Config, s: System, e: Event)
    ensures WritesOnClock(s, HandlerStep(cfg, s, e))
  {
    GateWritesOnClock(cfg, s, e);
    CommitWritesOnClock(s, e);
    hide GateStep, CommitStep;
  }

  lemma GateWritesOnClock(cfg: Config, s: System, e: Event)
    ensures WritesOnClock(s, GateStep(cfg, s, e))
  {
  }

  lemma CommitWritesOnClock(s: System, e: Event)
    ensures WritesOnClock(s, CommitStep(s, e))
  {
  }

  lemma WritesKeepSweeps(cfg: Config, s: System, after: System)
    requires SweepsSound(cfg, s) && s.updatedAt <= s.clock && WritesOnClock(s, after)
    ensures SweepsSound(cfg, after)
  {
  }

  lemma HandlerKeepsSound(cfg: Config, s: System, e: Event)
    requires Sound(cfg, s)
    ensures Sound(cfg, HandlerStep(cfg, s, e))
  {
    assert s.updatedAt <= s.clock;
    hide GateStep, EndStep, CommitStep, RowSound, RunSound, SweepsSound, WritesOnClock;
    HandlerWritesOnClock(cfg, s, e);
    GateKeepsSound(cfg, s, e);
    EndKeepsSound(cfg, s, e);
    CommitKeepsRow(s, e);
    CommitKeepsRun(s, e);
    WritesKeepSweeps(cfg, s, HandlerStep(cfg, s, e));
  }

  lemma HealerKeepsRow(cfg: Config, s: System, e: Event)
    requires RowSound(s) && RunSound(s)
    ensures RowSound(HealerStep(cfg, s, e)) && RunSound(HealerStep(cfg, s, e))
  {
  }

  lemma SweepKeepsSweeps(cfg: Config, s: System)
    requires SweepsSound(cfg, s) && s.updatedAt <= s.clock
    ensures SweepsSound(cfg, HealerStep(cfg, s, Sweep))
  {
  }

  lemma RemovedIn<T>(xs: seq<T>, i: nat, k: nat)
    requires i < |xs| && k < |xs| - 1
    ensures Remove(xs, i)[k] == xs[if k < i then k else k + 1]
  {
  }

  lemma FewerScansKeepSweeps(cfg: Config, s: System, k: nat)
    requires SweepsSound(cfg, s) && k < |s.scans|
    ensures SweepsSound(cfg, s.(scans := Remove(s.scans, k)))
  {
    forall j | 0 <= j < |s.scans| - 1 ensures Remove(s.scans, k)[j] in s.scans {
      RemovedIn(s.scans, k, j);
    }
  }

  lemma ClaimKeepsSweeps(cfg: Config, s: System, k: nat, sent: bool)
    requires SweepsSound(cfg, s) && s.updatedAt <= s.clock && k < |s.scans|
    ensures SweepsSound(cfg, HealerStep(cfg, s, Claim(k, sent)))
  {
    FewerScansKeepSweeps(cfg, s, k);
  }

  lemma HealerKeepsSweeps(cfg: Config, s: System, e: Event)
    requires SweepsSound(cfg, s) && s.updatedAt <= s.clock
    ensures SweepsSound(cfg, HealerStep(cfg, s, e))
  {
    match e
    case Sweep => SweepKeepsSweeps(cfg, s);
    case Poll(k) => if k < |s.scans| { FewerScansKeepSweeps(cfg, s, k); }
    case Claim(k, sent) => if k < |s.scans| { ClaimKeepsSweeps(cfg, s, k, sent); }
    case Skip(k) => if k < |s.scans| { FewerScansKeepSweeps(cfg, s, k); }
    case _ =>
  }

  lemma StepKeepsSound(cfg: Config, s: System, e: Event)
    requires Sound(cfg, s)
    ensures Sound(cfg, Step(cfg, s, e))
  {
    assert s.updatedAt <= s.clock;
    hide TransportStep, HandlerStep, HealerStep, SweepsSound, RowSound, RunSound;
    TransportKeepsSound(cfg, s, e);
    HandlerKeepsSound(cfg, s, e);
    HealerKeepsRow(cfg, s, e);
    HealerKeepsSweeps(cfg, s, e);
  }

  lemma {:induction false} ExecutionIsSound(cfg: Config, now: int, sent: bool, es: seq<Event>)
    ensures Sound(cfg, Execute(cfg, Ingested(now, sent), es))
  {
    if es == [] {
    } else {
      hide Step, Sound;
      ExecutionIsSound(cfg, now, sent, es[..|es| - 1]);
      StepKeepsSound(cfg, Execute(cfg, Ingested(now, sent), es[..|es| - 1]), es[|es| - 1]);
    }
  }

  /**
    Idempotent stages: in every reachable state at most one parse-to-extract
    hand-off was sent, and a routed extraction row exists exactly when the
    status is a routed one: the two are committed together, once.
   */
  lemma {:induction false} StagesHappenOnce(cfg: Config, now: int, sent: bool, es: seq<Event>)
    ensures var s := Execute(cfg, Ingested(now, sent), es);
      && s.handoffs <= 1
      && s.routed == (if Routed(s.status) then 1 else 0)
      && (Accepts(Extract, s.status) ==> s.hasText)
  {
    ExecutionIsSound(cfg, now, sent, es);
  }

  // --- progress never goes backwards, and where it can -----------------------------

  /** The unguarded second status write of a run the reaper has already given up on. */
  predicate OvertakenWrite(s: System, e: Event)
  {
    && At(s, Working) && s.run.value.overtaken
    && match s.run.value.msg.stage
       case Parse => e.Empty? || e.ParsedText?
       case Extract => e.Pause? || e.Route?
  }

  lemma GateProgress(cfg: Config, s: System, e: Event)
    ensures Terminal(s.status) ==> GateStep(cfg, s, e).status == s.status
    ensures Rank(GateStep(cfg, s, e).status) >= Rank(s.status)
  {
  }

  lemma EndProgress(cfg: Config, s: System, e: Event)
    requires RunSound(s)
    ensures Terminal(s.status) ==> EndStep(cfg, s, e).status == s.status
    ensures Rank(EndStep(cfg, s, e).status) >= Rank(s.status)
  {
  }

  lemma CommitProgress(s: System, e: Event)
    requires RunSound(s)
    ensures Terminal(s.status) ==> (CommitStep(s, e).status != s.status <==> OvertakenWrite(s, e))
    ensures !OvertakenWrite(s, e) ==> Rank(CommitStep(s, e).status) >= Rank(s.status)
  {
  }

  lemma HandlerProgress(cfg: Config, s: System, e: Event)
    requires RunSound(s)
    ensures Terminal(s.status) ==> (HandlerStep(cfg, s, e).status != s.status <==> OvertakenWrite(s, e))
    ensures !OvertakenWrite(s, e) ==> Rank(HandlerStep(cfg, s, e).status) >= Rank(s.status)
  {
    hide GateStep, EndStep, CommitStep, Rank, Terminal, RunSound;
    GateProgress(cfg, s, e);
    EndProgress(cfg, s, e);
    CommitProgress(s, e);
  }

  lemma SweepProgress(cfg: Config, s: System, e: Event)
    ensures Terminal(s.status) ==> HealerStep(cfg, s, e).status == s.status
    ensures Rank(HealerStep(cfg, s, e).status) >= Rank(s.status)
    ensures TransportStep(cfg, s, e).status == s.status
  {
  }

  /** A terminal status is left exactly by such a write; every other step keeps the rank. */
  lemma TerminalLeftIffOvertaken(cfg: Config, s: System, e: Event)
    requires Sound(cfg, s)
    ensures Terminal(s.status) ==> (Step(cfg, s, e).status != s.status <==> OvertakenWrite(s, e))
    ensures !OvertakenWrite(s, e) ==> Rank(Step(cfg, s, e).status) >= Rank(s.status)
  {
    hide TransportStep, HandlerStep, HealerStep, SweepsSound, RowSound, RunSound, Rank, Terminal;
    HandlerProgress(cfg, s, e);
    SweepProgress(cfg, s, e);
  }

  /** This claim gives the document up while a run is between its two status writes. */
  predicate GivesUpUnderRun(cfg: Config, s: System, e: Event)
  {
    && e.Claim? && (At(s, Working) || At(s, StoredInvalid))
    && e.k < |s.scans| && !s.scans[e.k].status.BudgetExceeded? && Claimable(s, s.scans[e.k])
    && s.reapCount >= cfg.giveUpAfter
  }

  ghost predicate NoGiveUpUnderRun(cfg: Config, s: System, es: seq<Event>)
  {
    forall i :: 0 <= i < |es| ==> !GivesUpUnderRun(cfg, Execute(cfg, s, es[..i]), es[i])
  }

  predicate Overtaken(s: System)
  {
    s.run.Some? && s.run.value.overtaken
  }

  lemma HealerOvertakes(cfg: Config, s: System, e: Event)
    requires SweepsSound(cfg, s) && !Overtaken(s)
    ensures Overtaken(HealerStep(cfg, s, e)) <==> GivesUpUnderRun(cfg, s, e)
  {
  }

  lemma HandlerDoesNotOvertake(cfg: Config, s: System, e: Event)
    requires !Overtaken(s)
    ensures !Overtaken(GateStep(cfg, s, e)) && !Overtaken(EndStep(cfg, s, e)) && !Overtaken(CommitStep(s, e))
  {
    GateDoesNotOvertake(cfg, s, e);
    CommitDoesNotOvertake(s, e);
    hide GateStep, CommitStep;
  }

  lemma GateDoesNotOvertake(cfg: Config, s: System, e: Event)
    requires !Overtaken(s)
    ensures !Overtaken(GateStep(cfg, s, e))
  {
  }

  lemma CommitDoesNotOvertake(s: System, e: Event)
    requires !Overtaken(s)
    ensures !Overtaken(CommitStep(s, e))
  {
  }

  lemma TransportDoesNotOvertake(cfg: Config, s: System, e: Event)
    requires !Overtaken(s)
    ensures !Overtaken(TransportStep(cfg, s, e))
  {
  }

  lemma StepOvertakes(cfg: Config, s: System, e: Event)
    requires Sound(cfg, s) && !Overtaken(s)
    ensures Overtaken(Step(cfg, s, e)) <==> GivesUpUnderRun(cfg, s, e)
  {
    hide HealerStep, GateStep, EndStep, CommitStep, TransportStep, Overtaken, RowSound, RunSound, SweepsSound;
    HealerOvertakes(cfg, s, e);
    HandlerDoesNotOvertake(cfg, s, e);
    TransportDoesNotOvertake(cfg, s, e);
  }

  lemma {:induction false} NeverOvertaken(cfg: Config, now: int, sent: bool, es: seq<Event>)
    requires NoGiveUpUnderRun(cfg, Ingested(now, sent), es)
    ensures !Overtaken(Execute(cfg, Ingested(now, sent), es))
  {
    hide Step, GivesUpUnderRun, Sound;
    if es == [] {
    } else {
      var n := |es| - 1;
      assert forall i :: 0 <= i < n ==> es[..n][..i] == es[..i];
      NeverOvertaken(cfg, now, sent, es[..n]);
      ExecutionIsSound(cfg, now, sent, es[..n]);
      StepOvertakes(cfg, Execute(cfg, Ingested(now, sent), es[..n]), es[n]);
    }
  }

  /** Over a whole execution: the rank only rises and a terminal status stays for good. */
  lemma {:induction false} ProgressIsMonotone(cfg: Config, now: int, sent: bool, es: seq<Event>, i: nat)
    requires i <= |es| && NoGiveUpUnderRun(cfg, Ingested(now, sent), es)
    ensures var early, late := Execute(cfg, Ingested(now, sent), es[..i]), Execute(cfg, Ingested(now, sent), es);
      && Rank(early.status) <= Rank(late.status)
      && (Terminal(early.status) ==> late.status == early.status)
  {
    hide Step, GivesUpUnderRun, Sound, OvertakenWrite, Rank, Terminal;
    var n := |es| - 1;
    if i == |es| {
      assert es[..i] == es;
    } else {
      assert es[..n][..i] == es[..i];
      assert forall k :: 0 <= k < n ==> es[..n][..k] == es[..k];
      ProgressIsMonotone(cfg, now, sent, es[..n], i);
      NeverOvertaken(cfg, now, sent, es[..n]);
      ExecutionIsSound(cfg, now, sent, es[..n]);
      StepKeepsProgress(cfg, Execute(cfg, Ingested(now, sent), es[..n]), es[n]);
    }
  }

  lemma StepKeepsProgress(cfg: Config, s: System, e: Event)
    requires Sound(cfg, s) && !Overtaken(s)
    ensures Rank(s.status) <= Rank(Step(cfg, s, e).status)
    ensures Terminal(s.status) ==> Step(cfg, s, e).status == s.status
  {
    hide Step, Sound, Rank, Terminal;
    TerminalLeftIffOvertaken(cfg, s, e);
  }

  lemma {:induction false} ExecuteOne(cfg: Config, s: System, es: seq<Event>, e: Event)
    ensures Execute(cfg, s, es + [e]) == Step(cfg, Execute(cfg, s, es), e)
  {
    hide Step;
    assert (es + [e])[..|es|] == es;
  }

  lemma {:induction false} ExecuteFour(cfg: Config, s: System, es: seq<Event>, a: Event, b: Event, c: Event, d: Event)
    ensures Execute(cfg, s, es + [a, b, c]) == Step(cfg, Step(cfg, Step(cfg, Execute(cfg, s, es), a), b), c)
    ensures Execute(cfg, s, es + [a, b, c, d]) == Step(cfg, Execute(cfg, s, es + [a, b, c]), d)
  {
    hide Step;
    ExecuteOne(cfg, s, es, a);
    ExecuteOne(cfg, s, es + [a], b);
    ExecuteOne(cfg, s, es + [a] + [b], c);
    ExecuteOne(cfg, s, es + [a] + [b] + [c], d);
    assert es + [a] + [b] + [c] == es + [a, b, c];
    assert es + [a] + [b] + [c] + [d] == es + [a, b, c, d];
  }

  /** At the stage's own status, no run, and a message that was received once waits in the queue. */
  ghost predicate Waiting(s: System, stage: Stage, rescues: nat)
  {
    && s.status == InProgress(stage) && s.run == None && s.scans == [] && s.reapCount == rescues
    && |s.queue| > 0 && s.queue[0] == Message(stage, 0, 0, 1) && s.updatedAt <= s.clock
  }

  /** Accepted by the handler of the only message in the queue, never swept, no run. */
  ghost predicate Starting(s: System, stage: Stage)
  {
    && s.status == (if stage == Parse then Received else Parsed)
    && s.queue == [Fresh(stage)] && s.run == None && s.scans == [] && s.reapCount == 0 && s.tasks == 0
    && s.updatedAt <= s.clock
  }

  lemma ParseRun(cfg: Config, s: System)
    requires cfg.maxReceives >= 1 && Starting(s, Parse)
    ensures Starting(Step(cfg, Step(cfg, Step(cfg, Step(cfg, Step(cfg, s, Deliver(0)), Guard), ParsedText), HandOff), Ack), Extract)
  {
    hide Step, Starting, At;
    var committed := Step(cfg, Step(cfg, Step(cfg, s, Deliver(0)), Guard), ParsedText);
    ParsedRun(cfg, s);
    HandOffRun(cfg, committed);
  }

  lemma ParsedRun(cfg: Config, s: System)
    requires cfg.maxReceives >= 1 && Starting(s, Parse)
    ensures var t := Step(cfg, Step(cfg, Step(cfg, s, Deliver(0)), Guard), ParsedText);
      && At(t, HandingOff) && t.status == Parsed && t.queue == [] && t.scans == [] && t.reapCount == 0 && t.tasks == 0
      && t.updatedAt <= t.clock
  {
  }

  lemma HandOffRun(cfg: Config, t: System)
    requires At(t, HandingOff) && t.status == Parsed && t.queue == [] && t.scans == [] && t.reapCount == 0 && t.tasks == 0
    requires t.updatedAt <= t.clock
    ensures Starting(Step(cfg, Step(cfg, t, HandOff), Ack), Extract)
  {
  }

  lemma ReachesStart(cfg: Config, stage: Stage) returns (es: seq<Event>)
    requires cfg.maxReceives >= 1
    ensures Starting(Execute(cfg, Ingested(0, true), es), stage)
  {
    var start := Ingested(0, true);
    es := [];
    assert Starting(start, Parse) && Execute(cfg, start, []) == start;
    if stage == Extract {
      ParseRun(cfg, start);
      hide Step, Starting;
      ExecuteFour(cfg, start, [], Deliver(0), Guard, ParsedText, HandOff);
      ExecuteOne(cfg, start, [] + [Deliver(0), Guard, ParsedText, HandOff], Ack);
      es := [] + [Deliver(0), Guard, ParsedText, HandOff] + [Ack];
    }
  }

  lemma DeliveredThenCrashes(cfg: Config, s: System, stage: Stage)
    requires cfg.maxReceives >= 2 && Starting(s, stage)
    ensures Waiting(Step(cfg, Step(cfg, Step(cfg, s, Deliver(0)), Guard), Crash), stage, 0)
  {
  }

  lemma FirstDeliveryCrashes(cfg: Config, stage: Stage) returns (es: seq<Event>)
    requires cfg.maxReceives >= 2
    ensures Waiting(Execute(cfg, Ingested(0, true), es), stage, 0)
  {
    hide Step, Starting, Waiting;
    var before := ReachesStart(cfg, stage);
    DeliveredThenCrashes(cfg, Execute(cfg, Ingested(0, true), before), stage);
    ExecuteFour(cfg, Ingested(0, true), before, Deliver(0), Guard, Crash, Crash);
    es := before + [Deliver(0), Guard, Crash];
  }

  /** Just after the row went stale. */
  function Late(cfg: Config, s: System): Event
  {
    Tick(s.clock + cfg.staleAfter + 1)
  }

  lemma RescueKeepsWaiting(cfg: Config, s: System, stage: Stage, n: nat)
    requires Waiting(s, stage, n) && n < cfg.giveUpAfter
    ensures Waiting(Step(cfg, Step(cfg, Step(cfg, s, Late(cfg, s)), Sweep), Claim(0, true)), stage, n + 1)
  {
  }

  lemma Backlog(cfg: Config, stage: Stage, n: nat) returns (es: seq<Event>)
    requires cfg.maxReceives >= 2 && n <= cfg.giveUpAfter
    ensures Waiting(Execute(cfg, Ingested(0, true), es), stage, n)
  {
    if n == 0 {
      es := FirstDeliveryCrashes(cfg, stage);
    } else {
      var before := Backlog(cfg, stage, n - 1);
      var s := Execute(cfg, Ingested(0, true), before);
      RescueKeepsWaiting(cfg, s, stage, n - 1);
      ExecuteFour(cfg, Ingested(0, true), before, Late(cfg, s), Sweep, Claim(0, true), Sweep);
      es := before + [Late(cfg, s), Sweep, Claim(0, true)];
    }
  }

  /** Redelivered once stale: the guard writes nothing, and the sweep sees a stale row under the run. */
  lemma RedeliveredWhileStale(cfg: Config, s: System, stage: Stage, n: nat)
    requires Waiting(s, stage, n) && cfg.maxReceives >= 2
    ensures var t := Step(cfg, Step(cfg, Step(cfg, Step(cfg, s, Late(cfg, s)), Deliver(0)), Guard), Sweep);
      && AtStage(t, Working, stage) && t.reapCount == n
      && |t.scans| == 1 && t.scans[0].status == InProgress(stage) && Claimable(t, t.scans[0])
  {
  }

  /** An execution that is past its last rescue, with a run at work on a row that a sweep saw stale. */
  lemma AboutToGiveUp(cfg: Config, stage: Stage) returns (es: seq<Event>)
    requires cfg.maxReceives >= 2
    ensures var s := Execute(cfg, Ingested(0, true), es);
      && AtStage(s, Working, stage) && s.reapCount >= cfg.giveUpAfter
      && |s.scans| == 1 && s.scans[0].status == InProgress(stage) && Claimable(s, s.scans[0])
  {
    var start := Ingested(0, true);
    var waiting := Backlog(cfg, stage, cfg.giveUpAfter);
    var s := Execute(cfg, start, waiting);
    RedeliveredWhileStale(cfg, s, stage, cfg.giveUpAfter);
    ExecuteFour(cfg, start, waiting, Late(cfg, s), Deliver(0), Guard, Sweep);
    es := waiting + [Late(cfg, s), Deliver(0), Guard, Sweep];
  }

  lemma GivenUpThenCommitted(cfg: Config, s: System, stage: Stage)
    requires AtStage(s, Working, stage) && s.reapCount >= cfg.giveUpAfter
    requires |s.scans| == 1 && s.scans[0].status == InProgress(stage) && Claimable(s, s.scans[0])
    ensures var given := Step(cfg, s, Claim(0, true));
      && given.status == Failed
      && (stage == Parse ==> Step(cfg, given, ParsedText).status == Parsed)
      && (stage == Extract ==> Step(cfg, given, Route(true)).status == Approved)
  {
  }

  /**
    Without that premise the claim is false, in every configuration: a
    redelivery to a document already at its in-progress status refreshes
    nothing, so a sweep can mark it FAILED underneath the run, whose second
    write then makes it PARSED, or APPROVED, again.
   */
  lemma GiveUpCanBeOverwritten(cfg: Config, stage: Stage) returns (es: seq<Event>)
    requires cfg.maxReceives >= 2
    ensures |es| > 0
    ensures Execute(cfg, Ingested(0, true), es[..|es| - 1]).status == Failed
    ensures Execute(cfg, Ingested(0, true), es).status == if stage == Parse then Parsed else Approved
  {
    var start := Ingested(0, true);
    var running := AboutToGiveUp(cfg, stage);
    GivenUpThenCommitted(cfg, Execute(cfg, start, running), stage);
    var last := if stage == Parse then ParsedText else Route(true);
    ExecuteOne(cfg, start, running, Claim(0, true));
    ExecuteOne(cfg, start, running + [Claim(0, true)], last);
    es := running + [Claim(0, true)] + [last];
    assert es[..|es| - 1] == running + [Claim(0, true)];
  }

  // --- the review task ---------------------------------------------------------------

  /** The run ends between the routing commit and the task: by a crash, or by an exception from the task itself. */
  predicate Loses(s: System, e: Event)
  {
    At(s, Reviewing) && (e.Crash? || e.Raise?)
  }

  ghost predicate Lost(cfg: Config, s: System, es: seq<Event>)
  {
    exists i :: 0 <= i < |es| && Loses(Execute(cfg, s, es[..i]), es[i])
  }

  lemma {:induction false} LostOneMore(cfg: Config, s: System, es: seq<Event>)
    requires es != []
    ensures var n := |es| - 1;
      Lost(cfg, s, es) <==> Lost(cfg, s, es[..n]) || Loses(Execute(cfg, s, es[..n]), es[n])
  {
    var n := |es| - 1;
    hide Loses, Execute;
    assert forall i :: 0 <= i < n ==> es[..n][..i] == es[..i];
    if Lost(cfg, s, es[..n]) {
      var i :| 0 <= i < n && Loses(Execute(cfg, s, es[..n][..i]), es[..n][i]);
      assert Loses(Execute(cfg, s, es[..i]), es[i]);
    }
    if Lost(cfg, s, es) {
      var i :| 0 <= i < |es| && Loses(Execute(cfg, s, es[..i]), es[i]);
      assert i < n ==> Loses(Execute(cfg, s, es[..n][..i]), es[..n][i]);
    }
  }

  /** How the tasks stand, `lost` telling whether some run was lost before creating one. */
  ghost predicate TasksAccounted(s: System, lost: bool)
  {
    if s.status == NeedsReview && !At(s, Reviewing) then s.tasks == if lost then 0 else 1
    else s.tasks == 0 && !lost
  }

  lemma HandlerAccountsTasks(cfg: Config, s: System, e: Event, lost: bool)
    requires RowSound(s) && RunSound(s) && TasksAccounted(s, lost)
    ensures TasksAccounted(HandlerStep(cfg, s, e), lost || Loses(s, e))
  {
    GateAccountsTasks(cfg, s, e, lost);
    EndAccountsTasks(cfg, s, e, lost);
    CommitAccountsTasks(s, e, lost);
    hide GateStep, EndStep, CommitStep, RowSound, RunSound, TasksAccounted, At;
  }

  lemma GateAccountsTasks(cfg: Config, s: System, e: Event, lost: bool)
    requires TasksAccounted(s, lost)
    ensures TasksAccounted(GateStep(cfg, s, e), lost)
  {
  }

  lemma EndAccountsTasks(cfg: Config, s: System, e: Event, lost: bool)
    requires RunSound(s) && TasksAccounted(s, lost)
    ensures TasksAccounted(EndStep(cfg, s, e), lost || Loses(s, e))
  {
  }

  lemma CommitAccountsTasks(s: System, e: Event, lost: bool)
    requires RowSound(s) && RunSound(s) && TasksAccounted(s, lost)
    ensures TasksAccounted(CommitStep(s, e), lost)
  {
  }

  lemma OthersAccountTasks(cfg: Config, s: System, e: Event, lost: bool)
    requires TasksAccounted(s, lost)
    ensures TasksAccounted(HealerStep(cfg, s, e), lost) && TasksAccounted(TransportStep(cfg, s, e), lost)
  {
  }

  lemma StepAccountsTasks(cfg: Config, s: System, e: Event, lost: bool)
    requires Sound(cfg, s) && TasksAccounted(s, lost)
    ensures TasksAccounted(Step(cfg, s, e), lost || Loses(s, e))
  {
    hide TransportStep, HandlerStep, HealerStep, RowSound, RunSound, SweepsSound, TasksAccounted, At;
    HandlerAccountsTasks(cfg, s, e, lost);
    OthersAccountTasks(cfg, s, e, lost);
  }

  lemma {:induction false} ExecutionAccountsTasks(cfg: Config, now: int, sent: bool, es: seq<Event>)
    ensures TasksAccounted(Execute(cfg, Ingested(now, sent), es), Lost(cfg, Ingested(now, sent), es))
  {
    if es == [] {
    } else {
      var start, n := Ingested(now, sent), |es| - 1;
      hide Step, Sound, TasksAccounted, Loses, Lost;
      ExecutionAccountsTasks(cfg, now, sent, es[..n]);
      ExecutionIsSound(cfg, now, sent, es[..n]);
      StepAccountsTasks(cfg, Execute(cfg, start, es[..n]), es[n], Lost(cfg, start, es[..n]));
      LostOneMore(cfg, start, es);
    }
  }

  /**
    Exactly when a document in review has its task: over every execution, if
    and only if no run was lost between the routing commit and the task.
   */
  lemma {:induction false} TaskIffNotLost(cfg: Config, now: int, sent: bool, es: seq<Event>)
    ensures var s := Execute(cfg, Ingested(now, sent), es);
      && s.tasks <= 1
      && (s.status == NeedsReview && !At(s, Reviewing) ==>
            (s.tasks == 1 <==> !Lost(cfg, Ingested(now, sent), es)))
  {
    hide Execute, Lost;
    ExecutionAccountsTasks(cfg, now, sent, es);
  }

  ghost predicate TaskLost(cfg: Config, s: System)
  {
    Sound(cfg, s) && s.status == NeedsReview && !At(s, Reviewing) && s.tasks == 0
  }

  lemma StepKeepsTaskLost(cfg: Config, s: System, e: Event)
    requires TaskLost(cfg, s)
    ensures TaskLost(cfg, Step(cfg, s, e))
  {
    StepKeepsStatus(cfg, s, e);
    hide Step, RowSound, RunSound, SweepsSound;
    StepKeepsSound(cfg, s, e);
    StepAccountsTasks(cfg, s, e, true);
  }

  lemma StepKeepsStatus(cfg: Config, s: System, e: Event)
    requires Sound(cfg, s) && s.status == NeedsReview && !At(s, Reviewing)
    ensures Step(cfg, s, e).status == NeedsReview && !At(Step(cfg, s, e), Reviewing)
  {
    hide TransportStep, HandlerStep, HealerStep, SweepsSound, RowSound, RunSound;
    HandlerKeepsReview(cfg, s, e);
    OthersKeepReview(cfg, s, e);
  }

  lemma HandlerKeepsReview(cfg: Config, s: System, e: Event)
    requires RunSound(s) && s.status == NeedsReview && !At(s, Reviewing)
    ensures var after := HandlerStep(cfg, s, e); after.status == NeedsReview && !At(after, Reviewing)
  {
  }

  lemma OthersKeepReview(cfg: Config, s: System, e: Event)
    requires s.status == NeedsReview && !At(s, Reviewing)
    ensures var after := HealerStep(cfg, s, e); after.status == NeedsReview && !At(after, Reviewing)
    ensures var after := TransportStep(cfg, s, e); after.status == NeedsReview && !At(after, Reviewing)
  {
  }

  /** A document in review without its task never gets one, whatever is redelivered or swept. */
  lemma {:induction false} LostTaskStaysLost(cfg: Config, s: System, es: seq<Event>)
    requires TaskLost(cfg, s)
    ensures TaskLost(cfg, Execute(cfg, s, es))
  {
    if es == [] {
    } else {
      hide Step, TaskLost;
      LostTaskStaysLost(cfg, s, es[..|es| - 1]);
      StepKeepsTaskLost(cfg, Execute(cfg, s, es[..|es| - 1]), es[|es| - 1]);
    }
  }

  lemma RoutedThenCrashes(cfg: Config, s: System)
    requires cfg.maxReceives >= 1 && Starting(s, Extract)
    ensures var after := Step(cfg, Step(cfg, Step(cfg, Step(cfg, s, Deliver(0)), Guard), Route(false)), Crash);
      after.status == NeedsReview && after.run.None? && after.tasks == 0
  {
  }

  /** And there is an execution from ingestion to such a document, in every configuration. */
  lemma TaskCanBeLost(cfg: Config) returns (es: seq<Event>)
    requires cfg.maxReceives >= 1
    ensures TaskLost(cfg, Execute(cfg, Ingested(0, true), es))
  {
    hide Step, Starting, Sound;
    var start := Ingested(0, true);
    var before := ReachesStart(cfg, Extract);
    RoutedThenCrashes(cfg, Execute(cfg, start, before));
    ExecuteFour(cfg, start, before, Deliver(0), Guard, Route(false), Crash);
    es := before + [Deliver(0), Guard, Route(false), Crash];
    ExecutionIsSound(cfg, 0, true, es);
  }

  // --- rescues -------------------------------------------------------------------------

  /** Counted sends are bounded for life, and two claims are more than a staleness apart. */
  lemma {:induction false} RescuesBounded(cfg: Config, now: int, sent: bool, es: seq<Event>)
    ensures var s := Execute(cfg, Ingested(now, sent), es);
      && s.rescues <= cfg.giveUpAfter
      && |s.claims| == s.reapCount
      && forall i, j :: 0 <= i < j < |s.claims| ==> s.claims[j] - s.claims[i] > cfg.staleAfter
  {
    ExecutionIsSound(cfg, now, sent, es);
  }

  /**
    What a claim does: nothing when it lost its race; past the bound it fails
    the document in the same transaction and sends nothing; otherwise it sends
    exactly one message, to a handler that accepts the status the row has now.
   */
  lemma ClaimOutcome(cfg: Config, s: System, k: nat)
    requires SweepsSound(cfg, s) && k < |s.scans| && !s.scans[k].status.BudgetExceeded?
    ensures var after := Step(cfg, s, Claim(k, true));
      if !Claimable(s, s.scans[k]) then after == s.(scans := after.scans)
      else if s.reapCount >= cfg.giveUpAfter then
        after.status == Failed && after.queue == s.queue && after.rescues == s.rescues
      else
        && after.status == s.status && after.rescues == s.rescues + 1 && after.updatedAt == s.clock
        && |after.queue| == |s.queue| + 1 && after.queue[..|s.queue|] == s.queue
        && Accepts(after.queue[|s.queue|].stage, after.status)
  {
  }
}
