/**
  The stage handlers and the consumer as they run: methods that update the
  document row, send messages and acknowledge or leave the one they were given.
  Each is proved to do exactly a sequence of the pipeline's steps, so everything
  proved over step sequences holds of them; a crash is the same sequence cut short.
 */
module Worker {
  import opened Common
  import opened Pipeline

  /**
    What the parse handler meets on its way.  `interrupted`: something raises
    before the guard has committed (the ceiling's read, the deferral's send, a
    missing row).  `recorded` and `changed`: whether the handler's own record of a
    failure it caught can be written, and whether its text differs from the one
    already there.  `noted`: whether the note every failure leaves on its way out can.
   */
  datatype ParseText = Unreadable | Short(stored: bool) | Readable(stored: bool, sent: bool)
  datatype ParseWorld = ParseWorld(
    interrupted: bool, saturated: bool, touched: bool, recorded: bool, changed: bool, noted: bool, text: ParseText)

  /** What the extract handler meets: the model's answer after any escalation. */
  datatype Answer =
    | NoAnswer                  // the text or the first call failed
    | NoEscalation              // anything else raised past the guard
    | NoBudget(stored: bool)
    | Invalid(stored: bool)
    | Valid(stored: bool, approved: bool, tasked: bool)
  datatype ExtractWorld = ExtractWorld(
    interrupted: bool, providerDown: bool, saturated: bool, touched: bool,
    recorded: bool, changed: bool, noted: bool, answer: Answer)

  predicate Defers(cfg: Config, s: System, saturated: bool)
    requires s.run.Some?
  {
    saturated && s.run.value.msg.defers < cfg.maxDefers
  }

  /**
    A caught failure is recorded, and noted again as it is re-raised: the record
    writes the row if its text or its status is new, the note writes any live row.
   */
  function Failing(cfg: Config, s: System, recorded: bool, changed: bool, noted: bool): Event
    requires s.run.Some?
  {
    if recorded && (changed || s.run.value.msg.receives >= cfg.maxReceives) then Fail(true) else Raise(noted)
  }

  function ParseSteps(cfg: Config, s: System, w: ParseWorld): seq<Event>
    requires s.run.Some?
  {
    if w.interrupted then [Raise(w.noted)]
    else if Defers(cfg, s, w.saturated) then [Defer(w.touched)]
    else if !Accepts(Parse, s.status) then [Guard]
    else match w.text
      case Unreadable => [Guard, Failing(cfg, s, w.recorded, w.changed, w.noted)]
      case Short(stored) => [Guard, if stored then Empty else Raise(w.noted)]
      case Readable(stored, sent) =>
        if !stored then [Guard, Raise(w.noted)]
        else [Guard, ParsedText, if sent then HandOff else Raise(w.noted)]
  }

  function ExtractSteps(cfg: Config, s: System, w: ExtractWorld): seq<Event>
    requires s.run.Some?
  {
    if w.interrupted then [Raise(w.noted)]
    else if w.providerDown then [DeferDown(w.touched)]
    else if Defers(cfg, s, w.saturated) then [Defer(w.touched)]
    else if !Accepts(Extract, s.status) then [Guard]
    else match w.answer
      case NoAnswer => [Guard, Failing(cfg, s, w.recorded, w.changed, w.noted)]
      case NoEscalation => [Guard, Raise(w.noted)]
      case NoBudget(stored) => [Guard, if stored then Pause else Raise(w.noted)]
      case Invalid(stored) => if stored then [Guard, StoreInvalid, MarkInvalid(w.recorded)] else [Guard, Raise(w.noted)]
      case Valid(stored, approved, tasked) =>
        if !stored then [Guard, Raise(w.noted)]
        else if approved then [Guard, Route(true)]
        else [Guard, Route(false), if tasked then Review else Raise(w.noted)]
  }

  lemma SmallLists<T>(a: T, b: T, c: T)
    ensures [] + [a] == [a] && [a] + [b] == [a, b] && [a, b] + [c] == [a, b, c]
  {
  }

  lemma {:induction false} ExecuteNone(cfg: Config, s: System)
    ensures Execute(cfg, s, []) == s
  {
    hide Step;
  }

  lemma {:induction false} ExecuteThree(cfg: Config, s: System, a: Event, b: Event, c: Event)
    ensures Execute(cfg, s, [a]) == Step(cfg, s, a)
    ensures Execute(cfg, s, [a, b]) == Step(cfg, Step(cfg, s, a), b)
    ensures Execute(cfg, s, [a, b, c]) == Step(cfg, Step(cfg, Step(cfg, s, a), b), c)
  {
    hide *;
    ExecuteNone(cfg, s);
    SmallLists(a, b, c);
    ExecuteOne(cfg, s, [], a);
    ExecuteOne(cfg, s, [a], b);
    ExecuteOne(cfg, s, [a, b], c);
  }

  // --- what a run leaves, in the document's own fields -------------------------------

  const LIVE: set<Status> := {Received, Parsing, Parsed, Extracting, BudgetExceeded}

  /** What a whole run changes: the row, the messages it sent, and whether its own message is done with. */
  datatype Ending = Ending(status: Status, stamped: bool, hasText: bool, sent: seq<Message>, returned: bool,
                           handoffs: nat, routed: nat, tasks: nat)

  function Untouched(s: System): Ending
  {
    Ending(s.status, false, s.hasText, [], true, 0, 0, 0)
  }

  /** The exception leaves the handler, noted on a live row if it can be. */
  function Raised(e: Ending, noted: bool): Ending
  {
    e.(stamped := e.stamped || (noted && e.status in LIVE), returned := false)
  }

  /** Put off with a copy of the message, the row refreshed if it is live and can be. */
  function PutOff(s: System, copy: Message, touched: bool): Ending
  {
    Untouched(s).(sent := [copy], stamped := touched && s.status in LIVE)
  }

  /** Past the guard. */
  function Begun(s: System, status: Status): Ending
  {
    Untouched(s).(status := status, stamped := s.status != status)
  }

  /** A failure the handler caught: FAILED only on the last receive, and always raised on. */
  function Caught(cfg: Config, e: Ending, m: Message, recorded: bool, changed: bool, noted: bool): Ending
  {
    if recorded && m.receives >= cfg.maxReceives then Raised(e.(status := Failed, stamped := true), noted)
    else Raised(e.(stamped := e.stamped || (recorded && changed)), noted)
  }

  function ParseEnding(cfg: Config, s: System, w: ParseWorld): Ending
    requires s.run.Some?
  {
    var m, begun := s.run.value.msg, Begun(s, Parsing);
    if w.interrupted then Raised(Untouched(s), w.noted)
    else if w.saturated && m.defers < cfg.maxDefers then
      PutOff(s, Message(m.stage, m.defers + 1, m.redrives, 0), w.touched)
    else if s.status !in {Received, Parsing} then Untouched(s)
    else match w.text
      case Unreadable => Caught(cfg, begun, m, w.recorded, w.changed, w.noted)
      case Short(stored) => if stored then begun.(status := NeedsOcr, stamped := true) else Raised(begun, w.noted)
      case Readable(stored, sent) =>
        if !stored then Raised(begun, w.noted)
        else
          var parsed := begun.(status := Parsed, stamped := true, hasText := true);
          if sent then parsed.(sent := [Message(Extract, 0, 0, 0)], handoffs := 1) else Raised(parsed, w.noted)
  }

  function ExtractEnding(cfg: Config, s: System, w: ExtractWorld): Ending
    requires s.run.Some?
  {
    var m, begun := s.run.value.msg, Begun(s, Extracting);
    if w.interrupted then Raised(Untouched(s), w.noted)
    else if w.providerDown then PutOff(s, Message(m.stage, m.defers, m.redrives, 0), w.touched)
    else if w.saturated && m.defers < cfg.maxDefers then
      PutOff(s, Message(m.stage, m.defers + 1, m.redrives, 0), w.touched)
    else if s.status !in {Parsed, Extracting, BudgetExceeded} then Untouched(s)
    else match w.answer
      case NoAnswer => Caught(cfg, begun, m, w.recorded, w.changed, w.noted)
      case NoEscalation => Raised(begun, w.noted)
      case NoBudget(stored) =>
        if stored then begun.(status := BudgetExceeded, stamped := true) else Raised(begun, w.noted)
      case Invalid(stored) =>
        if !stored then Raised(begun, w.noted)
        else if w.recorded then begun.(status := Failed, stamped := true) else begun
      case Valid(stored, approved, tasked) =>
        if !stored then Raised(begun, w.noted)
        else if approved then begun.(status := Approved, stamped := true, routed := 1)
        else
          var review := begun.(status := NeedsReview, stamped := true, routed := 1);
          if tasked then review.(tasks := 1) else Raised(review, w.noted)
  }

  /** The document with these changes, `back` given back, and everything else as it was. */
  ghost predicate Shows(s: System, e: Ending, back: seq<Message>, t: System)
  {
    && t.status == e.status && t.hasText == e.hasText
    && t.updatedAt == (if e.stamped then s.clock else s.updatedAt)
    && t.queue == s.queue + e.sent + back
    && (t.handoffs, t.routed, t.tasks) == (s.handoffs + e.handoffs, s.routed + e.routed, s.tasks + e.tasks)
    && (t.reapCount, t.clock, t.dead, t.scans, t.claims) == (s.reapCount, s.clock, s.dead, s.scans, s.claims)
    && (t.rescues, t.polls, t.deliveries) == (s.rescues, s.polls, s.deliveries)
  }

  /** A run in mid-flight. */
  ghost predicate Stands(s: System, e: Ending, phase: Phase, t: System)
    requires s.run.Some?
  {
    Shows(s, e, [], t) && e.returned && t.run == Some(s.run.value.(phase := phase))
  }

  /** The run is over: its message is ready to be deleted, or given back. */
  ghost predicate Ends(s: System, e: Ending, t: System)
    requires s.run.Some?
  {
    if e.returned then Stands(s, e, Returning, t) else Shows(s, e, [s.run.value.msg], t) && t.run.None?
  }

  lemma StartStands(s: System)
    requires At(s, Gate)
    ensures Stands(s, Untouched(s), Gate, s)
  {
    assert s.queue + [] + [] == s.queue;
  }

  lemma RaiseEnds(cfg: Config, s: System, e: Ending, phase: Phase, t: System, noted: bool)
    requires s.run.Some? && Stands(s, e, phase, t) && phase != Returning
    ensures Ends(s, Raised(e, noted), Step(cfg, t, Raise(noted)))
  {
    assert s.queue + e.sent + [] == s.queue + e.sent;
  }

  lemma FailEnds(cfg: Config, s: System, e: Ending, t: System, recorded: bool, changed: bool, noted: bool)
    requires s.run.Some? && Stands(s, e, Working, t)
    ensures Ends(s, Caught(cfg, e, s.run.value.msg, recorded, changed, noted),
                 Step(cfg, t, Failing(cfg, t, recorded, changed, noted)))
  {
    if !(recorded && (changed || s.run.value.msg.receives >= cfg.maxReceives)) {
      RaiseEnds(cfg, s, e, Working, t, noted);
      hide Step;
    } else {
      assert s.queue + e.sent + [] == s.queue + e.sent;
    }
  }

  lemma DeferEnds(cfg: Config, s: System, touched: bool)
    requires At(s, Gate)
    ensures var m := s.run.value.msg;
      && (m.defers < cfg.maxDefers ==>
            Ends(s, PutOff(s, Message(m.stage, m.defers + 1, m.redrives, 0), touched), Step(cfg, s, Defer(touched))))
      && (m.stage == Extract ==>
            Ends(s, PutOff(s, Message(m.stage, m.defers, m.redrives, 0), touched), Step(cfg, s, DeferDown(touched))))
  {
  }

  lemma GuardStands(cfg: Config, s: System)
    requires At(s, Gate)
    ensures s.run.value.msg.stage == Parse ==>
      if s.status in {Received, Parsing} then Stands(s, Begun(s, Parsing), Working, Step(cfg, s, Guard))
      else Ends(s, Untouched(s), Step(cfg, s, Guard))
    ensures s.run.value.msg.stage == Extract ==>
      if s.status in {Parsed, Extracting, BudgetExceeded} then
        Stands(s, Begun(s, Extracting), Working, Step(cfg, s, Guard))
      else Ends(s, Untouched(s), Step(cfg, s, Guard))
  {
    assert s.queue + [] + [] == s.queue;
  }

  /** What each commit of a parse run adds. */
  lemma ParseCommits(cfg: Config, s: System, e: Ending, t: System)
    requires s.run.Some? && s.run.value.msg.stage == Parse && Stands(s, e, Working, t)
    ensures Ends(s, e.(status := NeedsOcr, stamped := true), Step(cfg, t, Empty))
    ensures Stands(s, e.(status := Parsed, stamped := true, hasText := true), HandingOff, Step(cfg, t, ParsedText))
  {
  }

  lemma HandOffEnds(cfg: Config, s: System, e: Ending, t: System)
    requires s.run.Some? && Stands(s, e, HandingOff, t) && e.sent == [] && e.handoffs == 0
    ensures Ends(s, e.(sent := [Message(Extract, 0, 0, 0)], handoffs := 1), Step(cfg, t, HandOff))
  {
    assert s.queue + [] + [] == s.queue;
  }

  lemma PauseEnds(cfg: Config, s: System, e: Ending, t: System)
    requires s.run.Some? && s.run.value.msg.stage == Extract && Stands(s, e, Working, t)
    ensures Ends(s, e.(status := BudgetExceeded, stamped := true), Step(cfg, t, Pause))
    ensures Stands(s, e, StoredInvalid, Step(cfg, t, StoreInvalid))
  {
  }

  lemma ApprovedEnds(cfg: Config, s: System, e: Ending, t: System)
    requires s.run.Some? && s.run.value.msg.stage == Extract && Stands(s, e, Working, t) && e.routed == 0
    ensures Ends(s, e.(status := Approved, stamped := true, routed := 1), Step(cfg, t, Route(true)))
  {
  }

  lemma ReviewStands(cfg: Config, s: System, e: Ending, t: System)
    requires s.run.Some? && s.run.value.msg.stage == Extract && Stands(s, e, Working, t) && e.routed == 0
    ensures Stands(s, e.(status := NeedsReview, stamped := true, routed := 1), Reviewing, Step(cfg, t, Route(false)))
  {
  }

  lemma InvalidEnds(cfg: Config, s: System, e: Ending, t: System, recorded: bool)
    requires s.run.Some? && Stands(s, e, StoredInvalid, t)
    ensures Ends(s, if recorded then e.(status := Failed, stamped := true) else e, Step(cfg, t, MarkInvalid(recorded)))
  {
  }

  lemma ReviewEnds(cfg: Config, s: System, e: Ending, t: System)
    requires s.run.Some? && Stands(s, e, Reviewing, t) && e.tasks == 0
    ensures Ends(s, e.(tasks := 1), Step(cfg, t, Review))
  {
  }

  lemma ParseWorkEnds(cfg: Config, s: System, w: ParseWorld, working: System)
    requires s.run.Some? && s.run.value.msg.stage == Parse && Stands(s, Begun(s, Parsing), Working, working)
    ensures var begun := Begun(s, Parsing);
      match w.text
      case Unreadable =>
        Ends(s, Caught(cfg, begun, s.run.value.msg, w.recorded, w.changed, w.noted),
             Step(cfg, working, Failing(cfg, working, w.recorded, w.changed, w.noted)))
      case Short(stored) =>
        Ends(s, if stored then begun.(status := NeedsOcr, stamped := true) else Raised(begun, w.noted),
             Step(cfg, working, if stored then Empty else Raise(w.noted)))
      case Readable(stored, sent) =>
        var parsed := begun.(status := Parsed, stamped := true, hasText := true);
        if !stored then Ends(s, Raised(begun, w.noted), Step(cfg, working, Raise(w.noted)))
        else Ends(s, if sent then parsed.(sent := [Message(Extract, 0, 0, 0)], handoffs := 1)
                     else Raised(parsed, w.noted),
                  Step(cfg, Step(cfg, working, ParsedText), if sent then HandOff else Raise(w.noted)))
  {
    var begun := Begun(s, Parsing);
    assert begun.sent == [] && begun.handoffs == 0;
    hide Step, Ends, Stands, Raised, Caught, Failing, Begun;
    match w.text
    case Unreadable => FailEnds(cfg, s, begun, working, w.recorded, w.changed, w.noted);
    case Short(stored) =>
      ParseCommits(cfg, s, begun, working);
      RaiseEnds(cfg, s, begun, Working, working, w.noted);
    case Readable(stored, sent) =>
      var parsed := begun.(status := Parsed, stamped := true, hasText := true);
      RaiseEnds(cfg, s, begun, Working, working, w.noted);
      ParseCommits(cfg, s, begun, working);
      HandOffEnds(cfg, s, parsed, Step(cfg, working, ParsedText));
      RaiseEnds(cfg, s, parsed, HandingOff, Step(cfg, working, ParsedText), w.noted);
  }

  lemma FailingReadsRun(cfg: Config, s: System, t: System, recorded: bool, changed: bool, noted: bool)
    requires s.run.Some? && t.run.Some? && t.run.value.msg == s.run.value.msg
    ensures Failing(cfg, t, recorded, changed, noted) == Failing(cfg, s, recorded, changed, noted)
  {
  }

  lemma {:induction false} AcceptedParseEnds(cfg: Config, s: System, w: ParseWorld)
    requires AtStage(s, Gate, Parse) && s.status in {Received, Parsing}
    requires !w.interrupted && !Defers(cfg, s, w.saturated)
    ensures Ends(s, ParseEnding(cfg, s, w), Execute(cfg, s, ParseSteps(cfg, s, w)))
  {
    var working, es := Step(cfg, s, Guard), ParseSteps(cfg, s, w);
    assert working.run.Some? && working.run.value.msg == s.run.value.msg;
    assert Accepts(Parse, s.status);
    hide Step, Execute, Ends, Stands, Raised, Caught, Accepts, Begun, Untouched, PutOff, Failing;
    GuardStands(cfg, s);
    ParseWorkEnds(cfg, s, w, working);
    FailingReadsRun(cfg, s, working, w.recorded, w.changed, w.noted);
    ExecuteThree(cfg, s, Guard, es[1], if |es| > 2 then es[2] else Ack);
  }

  /** The steps of a whole parse run leave exactly what the table says. */
  lemma {:induction false} ParseEnds(cfg: Config, s: System, w: ParseWorld)
    requires AtStage(s, Gate, Parse)
    ensures Ends(s, ParseEnding(cfg, s, w), Execute(cfg, s, ParseSteps(cfg, s, w)))
  {
    assert Accepts(Parse, s.status) <==> s.status in {Received, Parsing};
    hide Step, Execute, Ends, Stands, Raised, Caught, Accepts, Begun, Untouched, PutOff, Failing;
    if w.interrupted {
      StartStands(s);
      RaiseEnds(cfg, s, Untouched(s), Gate, s, w.noted);
      ExecuteThree(cfg, s, Raise(w.noted), Ack, Ack);
    } else if Defers(cfg, s, w.saturated) {
      DeferEnds(cfg, s, w.touched);
      ExecuteThree(cfg, s, Defer(w.touched), Ack, Ack);
    } else if s.status !in {Received, Parsing} {
      GuardStands(cfg, s);
      ExecuteThree(cfg, s, Guard, Ack, Ack);
    } else {
      AcceptedParseEnds(cfg, s, w);
    }
  }

  lemma ExtractWorkEnds(cfg: Config, s: System, w: ExtractWorld, working: System)
    requires s.run.Some? && s.run.value.msg.stage == Extract && Stands(s, Begun(s, Extracting), Working, working)
    ensures var begun := Begun(s, Extracting);
      match w.answer
      case NoAnswer =>
        Ends(s, Caught(cfg, begun, s.run.value.msg, w.recorded, w.changed, w.noted),
             Step(cfg, working, Failing(cfg, working, w.recorded, w.changed, w.noted)))
      case NoEscalation => Ends(s, Raised(begun, w.noted), Step(cfg, working, Raise(w.noted)))
      case NoBudget(stored) =>
        Ends(s, if stored then begun.(status := BudgetExceeded, stamped := true) else Raised(begun, w.noted),
             Step(cfg, working, if stored then Pause else Raise(w.noted)))
      case Invalid(stored) =>
        if !stored then Ends(s, Raised(begun, w.noted), Step(cfg, working, Raise(w.noted)))
        else Ends(s, if w.recorded then begun.(status := Failed, stamped := true) else begun,
                  Step(cfg, Step(cfg, working, StoreInvalid), MarkInvalid(w.recorded)))
      case Valid(stored, approved, tasked) =>
        var review := begun.(status := NeedsReview, stamped := true, routed := 1);
        if !stored then Ends(s, Raised(begun, w.noted), Step(cfg, working, Raise(w.noted)))
        else if approved then
          Ends(s, begun.(status := Approved, stamped := true, routed := 1), Step(cfg, working, Route(true)))
        else Ends(s, if tasked then review.(tasks := 1) else Raised(review, w.noted),
                  Step(cfg, Step(cfg, working, Route(false)), if tasked then Review else Raise(w.noted)))
  {
    var begun := Begun(s, Extracting);
    assert begun.routed == 0 && begun.tasks == 0;
    hide Step, Ends, Stands, Raised, Caught, Failing, Begun;
    RaiseEnds(cfg, s, begun, Working, working, w.noted);
    match w.answer
    case NoAnswer => FailEnds(cfg, s, begun, working, w.recorded, w.changed, w.noted);
    case NoEscalation =>
    case NoBudget(stored) => PauseEnds(cfg, s, begun, working);
    case Invalid(stored) =>
      PauseEnds(cfg, s, begun, working);
      InvalidEnds(cfg, s, begun, Step(cfg, working, StoreInvalid), w.recorded);
    case Valid(stored, approved, tasked) =>
      var review := begun.(status := NeedsReview, stamped := true, routed := 1);
      ApprovedEnds(cfg, s, begun, working);
      ReviewStands(cfg, s, begun, working);
      ReviewEnds(cfg, s, review, Step(cfg, working, Route(false)));
      RaiseEnds(cfg, s, review, Reviewing, Step(cfg, working, Route(false)), w.noted);
  }

  lemma {:induction false} AcceptedExtractEnds(cfg: Config, s: System, w: ExtractWorld)
    requires AtStage(s, Gate, Extract) && s.status in {Parsed, Extracting, BudgetExceeded}
    requires !w.interrupted && !w.providerDown && !Defers(cfg, s, w.saturated)
    ensures Ends(s, ExtractEnding(cfg, s, w), Execute(cfg, s, ExtractSteps(cfg, s, w)))
  {
    var working, es := Step(cfg, s, Guard), ExtractSteps(cfg, s, w);
    assert working.run.Some? && working.run.value.msg == s.run.value.msg;
    assert Accepts(Extract, s.status);
    hide Step, Execute, Ends, Stands, Raised, Caught, Accepts, Begun, Untouched, PutOff, Failing;
    GuardStands(cfg, s);
    ExtractWorkEnds(cfg, s, w, working);
    FailingReadsRun(cfg, s, working, w.recorded, w.changed, w.noted);
    ExecuteThree(cfg, s, Guard, es[1], if |es| > 2 then es[2] else Ack);
  }

  /** And those of a whole extract run. */
  lemma {:induction false} ExtractEnds(cfg: Config, s: System, w: ExtractWorld)
    requires AtStage(s, Gate, Extract)
    ensures Ends(s, ExtractEnding(cfg, s, w), Execute(cfg, s, ExtractSteps(cfg, s, w)))
  {
    assert Accepts(Extract, s.status) <==> s.status in {Parsed, Extracting, BudgetExceeded};
    hide Step, Execute, Ends, Stands, Raised, Caught, Accepts, Begun, Untouched, PutOff, Failing;
    if w.interrupted {
      StartStands(s);
      RaiseEnds(cfg, s, Untouched(s), Gate, s, w.noted);
      ExecuteThree(cfg, s, Raise(w.noted), Ack, Ack);
    } else if w.providerDown {
      DeferEnds(cfg, s, w.touched);
      ExecuteThree(cfg, s, DeferDown(w.touched), Ack, Ack);
    } else if Defers(cfg, s, w.saturated) {
      DeferEnds(cfg, s, w.touched);
      ExecuteThree(cfg, s, Defer(w.touched), Ack, Ack);
    } else if s.status !in {Parsed, Extracting, BudgetExceeded} {
      GuardStands(cfg, s);
      ExecuteThree(cfg, s, Guard, Ack, Ack);
    } else {
      AcceptedExtractEnds(cfg, s, w);
    }
  }

  /** The row, the queues and the run of one document, as fields. */
  class Deployment {
    const cfg: Config
    var status: Status
    var reapCount: nat
    var updatedAt: int
    var hasText: bool
    var clock: int
    var queue: seq<Message>
    var dead: seq<Message>
    var run: Option<Run>
    var scans: seq<Scan>
    var handoffs: nat
    var routed: nat
    var tasks: nat
    var claims: seq<int>
    var rescues: nat
    var polls: nat
    var deliveries: nat

    constructor (cfg: Config, now: int, sent: bool)
      ensures this.cfg == cfg && State() == Ingested(now, sent)
    {
      this.cfg := cfg;
      status, reapCount, updatedAt, hasText, clock := Received, 0, now, false, now;
      queue := if sent then [Fresh(Parse)] else [];
      dead, run, scans, claims := [], None, [], [];
      handoffs, routed, tasks, rescues, polls, deliveries := 0, 0, 0, 0, 0, 0;
    }

    function State(): System
      reads this
    {
      System(status, reapCount, updatedAt, hasText, clock, queue, dead, run, scans,
             handoffs, routed, tasks, claims, rescues, polls, deliveries)
    }

    /** One UPDATE of the row that leaves the status alone and skips terminal rows. */
    method TouchDocument()
      modifies `updatedAt
      ensures State() == old(Touch(State()))
    {
      if !Terminal(status) {
        updatedAt := clock;
      }
    }

    /** A failure caught by the handler: FAILED only on the final attempt; an unchanged row is not written. */
    method RecordFailure(final: bool, changed: bool)
      modifies `updatedAt, `status
      ensures State() == old(if final then SetStatus(State(), Failed)
                             else if changed then State().(updatedAt := clock)
                             else State())
    {
      if final {
        status := Failed;
      }
      if final || changed {
        updatedAt := clock;
      }
    }

    /** An exception leaves the handler: the message stays and will redeliver. */
    method LeaveMessage()
      requires run.Some?
      modifies `queue, `run
      ensures State() == old(GiveBack(State()))
    {
      queue := queue + [run.value.msg];
      run := None;
    }

    method Reach(phase: Phase)
      requires run.Some?
      modifies `run
      ensures State() == old(Advance(State(), phase))
    {
      run := Some(run.value.(phase := phase));
    }

    // --- the transactions and sends of the handlers, one step each ---

    method DeferIfSaturated(saturated: bool, touched: bool) returns (deferred: bool)
      requires At(State(), Gate)
      modifies this
      ensures deferred == old(Defers(cfg, State(), saturated))
      ensures State() == if deferred then Step(cfg, old(State()), Defer(touched)) else old(State())
      ensures deferred ==> At(State(), Returning)
    {
      hide TransportStep, HealerStep, EndStep, CommitStep;
      if !saturated || run.value.msg.defers >= cfg.maxDefers {
        return false;
      }
      queue := queue + [run.value.msg.(defers := run.value.msg.defers + 1, receives := 0)];
      Reach(Returning);
      if touched {
        TouchDocument();
      }
      return true;
    }

    method DeferWhileProviderDown(touched: bool)
      requires AtStage(State(), Gate, Extract)
      modifies this
      ensures State() == Step(cfg, old(State()), DeferDown(touched)) && At(State(), Returning)
    {
      hide TransportStep, HealerStep, EndStep, CommitStep;
      queue := queue + [run.value.msg.(receives := 0)];
      Reach(Returning);
      if touched {
        TouchDocument();
      }
    }

    /** The status guard under the row lock; an unchanged status writes nothing. */
    method EnterStage(stage: Stage) returns (accepted: bool)
      requires AtStage(State(), Gate, stage)
      modifies this
      ensures accepted == Accepts(stage, old(status))
      ensures State() == Step(cfg, old(State()), Guard)
      ensures if accepted then AtStage(State(), Working, stage) else At(State(), Returning)
      ensures run.value.msg == old(run.value.msg)
    {
      hide TransportStep, HealerStep, EndStep, CommitStep;
      accepted := Accepts(stage, status);
      if !accepted {
        Reach(Returning);
        return;
      }
      if status != InProgress(stage) {
        status, updatedAt := InProgress(stage), clock;
      }
      Reach(Working);
    }

    method RaiseOut(noted: bool)
      requires run.Some? && !At(State(), Returning)
      modifies this
      ensures State() == Step(cfg, old(State()), Raise(noted)) && run.None?
    {
      hide TransportStep, HealerStep, GateStep, CommitStep;
      if noted {
        TouchDocument();
      }
      LeaveMessage();
    }

    /** A caught failure: recorded by the handler, noted as it is re-raised, and the message stays. */
    method FailDelivery(recorded: bool, changed: bool, noted: bool)
      requires At(State(), Working)
      modifies this
      ensures State() == Step(cfg, old(State()), Failing(cfg, old(State()), recorded, changed, noted)) && run.None?
      ensures noted && !Terminal(old(status)) ==> updatedAt == clock
    {
      hide TransportStep, HealerStep, GateStep, CommitStep;
      if recorded {
        RecordFailure(run.value.msg.receives >= cfg.maxReceives, changed);
      }
      RaiseOut(noted);
    }

    method MarkNeedsOcr()
      requires AtStage(State(), Working, Parse)
      modifies this
      ensures State() == Step(cfg, old(State()), Empty) && At(State(), Returning)
    {
      hide TransportStep, HealerStep, GateStep, EndStep;
      status, updatedAt := NeedsOcr, clock;
      Reach(Returning);
    }

    method CommitParsed()
      requires AtStage(State(), Working, Parse)
      modifies this
      ensures State() == Step(cfg, old(State()), ParsedText) && At(State(), HandingOff)
    {
      hide TransportStep, HealerStep, GateStep, EndStep;
      status, updatedAt, hasText := Parsed, clock, true;
      Reach(HandingOff);
    }

    method SendExtract()
      requires At(State(), HandingOff)
      modifies this
      ensures State() == Step(cfg, old(State()), HandOff) && At(State(), Returning)
    {
      hide TransportStep, HealerStep, GateStep, EndStep;
      queue, handoffs := queue + [Fresh(Extract)], handoffs + 1;
      Reach(Returning);
    }

    method PauseOnBudget()
      requires AtStage(State(), Working, Extract)
      modifies this
      ensures State() == Step(cfg, old(State()), Pause) && At(State(), Returning)
    {
      hide TransportStep, HealerStep, GateStep, EndStep;
      status, updatedAt := BudgetExceeded, clock;
      Reach(Returning);
    }

    /** The raw attempt is stored in one transaction and FAILED written in another. */
    method StoreInvalidOutcome()
      requires AtStage(State(), Working, Extract)
      modifies this
      ensures State() == Step(cfg, old(State()), StoreInvalid) && At(State(), StoredInvalid)
    {
      hide TransportStep, HealerStep, GateStep, EndStep;
      Reach(StoredInvalid);
    }

    method MarkInvalidOutcome(recorded: bool)
      requires At(State(), StoredInvalid)
      modifies this
      ensures State() == Step(cfg, old(State()), MarkInvalid(recorded)) && At(State(), Returning)
    {
      hide TransportStep, HealerStep, GateStep, EndStep;
      if recorded {
        RecordFailure(true, true);
      }
      Reach(Returning);
    }

    /** The extraction row and the routed status, in one transaction. */
    method StoreRouted(approved: bool)
      requires AtStage(State(), Working, Extract)
      modifies this
      ensures State() == Step(cfg, old(State()), Route(approved))
      ensures At(State(), if approved then Returning else Reviewing)
    {
      hide TransportStep, HealerStep, GateStep, EndStep;
      routed := routed + 1;
      status, updatedAt := if approved then Approved else NeedsReview, clock;
      Reach(if approved then Returning else Reviewing);
    }

    method EnsureReviewTask()
      requires At(State(), Reviewing)
      modifies this
      ensures State() == Step(cfg, old(State()), Review) && At(State(), Returning)
    {
      hide TransportStep, HealerStep, GateStep, EndStep;
      tasks := tasks + 1;
      Reach(Returning);
    }

    // --- the handlers ---

    method HandleParse(w: ParseWorld)
      requires AtStage(State(), Gate, Parse)
      modifies this
      ensures State() == Execute(cfg, old(State()), ParseSteps(cfg, old(State()), w))
      ensures Ends(old(State()), ParseEnding(cfg, old(State()), w), State())
      ensures run.None? || At(State(), Returning)
    {
      hide Step, Ends, ParseEnding;
      ghost var s := State();
      ParseEnds(cfg, s, w);
      if w.interrupted {
        RaiseOut(w.noted);
        ExecuteThree(cfg, s, Raise(w.noted), Ack, Ack);
        return;
      }
      var deferred := DeferIfSaturated(w.saturated, w.touched);
      if deferred {
        ExecuteThree(cfg, s, Defer(w.touched), Ack, Ack);
        return;
      }
      var accepted := EnterStage(Parse);
      if !accepted {
        ExecuteThree(cfg, s, Guard, Ack, Ack);
        return;
      }
      match w.text
      case Unreadable =>
        FailDelivery(w.recorded, w.changed, w.noted);
        ExecuteThree(cfg, s, Guard, Failing(cfg, s, w.recorded, w.changed, w.noted), Ack);
      case Short(stored) =>
        if stored {
          MarkNeedsOcr();
        } else {
          RaiseOut(w.noted);
        }
        ExecuteThree(cfg, s, Guard, if stored then Empty else Raise(w.noted), Ack);
      case Readable(stored, sent) =>
        if !stored {
          RaiseOut(w.noted);
          ExecuteThree(cfg, s, Guard, Raise(w.noted), Ack);
          return;
        }
        CommitParsed();
        if sent {
          SendExtract();
        } else {
          RaiseOut(w.noted);
        }
        ExecuteThree(cfg, s, Guard, ParsedText, if sent then HandOff else Raise(w.noted));
    }

    method HandleExtract(w: ExtractWorld)
      requires AtStage(State(), Gate, Extract)
      modifies this
      ensures State() == Execute(cfg, old(State()), ExtractSteps(cfg, old(State()), w))
      ensures Ends(old(State()), ExtractEnding(cfg, old(State()), w), State())
      ensures run.None? || At(State(), Returning)
    {
      hide Step, Ends, ExtractEnding;
      ghost var s := State();
      ExtractEnds(cfg, s, w);
      if w.interrupted {
        RaiseOut(w.noted);
        ExecuteThree(cfg, s, Raise(w.noted), Ack, Ack);
        return;
      }
      if w.providerDown {
        DeferWhileProviderDown(w.touched);
        ExecuteThree(cfg, s, DeferDown(w.touched), Ack, Ack);
        return;
      }
      var deferred := DeferIfSaturated(w.saturated, w.touched);
      if deferred {
        ExecuteThree(cfg, s, Defer(w.touched), Ack, Ack);
        return;
      }
      var accepted := EnterStage(Extract);
      if !accepted {
        ExecuteThree(cfg, s, Guard, Ack, Ack);
        return;
      }
      match w.answer
      case NoAnswer =>
        FailDelivery(w.recorded, w.changed, w.noted);
        ExecuteThree(cfg, s, Guard, Failing(cfg, s, w.recorded, w.changed, w.noted), Ack);
      case NoEscalation =>
        RaiseOut(w.noted);
        ExecuteThree(cfg, s, Guard, Raise(w.noted), Ack);
      case NoBudget(stored) =>
        if stored {
          PauseOnBudget();
        } else {
          RaiseOut(w.noted);
        }
        ExecuteThree(cfg, s, Guard, if stored then Pause else Raise(w.noted), Ack);
      case Invalid(stored) =>
        if !stored {
          RaiseOut(w.noted);
          ExecuteThree(cfg, s, Guard, Raise(w.noted), Ack);
          return;
        }
        StoreInvalidOutcome();
        MarkInvalidOutcome(w.recorded);
        ExecuteThree(cfg, s, Guard, StoreInvalid, MarkInvalid(w.recorded));
      case Valid(stored, approved, tasked) =>
        if !stored {
          RaiseOut(w.noted);
          ExecuteThree(cfg, s, Guard, Raise(w.noted), Ack);
          return;
        }
        StoreRouted(approved);
        if approved {
          ExecuteThree(cfg, s, Guard, Route(true), Ack);
          return;
        }
        if tasked {
          EnsureReviewTask();
        } else {
          RaiseOut(w.noted);
        }
        ExecuteThree(cfg, s, Guard, Route(false), if tasked then Review else Raise(w.noted));
    }

    method Receive(i: nat) returns (dead: bool)
      requires i < |queue| && run.None?
      modifies this
      ensures dead == (old(queue)[i].receives >= cfg.maxReceives)
      ensures State() == Step(cfg, old(State()), if dead then DeadLetter(i) else Deliver(i))
      ensures if dead then run.None? else AtStage(State(), Gate, old(queue)[i].stage)
    {
      hide HandlerStep, HealerStep;
      var msg := queue[i];
      queue := Remove(queue, i);
      if msg.receives >= cfg.maxReceives {
        this.dead := this.dead + [msg];
        return true;
      }
      run := Some(Run(msg.(receives := msg.receives + 1), Gate, false));
      deliveries := deliveries + 1;
      return false;
    }

    method Delete()
      requires At(State(), Returning)
      modifies this
      ensures State() == Step(cfg, old(State()), Ack) && run.None?
    {
      hide TransportStep, HealerStep, GateStep, CommitStep;
      run := None;
    }

    /**
      One poll: the queue moves a message that used up its receives aside;
      otherwise the handler runs, and the message is deleted only if it returned.
      What it leaves of the row and the queue is `PollOutcome`.
     */
    method RunOnce(i: nat, p: ParseWorld, x: ExtractWorld) returns (processed: nat)
      requires i < |queue| && run.None?
      modifies this
      ensures State() == Polled(cfg, old(State()), i, p, x)
      ensures processed == if Acknowledged(cfg, old(State()), i, p, x) then 1 else 0
      ensures run.None? && PollOutcome(cfg, old(State()), i, processed == 1, State())
      ensures old(queue)[i].receives < cfg.maxReceives ==>
        var taken := Taken(old(State()), i);
        var e := if old(queue)[i].stage == Parse then ParseEnding(cfg, taken, p) else ExtractEnding(cfg, taken, x);
        && Shows(taken, e, if e.returned then [] else [taken.run.value.msg], State())
        && processed == if e.returned then 1 else 0
    {
      hide Step, PollOutcome, Shows, Ends, Taken, ParseEnding, ExtractEnding;
      ghost var s := State();
      if s.queue[i].receives < cfg.maxReceives {
        PolledEnds(cfg, s, i, p, x);
      }
      var moved := Receive(i);
      if moved {
        PollLeaves(cfg, s, i, p, x);
        return 0;
      }
      if run.value.msg.stage == Parse {
        HandleParse(p);
      } else {
        HandleExtract(x);
      }
      PollLeaves(cfg, s, i, p, x);
      processed := 0;
      if run.Some? {
        Delete();
        processed := 1;
      }
    }
  }

  // --- what one poll leaves behind -----------------------------------------------------

  /** The handler's whole run. */
  function Handled(cfg: Config, s: System, p: ParseWorld, x: ExtractWorld): System
    requires s.run.Some?
  {
    Execute(cfg, s, if s.run.value.msg.stage == Parse then ParseSteps(cfg, s, p) else ExtractSteps(cfg, s, x))
  }

  /** The state after one poll of message i. */
  function Polled(cfg: Config, s: System, i: nat, p: ParseWorld, x: ExtractWorld): System
    requires i < |s.queue| && s.run.None?
  {
    if s.queue[i].receives >= cfg.maxReceives then Step(cfg, s, DeadLetter(i))
    else
      var handled := Handled(cfg, Step(cfg, s, Deliver(i)), p, x);
      if handled.run.None? then handled else Step(cfg, handled, Ack)
  }

  predicate Acknowledged(cfg: Config, s: System, i: nat, p: ParseWorld, x: ExtractWorld)
    requires i < |s.queue| && s.run.None?
  {
    s.queue[i].receives < cfg.maxReceives && Handled(cfg, Step(cfg, s, Deliver(i)), p, x).run.Some?
  }

  /** At most one message joins the queue: this one deferred, counted or not, or a parse run's hand-off. */
  predicate Joins(before: seq<Message>, after: seq<Message>, m: Message)
  {
    || after == before
    || (|after| == |before| + 1 && after[..|before|] == before
        && (after[|before|] == m.(defers := m.defers + 1, receives := 0)
            || (m.stage == Extract && after[|before|] == m.(receives := 0))
            || (m.stage == Parse && after[|before|] == Fresh(Extract))))
  }

  /**
    The message is dead-lettered as it was, or gone from the queue with at most
    one other in its place, or back with one more receive.  A sound pipeline
    stays sound, progress is never lost and a terminal status is left alone.
   */
  ghost predicate PollOutcome(cfg: Config, s: System, i: nat, acknowledged: bool, after: System)
    requires i < |s.queue|
  {
    var m, rest := s.queue[i], Remove(s.queue, i);
    && (if m.receives >= cfg.maxReceives then
          !acknowledged && after.queue == rest && after.dead == s.dead + [m] && after.status == s.status
        else
          && after.dead == s.dead
          && if acknowledged then Joins(rest, after.queue, m.(receives := m.receives + 1))
             else after.queue == rest + [m.(receives := m.receives + 1)])
    && (Sound(cfg, s) ==>
          && Sound(cfg, after)
          && Rank(after.status) >= Rank(s.status)
          && (Terminal(s.status) ==> after.status == s.status)
          && s.handoffs <= after.handoffs <= 1 && s.routed <= after.routed <= 1)
  }

  /** What a handler does within one run. */
  predicate OfHandler(e: Event)
  {
    match e
    case Defer(_) => true
    case DeferDown(_) => true
    case Guard => true
    case Fail(_) => true
    case Raise(_) => true
    case Empty => true
    case ParsedText => true
    case HandOff => true
    case Pause => true
    case StoreInvalid => true
    case MarkInvalid(_) => true
    case Route(_) => true
    case Review => true
    case _ => false
  }

  lemma StepsAreOfHandler(cfg: Config, s: System, p: ParseWorld, x: ExtractWorld)
    requires s.run.Some?
    ensures forall e :: e in ParseSteps(cfg, s, p) ==> OfHandler(e)
    ensures forall e :: e in ExtractSteps(cfg, s, x) ==> OfHandler(e)
  {
  }

  /** The queue at any point of a run of message m that started with these queues. */
  predicate MidRun(before: seq<Message>, dead: seq<Message>, handoffs: nat, m: Message, t: System)
  {
    && t.dead == dead && t.handoffs >= handoffs
    && if t.run.None? then t.queue == before + [m]
       else && t.run.value.msg == m
            && (t.run.value.phase.HandingOff? ==> m.stage == Parse)
            && if t.run.value.phase.Returning? then Joins(before, t.queue, m) else t.queue == before
  }

  lemma GateKeepsMidRun(cfg: Config, before: seq<Message>, dead: seq<Message>, h: nat, m: Message, t: System, e: Event)
    requires MidRun(before, dead, h, m, t)
    ensures MidRun(before, dead, h, m, GateStep(cfg, t, e))
  {
  }

  lemma EndKeepsMidRun(cfg: Config, before: seq<Message>, dead: seq<Message>, h: nat, m: Message, t: System, e: Event)
    requires MidRun(before, dead, h, m, t) && OfHandler(e)
    ensures MidRun(before, dead, h, m, EndStep(cfg, t, e))
  {
    hide Joins;
  }

  lemma CommitKeepsMidRun(before: seq<Message>, dead: seq<Message>, h: nat, m: Message, t: System, e: Event)
    requires MidRun(before, dead, h, m, t)
    ensures MidRun(before, dead, h, m, CommitStep(t, e))
  {
  }

  lemma StepKeepsMidRun(cfg: Config, before: seq<Message>, dead: seq<Message>, h: nat, m: Message, t: System, e: Event)
    requires MidRun(before, dead, h, m, t) && OfHandler(e)
    ensures MidRun(before, dead, h, m, Step(cfg, t, e))
  {
    GateKeepsMidRun(cfg, before, dead, h, m, t, e);
    EndKeepsMidRun(cfg, before, dead, h, m, t, e);
    CommitKeepsMidRun(before, dead, h, m, t, e);
    hide GateStep, EndStep, CommitStep, MidRun;
  }

  lemma {:induction false} RunKeepsMidRun(cfg: Config, before: seq<Message>, dead: seq<Message>, h: nat, m: Message,
                                          s: System, es: seq<Event>)
    requires MidRun(before, dead, h, m, s) && forall e :: e in es ==> OfHandler(e)
    ensures MidRun(before, dead, h, m, Execute(cfg, s, es))
  {
    if es == [] {
    } else {
      var n := |es| - 1;
      assert es[n] in es && forall e :: e in es[..n] ==> e in es;
      hide Step, MidRun, OfHandler;
      RunKeepsMidRun(cfg, before, dead, h, m, s, es[..n]);
      StepKeepsMidRun(cfg, before, dead, h, m, Execute(cfg, s, es[..n]), es[n]);
    }
  }

  /** A run that has not been overtaken, with no claim in between, keeps everything the pipeline keeps. */
  lemma {:induction false} RunKeepsProgress(cfg: Config, s: System, es: seq<Event>)
    requires Sound(cfg, s) && !Overtaken(s) && forall e :: e in es ==> !e.Claim?
    ensures var t := Execute(cfg, s, es);
      && Sound(cfg, t) && !Overtaken(t)
      && Rank(t.status) >= Rank(s.status) && (Terminal(s.status) ==> t.status == s.status)
  {
    if es == [] {
    } else {
      var n := |es| - 1;
      assert es[n] in es && forall e :: e in es[..n] ==> e in es;
      hide Step, Sound, Overtaken, Rank, Terminal;
      RunKeepsProgress(cfg, s, es[..n]);
      var t := Execute(cfg, s, es[..n]);
      StepKeepsSound(cfg, t, es[n]);
      StepOvertakes(cfg, t, es[n]);
      StepKeepsProgress(cfg, t, es[n]);
    }
  }

  lemma HandledLeaves(cfg: Config, s: System, p: ParseWorld, x: ExtractWorld)
    requires At(s, Gate)
    ensures MidRun(s.queue, s.dead, s.handoffs, s.run.value.msg, Handled(cfg, s, p, x))
    ensures Sound(cfg, s) ==>
      var t := Handled(cfg, s, p, x);
      && Sound(cfg, t) && Rank(t.status) >= Rank(s.status) && (Terminal(s.status) ==> t.status == s.status)
  {
    var es := if s.run.value.msg.stage == Parse then ParseSteps(cfg, s, p) else ExtractSteps(cfg, s, x);
    StepsAreOfHandler(cfg, s, p, x);
    assert Sound(cfg, s) ==> !Overtaken(s);
    hide ParseSteps, ExtractSteps, Execute, Sound, Overtaken, Rank, Terminal;
    RunKeepsMidRun(cfg, s.queue, s.dead, s.handoffs, s.run.value.msg, s, es);
    if Sound(cfg, s) {
      RunKeepsProgress(cfg, s, es);
    }
  }

  lemma DeliveryLeaves(cfg: Config, s: System, i: nat)
    requires i < |s.queue| && s.run.None?
    ensures Sound(cfg, s) ==> Sound(cfg, Step(cfg, s, Deliver(i))) && Sound(cfg, Step(cfg, s, DeadLetter(i)))
    ensures s.queue[i].receives < cfg.maxReceives ==>
      var t := Step(cfg, s, Deliver(i));
      && At(t, Gate) && t.run.value.msg == s.queue[i].(receives := s.queue[i].receives + 1)
      && t.queue == Remove(s.queue, i) && t.dead == s.dead && t.status == s.status && t.handoffs == s.handoffs
    ensures s.queue[i].receives >= cfg.maxReceives ==>
      var t := Step(cfg, s, DeadLetter(i));
      && t.queue == Remove(s.queue, i) && t.dead == s.dead + [s.queue[i]] && t.status == s.status
      && t.handoffs == s.handoffs && t.run.None?
  {
    if Sound(cfg, s) {
      StepKeepsSound(cfg, s, Deliver(i));
      StepKeepsSound(cfg, s, DeadLetter(i));
    }
    hide RowSound, RunSound, SweepsSound;
  }

  lemma AckLeaves(cfg: Config, t: System)
    requires At(t, Returning)
    ensures Step(cfg, t, Ack) == t.(run := None)
    ensures Sound(cfg, t) ==> Sound(cfg, Step(cfg, t, Ack))
  {
    if Sound(cfg, t) {
      StepKeepsSound(cfg, t, Ack);
    }
    hide RowSound, RunSound, SweepsSound;
  }

  lemma CountsAtMostOnce(cfg: Config, s: System)
    requires Sound(cfg, s)
    ensures s.handoffs <= 1 && s.routed <= 1 && (s.routed == 1 ==> Terminal(s.status))
    ensures Terminal(s.status) ==> s.routed == if Routed(s.status) then 1 else 0
  {
  }

  /** The message in the run's hands, one more receive on it. */
  function Taken(s: System, i: nat): System
    requires i < |s.queue|
  {
    var m := s.queue[i];
    s.(queue := s.queue[..i] + s.queue[i + 1..], deliveries := s.deliveries + 1,
       run := Some(Run(Message(m.stage, m.defers, m.redrives, m.receives + 1), Gate, false)))
  }

  lemma DeliverTakes(cfg: Config, s: System, i: nat)
    requires i < |s.queue| && s.run.None? && s.queue[i].receives < cfg.maxReceives
    ensures Step(cfg, s, Deliver(i)) == Taken(s, i) && AtStage(Taken(s, i), Gate, s.queue[i].stage)
  {
  }

  lemma AckShows(cfg: Config, s: System, e: Ending, t: System)
    requires s.run.Some? && Ends(s, e, t)
    ensures e.returned <==> t.run.Some?
    ensures Shows(s, e, if e.returned then [] else [s.run.value.msg], if t.run.None? then t else Step(cfg, t, Ack))
  {
  }

  /** What a poll leaves, from the message it took. */
  lemma PolledEnds(cfg: Config, s: System, i: nat, p: ParseWorld, x: ExtractWorld)
    requires i < |s.queue| && s.run.None? && s.queue[i].receives < cfg.maxReceives
    ensures var taken := Taken(s, i);
      var e := if s.queue[i].stage == Parse then ParseEnding(cfg, taken, p) else ExtractEnding(cfg, taken, x);
      && (e.returned <==> Acknowledged(cfg, s, i, p, x))
      && Shows(taken, e, if e.returned then [] else [taken.run.value.msg], Polled(cfg, s, i, p, x))
  {
    var taken := Taken(s, i);
    DeliverTakes(cfg, s, i);
    assert s.queue[i].stage == Parse || s.queue[i].stage == Extract;
    hide Step, Taken, Ends, Shows, ParseEnding, ExtractEnding, ParseSteps, ExtractSteps;
    if s.queue[i].stage == Parse {
      ParseEnds(cfg, taken, p);
      AckShows(cfg, taken, ParseEnding(cfg, taken, p), Handled(cfg, taken, p, x));
    } else {
      ExtractEnds(cfg, taken, x);
      AckShows(cfg, taken, ExtractEnding(cfg, taken, x), Handled(cfg, taken, p, x));
    }
  }

  lemma PollLeaves(cfg: Config, s: System, i: nat, p: ParseWorld, x: ExtractWorld)
    requires i < |s.queue| && s.run.None?
    requires s.queue[i].receives < cfg.maxReceives ==>
      var t := Handled(cfg, Step(cfg, s, Deliver(i)), p, x); t.run.None? || At(t, Returning)
    ensures PollOutcome(cfg, s, i, Acknowledged(cfg, s, i, p, x), Polled(cfg, s, i, p, x))
  {
    hide Step, Handled, Sound, Rank, Terminal, Joins;
    DeliveryLeaves(cfg, s, i);
    if s.queue[i].receives < cfg.maxReceives {
      var t := Handled(cfg, Step(cfg, s, Deliver(i)), p, x);
      HandledLeaves(cfg, Step(cfg, s, Deliver(i)), p, x);
      if t.run.Some? {
        AckLeaves(cfg, t);
      }
    }
    if Sound(cfg, s) {
      CountsAtMostOnce(cfg, s);
      CountsAtMostOnce(cfg, Polled(cfg, s, i, p, x));
    }
  }

  /** A redelivery of a stage already completed changes nothing: no write, no send, one receive. */
  lemma DuplicateIsNoOp(cfg: Config, s: System, p: ParseWorld, x: ExtractWorld)
    requires At(s, Gate) && !Accepts(s.run.value.msg.stage, s.status)
    requires !p.interrupted && !Defers(cfg, s, p.saturated)
    requires !x.interrupted && !Defers(cfg, s, x.saturated) && !x.providerDown
    ensures Step(cfg, Handled(cfg, s, p, x), Ack) == s.(run := None)
  {
    ExecuteThree(cfg, s, Guard, Ack, Ack);
  }
}
