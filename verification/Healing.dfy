/**
  The sweeps (packages/core/docfactory_core/healing.py) over a whole table of
  documents: the stuck-document reaper with its report, and the bounded redrive
  of a dead-letter queue.
 */
module Healing {
  import opened Common
  import opened Pipeline

  type DocumentId = nat
  type Tenant = nat

  datatype Row = Row(status: Status, tenant: Tenant, reapCount: nat, updatedAt: int)

  /** What the scan returned for one document. */
  datatype Candidate = Candidate(id: DocumentId, status: Status, owner: Tenant)

  datatype Send = Send(stage: Stage, id: DocumentId, owner: Tenant)

  datatype SweepConfig = SweepConfig(
    cutoff: int, now: int, stages: Option<set<Stage>>, giveUpAfter: Option<nat>, overBudget: set<Tenant>)

  datatype Verdict = Ignored | SkippedStage | SkippedBudget | Raced | GaveUp | Requeued

  /** The decision about one candidate, from the row as it is when its turn comes. */
  function Decide(cfg: SweepConfig, rows: map<DocumentId, Row>, c: Candidate): Verdict
  {
    var stage := RequeueStage(c.status);
    if stage.None? then Ignored
    else if cfg.stages.Some? && stage.value !in cfg.stages.value then SkippedStage
    else if c.status.BudgetExceeded? then
      if c.owner in cfg.overBudget then SkippedBudget else Requeued
    else if cfg.giveUpAfter.None? then Requeued
    else if c.id !in rows || rows[c.id].updatedAt >= cfg.cutoff || Terminal(rows[c.id].status) then Raced
    else if rows[c.id].reapCount + 1 > cfg.giveUpAfter.value then GaveUp
    else Requeued
  }

  /** Only a counting sweep writes, and never to a budget-paused document. */
  predicate Claims(cfg: SweepConfig, rows: map<DocumentId, Row>, c: Candidate)
  {
    && cfg.giveUpAfter.Some? && !c.status.BudgetExceeded?
    && (Decide(cfg, rows, c).GaveUp? || Decide(cfg, rows, c).Requeued?)
  }

  function MessageFor(c: Candidate): Send
    requires RequeueStage(c.status).Some?
  {
    Send(RequeueStage(c.status).value, c.id, c.owner)
  }

  function RowsAfter(cfg: SweepConfig, rows: map<DocumentId, Row>, c: Candidate): map<DocumentId, Row>
  {
    if !Claims(cfg, rows, c) then rows
    else
      var row := rows[c.id];
      var status := if Decide(cfg, rows, c).GaveUp? then Failed else row.status;
      rows[c.id := Row(status, row.tenant, row.reapCount + 1, cfg.now)]
  }

  /** The table after the candidates, in order. */
  function Swept(cfg: SweepConfig, rows: map<DocumentId, Row>, cs: seq<Candidate>): map<DocumentId, Row>
  {
    if cs == [] then rows
    else RowsAfter(cfg, Swept(cfg, rows, cs[..|cs| - 1]), cs[|cs| - 1])
  }

  function Verdicts(cfg: SweepConfig, rows: map<DocumentId, Row>, cs: seq<Candidate>): (vs: seq<Verdict>)
    ensures |vs| == |cs|
  {
    if cs == [] then []
    else Verdicts(cfg, rows, cs[..|cs| - 1]) + [Decide(cfg, Swept(cfg, rows, cs[..|cs| - 1]), cs[|cs| - 1])]
  }

  function Sent(cfg: SweepConfig, rows: map<DocumentId, Row>, cs: seq<Candidate>): seq<Send>
  {
    if cs == [] then []
    else
      var before := cs[..|cs| - 1];
      var c := cs[|cs| - 1];
      Sent(cfg, rows, before)
        + if Decide(cfg, Swept(cfg, rows, before), c).Requeued? then [MessageFor(c)] else []
  }

  function Count(v: Verdict, vs: seq<Verdict>): nat
  {
    if vs == [] then 0 else Count(v, vs[..|vs| - 1]) + if vs[|vs| - 1] == v then 1 else 0
  }

  datatype ReapReport = ReapReport(
    scanned: nat, requeued: nat, skippedBudget: nat, skippedStage: nat, gaveUp: nat, raced: nat)

  function Tally(vs: seq<Verdict>): ReapReport
  {
    ReapReport(|vs|, Count(Requeued, vs), Count(SkippedBudget, vs), Count(SkippedStage, vs), Count(GaveUp, vs), Count(Raced, vs))
  }

  /** Counting one more candidate. */
  function Add(report: ReapReport, v: Verdict): ReapReport
  {
    var scanned := report.(scanned := report.scanned + 1);
    match v
    case Ignored => scanned
    case SkippedStage => scanned.(skippedStage := report.skippedStage + 1)
    case SkippedBudget => scanned.(skippedBudget := report.skippedBudget + 1)
    case Raced => scanned.(raced := report.raced + 1)
    case GaveUp => scanned.(gaveUp := report.gaveUp + 1)
    case Requeued => scanned.(requeued := report.requeued + 1)
  }

  class Table {
    var rows: map<DocumentId, Row>
    var sends: seq<Send>

    constructor (rows: map<DocumentId, Row>)
      ensures this.rows == rows && sends == []
    {
      this.rows, sends := rows, [];
    }

    /**
      One candidate: claim it, give it up, pass it over, or send its message.
      A send that raises (`up` is false) takes its claim back and ends the sweep.
     */
    method ReapOne(cfg: SweepConfig, c: Candidate, up: bool) returns (v: Verdict, raised: bool)
      modifies this
      ensures v == Decide(cfg, old(rows), c)
      ensures raised <==> v.Requeued? && !up
      ensures rows == if raised then old(rows) else RowsAfter(cfg, old(rows), c)
      ensures sends == old(sends) + if v.Requeued? && up then [MessageFor(c)] else []
    {
      raised := false;
      var stage := RequeueStage(c.status);
      if stage.None? {
        v := Ignored;
        return;
      }
      if cfg.stages.Some? && stage.value !in cfg.stages.value {
        v := SkippedStage;
        return;
      }
      var before := rows;
      if c.status.BudgetExceeded? {
        if c.owner in cfg.overBudget {
          v := SkippedBudget;
          return;
        }
      } else if cfg.giveUpAfter.Some? {
        if c.id !in rows || rows[c.id].updatedAt >= cfg.cutoff || Terminal(rows[c.id].status) {
          v := Raced;
          return;
        }
        var row := rows[c.id];
        var rescues := row.reapCount + 1;
        if rescues > cfg.giveUpAfter.value {
          rows := rows[c.id := Row(Failed, row.tenant, rescues, cfg.now)];
          v := GaveUp;
          return;
        }
        rows := rows[c.id := Row(row.status, row.tenant, rescues, cfg.now)];
      }
      v := Requeued;
      if !up {
        rows := before;
        raised := true;
        return;
      }
      sends := sends + [MessageFor(c)];
    }

    /** The broker accepts `sendable` messages before it raises; the sweep stops at the candidate it raises on. */
    method ReapCandidates(cfg: SweepConfig, candidates: seq<Candidate>, sendable: nat)
      returns (report: ReapReport, handled: nat)
      modifies this
      ensures handled <= |candidates|
      ensures rows == Swept(cfg, old(rows), candidates[..handled])
      ensures sends == old(sends) + Sent(cfg, old(rows), candidates[..handled])
      ensures report == Tally(Verdicts(cfg, old(rows), candidates[..handled]))
      ensures |Sent(cfg, old(rows), candidates[..handled])| <= sendable
      ensures handled < |candidates| ==>
        && Decide(cfg, rows, candidates[handled]).Requeued?
        && |Sent(cfg, old(rows), candidates[..handled])| == sendable
    {
      hide Decide, RowsAfter, Add, Tally;
      ghost var rows0 := rows;
      assert Tally([]) == ReapReport(0, 0, 0, 0, 0, 0) by {
        EmptyTally();
      }
      report := ReapReport(0, 0, 0, 0, 0, 0);
      handled := 0;
      var left: nat := sendable;
      while handled < |candidates|
        invariant handled <= |candidates|
        invariant rows == Swept(cfg, rows0, candidates[..handled])
        invariant sends == old(sends) + Sent(cfg, rows0, candidates[..handled])
        invariant report == Tally(Verdicts(cfg, rows0, candidates[..handled]))
        invariant left + |Sent(cfg, rows0, candidates[..handled])| == sendable
      {
        assert candidates[..handled + 1][..handled] == candidates[..handled];
        ghost var earlier := Verdicts(cfg, rows0, candidates[..handled]);
        var v, raised := ReapOne(cfg, candidates[handled], left > 0);
        if raised {
          return;
        }
        TallyOne(earlier, v);
        report := Add(report, v);
        if v.Requeued? {
          left := left - 1;
        }
        handled := handled + 1;
      }
    }
  }

  lemma EmptyTally()
    ensures Tally([]) == ReapReport(0, 0, 0, 0, 0, 0)
  {
  }

  lemma TallyOne(vs: seq<Verdict>, v: Verdict)
    ensures Tally(vs + [v]) == Add(Tally(vs), v)
  {
    assert (vs + [v])[..|vs|] == vs;
  }

  /** The report balances, and the documents it calls requeued are the messages sent. */
  lemma {:induction false} ReportBalances(cfg: SweepConfig, rows: map<DocumentId, Row>, cs: seq<Candidate>)
    requires forall c :: c in cs ==> !Terminal(c.status)
    ensures var r := Tally(Verdicts(cfg, rows, cs));
      && r.scanned == r.requeued + r.skippedBudget + r.skippedStage + r.gaveUp + r.raced
      && r.requeued == |Sent(cfg, rows, cs)|
  {
    if cs == [] {
    } else {
      var before := cs[..|cs| - 1];
      ReportBalances(cfg, rows, before);
      assert Verdicts(cfg, rows, cs)[..|cs| - 1] == Verdicts(cfg, rows, before);
      assert cs[|cs| - 1] in cs;
    }
  }

  /** A sweep never touches a finished document, and moves a live one only to FAILED past its bound. */
  lemma {:induction false} SweepKeepsFinished(cfg: SweepConfig, rows: map<DocumentId, Row>, cs: seq<Candidate>,
                                              id: DocumentId)
    requires id in rows
    ensures var after := Swept(cfg, rows, cs);
      && id in after
      && (Terminal(rows[id].status) ==> after[id] == rows[id])
      && (after[id].status == rows[id].status
          || (after[id].status == Failed && cfg.giveUpAfter.Some? && after[id].reapCount > cfg.giveUpAfter.value))
  {
    if cs == [] {
    } else {
      SweepKeepsFinished(cfg, rows, cs[..|cs| - 1], id);
    }
  }

  /**
    Within a counting sweep whose writes are no older than its bound, a document
    is claimed at most once however often it was scanned: one send or one
    give-up, never both.
   */
  lemma {:induction false} ClaimedAtMostOnce(cfg: SweepConfig, rows: map<DocumentId, Row>, cs: seq<Candidate>,
                                             id: DocumentId)
    requires id in rows && cfg.giveUpAfter.Some? && cfg.now >= cfg.cutoff
    ensures var after := Swept(cfg, rows, cs);
      && id in after
      && (after[id] == rows[id] || (after[id].reapCount == rows[id].reapCount + 1 && after[id].updatedAt == cfg.now))
  {
    if cs == [] {
    } else {
      ClaimedAtMostOnce(cfg, rows, cs[..|cs| - 1], id);
    }
  }

  // --- a sweep nobody interferes with ----------------------------------------------------

  predicate StaleIn(cfg: SweepConfig, row: Row)
  {
    !Terminal(row.status) && row.updatedAt < cfg.cutoff
  }

  /** The scan of one table: at most `limit` stale live rows, the oldest first, none left out while there is room. */
  ghost predicate ScanOf(cfg: SweepConfig, rows: map<DocumentId, Row>, limit: nat, cs: seq<Candidate>)
  {
    && |cs| <= limit
    && (forall i :: 0 <= i < |cs| ==>
          && cs[i].id in rows && StaleIn(cfg, rows[cs[i].id])
          && cs[i].status == rows[cs[i].id].status && cs[i].owner == rows[cs[i].id].tenant)
    && (forall i, j :: 0 <= i < j < |cs| ==>
          cs[i].id != cs[j].id && rows[cs[i].id].updatedAt <= rows[cs[j].id].updatedAt)
    && (forall id :: id in rows && StaleIn(cfg, rows[id]) && (forall i :: 0 <= i < |cs| ==> cs[i].id != id) ==>
          |cs| == limit && forall i :: 0 <= i < |cs| ==> rows[cs[i].id].updatedAt <= rows[id].updatedAt)
  }

  lemma {:induction false} SweptElsewhere(cfg: SweepConfig, rows: map<DocumentId, Row>, cs: seq<Candidate>,
                                          id: DocumentId)
    requires id in rows && forall i :: 0 <= i < |cs| ==> cs[i].id != id
    ensures id in Swept(cfg, rows, cs) && Swept(cfg, rows, cs)[id] == rows[id]
  {
    if cs == [] {
    } else {
      SweptElsewhere(cfg, rows, cs[..|cs| - 1], id);
    }
  }

  lemma DecidedByOwnRow(cfg: SweepConfig, rows: map<DocumentId, Row>, others: map<DocumentId, Row>, c: Candidate)
    requires c.id in rows && c.id in others && rows[c.id] == others[c.id]
    ensures Decide(cfg, rows, c) == Decide(cfg, others, c)
  {
  }

  lemma StaleIsNotRaced(cfg: SweepConfig, rows: map<DocumentId, Row>, c: Candidate)
    requires c.id in rows && StaleIn(cfg, rows[c.id]) && c.status == rows[c.id].status
    ensures !Decide(cfg, rows, c).Raced? && !Decide(cfg, rows, c).Ignored?
  {
  }

  /** Over a fresh scan every candidate is decided by its own row as scanned, and none is raced. */
  lemma {:induction false} FreshScanIsNotRaced(cfg: SweepConfig, rows: map<DocumentId, Row>, limit: nat,
                                               cs: seq<Candidate>, i: nat)
    requires ScanOf(cfg, rows, limit, cs) && i < |cs|
    ensures Decide(cfg, Swept(cfg, rows, cs[..i]), cs[i]) == Decide(cfg, rows, cs[i])
    ensures !Decide(cfg, rows, cs[i]).Raced? && !Decide(cfg, rows, cs[i]).Ignored?
  {
    hide Swept, RowsAfter, Decide, StaleIn;
    SweptElsewhere(cfg, rows, cs[..i], cs[i].id);
    DecidedByOwnRow(cfg, rows, Swept(cfg, rows, cs[..i]), cs[i]);
    StaleIsNotRaced(cfg, rows, cs[i]);
  }

  /** The messages about one document, in order. */
  function MessagesTo(id: DocumentId, sends: seq<Send>): seq<Send>
  {
    if sends == [] then []
    else MessagesTo(id, sends[..|sends| - 1]) + if sends[|sends| - 1].id == id then [sends[|sends| - 1]] else []
  }

  lemma {:induction false} MessagesToAdd(id: DocumentId, sends: seq<Send>, m: Send)
    ensures MessagesTo(id, sends + [m]) == MessagesTo(id, sends) + if m.id == id then [m] else []
  {
    assert (sends + [m])[..|sends|] == sends;
  }

  /** One more candidate adds at most its own message. */
  lemma {:induction false} MessagesStep(cfg: SweepConfig, rows: map<DocumentId, Row>, cs: seq<Candidate>,
                                        id: DocumentId)
    requires cs != []
    ensures var (before, c) := (cs[..|cs| - 1], cs[|cs| - 1]);
      MessagesTo(id, Sent(cfg, rows, cs)) == MessagesTo(id, Sent(cfg, rows, before))
        + if Decide(cfg, Swept(cfg, rows, before), c).Requeued? && c.id == id then [MessageFor(c)] else []
  {
    hide Swept, MessagesTo;
    var before, c := cs[..|cs| - 1], cs[|cs| - 1];
    var earlier := Sent(cfg, rows, before);
    if Decide(cfg, Swept(cfg, rows, before), c).Requeued? {
      MessagesToAdd(id, earlier, MessageFor(c));
    } else {
      assert earlier + [] == earlier;
    }
  }

  lemma {:induction false} NotScanned(cfg: SweepConfig, rows: map<DocumentId, Row>, cs: seq<Candidate>, id: DocumentId)
    requires forall i :: 0 <= i < |cs| ==> cs[i].id != id
    ensures MessagesTo(id, Sent(cfg, rows, cs)) == []
  {
    if cs == [] {
    } else {
      hide Decide, Swept, Sent, MessagesTo;
      NotScanned(cfg, rows, cs[..|cs| - 1], id);
      MessagesStep(cfg, rows, cs, id);
    }
  }

  /** Scanned once, a document is decided once, by its own row: one verdict, one row after it, its messages. */
  lemma {:induction false} DecidedOnce(cfg: SweepConfig, rows: map<DocumentId, Row>, cs: seq<Candidate>, i: nat)
    requires i < |cs| && forall j :: 0 <= j < |cs| ==> cs[j].id in rows
    requires forall j, k :: 0 <= j < k < |cs| ==> cs[j].id != cs[k].id
    ensures var (id, v) := (cs[i].id, Decide(cfg, rows, cs[i]));
      && Verdicts(cfg, rows, cs)[i] == v
      && id in Swept(cfg, rows, cs) && Swept(cfg, rows, cs)[id] == RowsAfter(cfg, rows, cs[i])[id]
      && MessagesTo(id, Sent(cfg, rows, cs)) == if v.Requeued? then [MessageFor(cs[i])] else []
  {
    var before, c := cs[..|cs| - 1], cs[|cs| - 1];
    var swept, id := Swept(cfg, rows, before), cs[i].id;
    assert Swept(cfg, rows, cs) == RowsAfter(cfg, swept, c);
    assert Verdicts(cfg, rows, cs) == Verdicts(cfg, rows, before) + [Decide(cfg, swept, c)];
    hide Decide, Swept, Sent, Verdicts, MessagesTo;
    MessagesStep(cfg, rows, cs, id);
    if i == |cs| - 1 {
      SweptElsewhere(cfg, rows, before, id);
      DecidedByOwnRow(cfg, rows, swept, c);
      NotScanned(cfg, rows, before, id);
    } else {
      assert before[i] == cs[i];
      DecidedOnce(cfg, rows, before, i);
    }
  }

  /** The stage that takes a live document on. */
  function StageOf(status: Status): Stage
  {
    if status in {Received, Parsing} then Parse else Extract
  }

  /**
    What a fresh sweep makes of each scanned document, in its own row: passed
    over if its stage is not asked for, or if it is paused and its tenant still
    over budget; failed if counting has spent its rescues; otherwise sent exactly
    one message, to the stage that takes it on, and counted if the sweep counts.
   */
  lemma {:induction false} SweepOfScan(cfg: SweepConfig, rows: map<DocumentId, Row>, limit: nat, cs: seq<Candidate>,
                                       i: nat)
    requires ScanOf(cfg, rows, limit, cs) && i < |cs|
    ensures var (id, v) := (cs[i].id, Verdicts(cfg, rows, cs)[i]);
      id in Swept(cfg, rows, cs) &&
      var row, after, sent := rows[id], Swept(cfg, rows, cs)[id], MessagesTo(id, Sent(cfg, rows, cs));
      if cfg.stages.Some? && StageOf(row.status) !in cfg.stages.value then v == SkippedStage && after == row && sent == []
      else if row.status == BudgetExceeded && row.tenant in cfg.overBudget then
        v == SkippedBudget && after == row && sent == []
      else if row.status == BudgetExceeded || cfg.giveUpAfter == None then
        v == Requeued && after == row && sent == [Send(StageOf(row.status), id, row.tenant)]
      else if row.reapCount >= cfg.giveUpAfter.value then
        v == GaveUp && after == Row(Failed, row.tenant, row.reapCount + 1, cfg.now) && sent == []
      else
        && v == Requeued && after == Row(row.status, row.tenant, row.reapCount + 1, cfg.now)
        && sent == [Send(StageOf(row.status), id, row.tenant)]
  {
    hide Swept, Sent, Verdicts, MessagesTo;
    DecidedOnce(cfg, rows, cs, i);
    assert RequeueStage(cs[i].status) == Some(StageOf(cs[i].status));
  }

  /** And nothing else happens: other rows stay, and every message is one of those, of a stage asked for. */
  lemma {:induction false} SweepDoesNoMore(cfg: SweepConfig, rows: map<DocumentId, Row>, limit: nat, cs: seq<Candidate>,
                                           id: DocumentId)
    requires ScanOf(cfg, rows, limit, cs) && id in rows
    ensures (forall i :: 0 <= i < |cs| ==> cs[i].id != id) ==>
      id in Swept(cfg, rows, cs) && Swept(cfg, rows, cs)[id] == rows[id] && MessagesTo(id, Sent(cfg, rows, cs)) == []
    ensures forall m :: m in Sent(cfg, rows, cs) ==>
      && m.id in rows && StaleIn(cfg, rows[m.id]) && m.stage == StageOf(rows[m.id].status)
      && (cfg.stages.Some? ==> m.stage in cfg.stages.value)
  {
    hide ScanOf, Swept, Decide;
    if forall i :: 0 <= i < |cs| ==> cs[i].id != id {
      SweptElsewhere(cfg, rows, cs, id);
      NotScanned(cfg, rows, cs, id);
    }
    forall m | m in Sent(cfg, rows, cs)
      ensures m.id in rows && StaleIn(cfg, rows[m.id]) && m.stage == StageOf(rows[m.id].status)
      ensures cfg.stages.Some? ==> m.stage in cfg.stages.value
    {
      var i := SentIsScanned(cfg, rows, cs, m);
      SentIsAsked(cfg, rows, limit, cs, i, m);
    }
  }

  lemma {:induction false} SentIsScanned(cfg: SweepConfig, rows: map<DocumentId, Row>, cs: seq<Candidate>, m: Send)
    returns (i: nat)
    requires m in Sent(cfg, rows, cs)
    ensures i < |cs| && m.id == cs[i].id && m in MessagesTo(cs[i].id, Sent(cfg, rows, cs))
  {
    var before, c := cs[..|cs| - 1], cs[|cs| - 1];
    hide Decide, Swept;
    var sent := Sent(cfg, rows, before);
    if m in sent {
      i := SentIsScanned(cfg, rows, before, m);
    } else {
      i := |cs| - 1;
    }
    if Sent(cfg, rows, cs) != sent {
      MessagesToAdd(m.id, sent, MessageFor(c));
    }
  }

  lemma {:induction false} SentIsAsked(cfg: SweepConfig, rows: map<DocumentId, Row>, limit: nat, cs: seq<Candidate>,
                                       i: nat, m: Send)
    requires ScanOf(cfg, rows, limit, cs) && i < |cs| && m in MessagesTo(cs[i].id, Sent(cfg, rows, cs))
    ensures cs[i].id in rows && StaleIn(cfg, rows[cs[i].id]) && m.stage == StageOf(rows[cs[i].id].status)
    ensures cfg.stages.Some? ==> m.stage in cfg.stages.value
  {
    hide Swept, Sent, Verdicts, MessagesTo;
    SweepOfScan(cfg, rows, limit, cs, i);
  }

  /** Where a verdict stands in the list. */
  function Indices(v: Verdict, vs: seq<Verdict>): set<nat>
  {
    set i: nat | 0 <= i < |vs| && vs[i] == v
  }

  lemma OneMoreIndex(v: Verdict, vs: seq<Verdict>)
    requires vs != []
    ensures var (n, before) := (|vs| - 1, vs[..|vs| - 1]);
      n !in Indices(v, before) && Indices(v, vs) == Indices(v, before) + if vs[n] == v then {n} else {}
  {
  }

  lemma {:induction false} CountIsCardinality(v: Verdict, vs: seq<Verdict>)
    ensures Count(v, vs) == |Indices(v, vs)|
  {
    if vs == [] {
      assert Indices(v, []) == {};
    } else {
      CountIsCardinality(v, vs[..|vs| - 1]);
      OneMoreIndex(v, vs);
      hide Indices;
    }
  }

  /** The scanned documents that end up failed. */
  function FailedIn(after: map<DocumentId, Row>, cs: seq<Candidate>): set<nat>
  {
    set i: nat | 0 <= i < |cs| && cs[i].id in after && after[cs[i].id].status == Failed
  }

  /** Those of a stage that was not asked for. */
  function OutOfStage(cfg: SweepConfig, cs: seq<Candidate>): set<nat>
  {
    set i: nat | 0 <= i < |cs| && cfg.stages.Some? && StageOf(cs[i].status) !in cfg.stages.value
  }

  /** Those a message was sent about. */
  function SentAbout(sent: seq<Send>, cs: seq<Candidate>): set<nat>
  {
    set i: nat | 0 <= i < |cs| && MessagesTo(cs[i].id, sent) != []
  }

  lemma {:induction false} VerdictOfScan(cfg: SweepConfig, rows: map<DocumentId, Row>, limit: nat, cs: seq<Candidate>,
                                         i: nat)
    requires ScanOf(cfg, rows, limit, cs) && i < |cs|
    ensures var (v, after) := (Verdicts(cfg, rows, cs)[i], Swept(cfg, rows, cs));
      && v != Raced
      && (v == GaveUp <==> cs[i].id in after && after[cs[i].id].status == Failed)
      && (v == SkippedStage <==> cfg.stages.Some? && StageOf(cs[i].status) !in cfg.stages.value)
      && (v == Requeued <==> MessagesTo(cs[i].id, Sent(cfg, rows, cs)) != [])
  {
    hide Verdicts, Swept, Sent, MessagesTo, StageOf;
    SweepOfScan(cfg, rows, limit, cs, i);
  }

  /**
    The report of a fresh sweep, in the documents: who was failed, who was out of
    stage, who was sent, and nobody raced.
   */
  lemma {:induction false} ReportOfScan(cfg: SweepConfig, rows: map<DocumentId, Row>, limit: nat, cs: seq<Candidate>)
    requires ScanOf(cfg, rows, limit, cs)
    ensures var (r, after) := (Tally(Verdicts(cfg, rows, cs)), Swept(cfg, rows, cs));
      && r.scanned == |cs| && r.raced == 0
      && r.gaveUp == |FailedIn(after, cs)|
      && r.skippedStage == |OutOfStage(cfg, cs)|
      && r.requeued == |SentAbout(Sent(cfg, rows, cs), cs)|
  {
    var vs, after, sent := Verdicts(cfg, rows, cs), Swept(cfg, rows, cs), Sent(cfg, rows, cs);
    hide ScanOf, Verdicts, Swept, Sent, MessagesTo, StageOf, Count;
    forall i | 0 <= i < |cs|
      ensures i !in Indices(Raced, vs)
      ensures i in Indices(GaveUp, vs) <==> i in FailedIn(after, cs)
      ensures i in Indices(SkippedStage, vs) <==> i in OutOfStage(cfg, cs)
      ensures i in Indices(Requeued, vs) <==> i in SentAbout(sent, cs)
    {
      VerdictOfScan(cfg, rows, limit, cs, i);
    }
    assert Indices(Raced, vs) == {};
    assert Indices(GaveUp, vs) == FailedIn(after, cs);
    assert Indices(SkippedStage, vs) == OutOfStage(cfg, cs);
    assert Indices(Requeued, vs) == SentAbout(sent, cs);
    hide Indices, FailedIn, OutOfStage, SentAbout;
    CountIsCardinality(Raced, vs);
    CountIsCardinality(GaveUp, vs);
    CountIsCardinality(SkippedStage, vs);
    CountIsCardinality(Requeued, vs);
  }

  // --- one document's part in it ---------------------------------------------------------

  /** The row as the pipeline of that one document sees it. */
  predicate Projects(row: Row, s: System)
  {
    row.status == s.status && row.reapCount == s.reapCount && row.updatedAt == s.updatedAt
  }

  /** The pipeline event a decision about scan k is. */
  function EventOf(cfg: SweepConfig, rows: map<DocumentId, Row>, c: Candidate, k: nat): Event
  {
    match Decide(cfg, rows, c)
    case Requeued => if cfg.giveUpAfter.None? || c.status.BudgetExceeded? then Poll(k) else Claim(k, true)
    case GaveUp => Claim(k, true)
    case Raced => Claim(k, true)
    case _ => Skip(k)
  }

  /** What the sweep does to a table is, document by document, what the pipeline's healer step does. */
  lemma ReapOneIsHealerStep(cfg: SweepConfig, p: Config, rows: map<DocumentId, Row>, s: System, c: Candidate, k: nat)
    requires SweepsSound(p, s) && k < |s.scans| && s.scans[k] == Scan(c.status, cfg.cutoff)
    requires cfg.now == s.clock && (cfg.giveUpAfter.Some? ==> cfg.giveUpAfter.value == p.giveUpAfter)
    requires c.id in rows && Projects(rows[c.id], s)
    ensures var after := Step(p, s, EventOf(cfg, rows, c, k));
      && c.id in RowsAfter(cfg, rows, c) && Projects(RowsAfter(cfg, rows, c)[c.id], after)
      && after.scans == Remove(s.scans, k)
      && after.queue == s.queue + if Decide(cfg, rows, c).Requeued? then [Fresh(MessageFor(c).stage)] else []
    ensures forall id :: id in rows && id != c.id ==> id in RowsAfter(cfg, rows, c) && RowsAfter(cfg, rows, c)[id] == rows[id]
  {
    assert !Terminal(s.scans[k].status);
    hide SweepsSound;
  }

  /** A send that raises is a claim taken back: row and queue stay, the scan is spent. */
  lemma RaisedSendIsHealerStep(cfg: SweepConfig, p: Config, rows: map<DocumentId, Row>, s: System, c: Candidate, k: nat)
    requires SweepsSound(p, s) && k < |s.scans| && s.scans[k] == Scan(c.status, cfg.cutoff)
    requires cfg.giveUpAfter == Some(p.giveUpAfter) && !c.status.BudgetExceeded?
    requires c.id in rows && Projects(rows[c.id], s) && Decide(cfg, rows, c).Requeued?
    ensures var after := Step(p, s, Claim(k, false));
      Projects(rows[c.id], after) && after.queue == s.queue && after.scans == Remove(s.scans, k)
  {
    hide SweepsSound;
  }

  // --- the dead-letter queue -----------------------------------------------------------

  /** A dead-lettered message: whether its body parses, and its redrive counter. */
  datatype Dead = Dead(readable: bool, attempt: nat, body: nat)

  predicate Movable(m: Dead, maxAttempts: nat)
  {
    m.readable && m.attempt < maxAttempts
  }

  function Kept(ms: seq<Dead>, maxAttempts: nat): seq<Dead>
  {
    if ms == [] then []
    else Kept(ms[..|ms| - 1], maxAttempts) + if Movable(ms[|ms| - 1], maxAttempts) then [] else [ms[|ms| - 1]]
  }

  function Moved(ms: seq<Dead>, maxAttempts: nat): seq<Dead>
  {
    if ms == [] then []
    else
      var last := ms[|ms| - 1];
      Moved(ms[..|ms| - 1], maxAttempts) + if Movable(last, maxAttempts) then [last.(attempt := last.attempt + 1)] else []
  }

  function Exhausted(ms: seq<Dead>, maxAttempts: nat): nat
  {
    if ms == [] then 0
    else
      var last := ms[|ms| - 1];
      Exhausted(ms[..|ms| - 1], maxAttempts) + if last.readable && last.attempt >= maxAttempts then 1 else 0
  }

  lemma {:induction false} NothingSeen(maxAttempts: nat)
    ensures Kept([], maxAttempts) == Moved([], maxAttempts) == [] && Exhausted([], maxAttempts) == 0
  {
  }

  lemma {:induction false} OneMoreSeen(ms: seq<Dead>, i: nat, maxAttempts: nat)
    requires i < |ms|
    ensures var m := ms[i];
      && Kept(ms[..i + 1], maxAttempts) == Kept(ms[..i], maxAttempts) + (if Movable(m, maxAttempts) then [] else [m])
      && Moved(ms[..i + 1], maxAttempts)
           == Moved(ms[..i], maxAttempts) + (if Movable(m, maxAttempts) then [m.(attempt := m.attempt + 1)] else [])
      && Exhausted(ms[..i + 1], maxAttempts)
           == Exhausted(ms[..i], maxAttempts) + (if m.readable && m.attempt >= maxAttempts then 1 else 0)
  {
    assert ms[..i + 1][..i] == ms[..i];
  }

  datatype RedriveReport = RedriveReport(moved: nat, exhausted: nat, inspected: nat)

  class DeadLetters {
    var queue: seq<Dead>
    var dead: seq<Dead>

    constructor (queue: seq<Dead>, dead: seq<Dead>)
      ensures this.queue == queue && this.dead == dead
    {
      this.queue, this.dead := queue, dead;
    }

    /**
      Batches of at most ten, until `maxMessages` were inspected or none is
      visible; a message left in place stays invisible for the rest of the loop.
     */
    method RedriveDlq(maxMessages: nat, maxAttempts: nat) returns (report: RedriveReport)
      modifies this
      ensures var n := Min(maxMessages, |old(dead)|);
        var seen := old(dead)[..n];
        && dead == Kept(seen, maxAttempts) + old(dead)[n..]
        && queue == old(queue) + Moved(seen, maxAttempts)
        && report == RedriveReport(|Moved(seen, maxAttempts)|, Exhausted(seen, maxAttempts), n)
    {
      var original := dead;
      var left: seq<Dead> := [];
      NothingSeen(maxAttempts);
      hide Kept, Moved, Exhausted;
      report := RedriveReport(0, 0, 0);
      while report.inspected < maxMessages
        invariant report.inspected <= |original| && report.inspected <= maxMessages
        invariant left == Kept(original[..report.inspected], maxAttempts)
        invariant queue == old(queue) + Moved(original[..report.inspected], maxAttempts)
        invariant report.moved == |Moved(original[..report.inspected], maxAttempts)|
        invariant report.exhausted == Exhausted(original[..report.inspected], maxAttempts)
        decreases maxMessages - report.inspected
      {
        var start := report.inspected;
        var batch := Min(Min(10, maxMessages - start), |original| - start);
        if batch == 0 {
          break;
        }
        for i := start to start + batch
          invariant report.inspected == i
          invariant left == Kept(original[..i], maxAttempts)
          invariant queue == old(queue) + Moved(original[..i], maxAttempts)
          invariant report.moved == |Moved(original[..i], maxAttempts)|
          invariant report.exhausted == Exhausted(original[..i], maxAttempts)
        {
          var m := original[i];
          OneMoreSeen(original, i, maxAttempts);
          report := report.(inspected := report.inspected + 1);
          if !m.readable {
            left := left + [m];
            continue;
          }
          if m.attempt >= maxAttempts {
            report := report.(exhausted := report.exhausted + 1);
            left := left + [m];
            continue;
          }
          queue := queue + [m.(attempt := m.attempt + 1)];
          report := report.(moved := report.moved + 1);
        }
      }
      dead := left + original[report.inspected..];
    }
  }

  /** How many messages carry this body. */
  function Copies(ms: seq<Dead>, body: nat): nat
  {
    if ms == [] then 0 else Copies(ms[..|ms| - 1], body) + if ms[|ms| - 1].body == body then 1 else 0
  }

  lemma {:induction false} CopiesAdd(ms: seq<Dead>, m: Dead, body: nat)
    ensures Copies(ms + [m], body) == Copies(ms, body) + if m.body == body then 1 else 0
  {
    assert (ms + [m])[..|ms|] == ms;
  }

  /** A redrive loses and invents nothing: every message inspected is kept or moved, once. */
  lemma {:induction false} RedriveConserves(ms: seq<Dead>, maxAttempts: nat, body: nat)
    ensures Copies(ms, body) == Copies(Kept(ms, maxAttempts), body) + Copies(Moved(ms, maxAttempts), body)
  {
    if ms == [] {
    } else {
      var before := ms[..|ms| - 1];
      var last := ms[|ms| - 1];
      RedriveConserves(before, maxAttempts, body);
      if Movable(last, maxAttempts) {
        CopiesAdd(Moved(before, maxAttempts), last.(attempt := last.attempt + 1), body);
        assert Kept(ms, maxAttempts) == Kept(before, maxAttempts);
      } else {
        CopiesAdd(Kept(before, maxAttempts), last, body);
        assert Moved(ms, maxAttempts) == Moved(before, maxAttempts);
      }
    }
  }

  lemma {:induction false} MultisetAdd(ms: seq<Dead>, x: Dead, m: Dead)
    ensures multiset(ms + [x])[m] == multiset(ms)[m] + if x == m then 1 else 0
  {
  }

  /**
    Message for message: the readable ones under the bound come home counted once
    more, all others stay as they are.
   */
  lemma {:induction false} RedriveIsExact(ms: seq<Dead>, maxAttempts: nat, m: Dead)
    ensures multiset(Kept(ms, maxAttempts))[m] == if m.readable && m.attempt < maxAttempts then 0 else multiset(ms)[m]
    ensures multiset(Moved(ms, maxAttempts))[m]
      == if m.readable && 1 <= m.attempt <= maxAttempts then multiset(ms)[Dead(true, m.attempt - 1, m.body)] else 0
  {
    if ms == [] {
    } else {
      var before, last := ms[..|ms| - 1], ms[|ms| - 1];
      var kept, moved := Kept(before, maxAttempts), Moved(before, maxAttempts);
      assert ms == before + [last];
      assert Kept(ms, maxAttempts) == if Movable(last, maxAttempts) then kept else kept + [last];
      assert Moved(ms, maxAttempts)
        == if Movable(last, maxAttempts) then moved + [Dead(true, last.attempt + 1, last.body)] else moved;
      hide Kept, Moved;
      RedriveIsExact(before, maxAttempts, m);
      MultisetAdd(before, last, m);
      MultisetAdd(kept, last, m);
      MultisetAdd(moved, Dead(true, last.attempt + 1, last.body), m);
      if m.attempt >= 1 {
        MultisetAdd(before, last, Dead(true, m.attempt - 1, m.body));
      }
    }
  }

  /** One more message inspected. */
  lemma {:induction false} RedriveStep(ms: seq<Dead>, maxAttempts: nat)
    requires ms != []
    ensures var (before, last) := (ms[..|ms| - 1], ms[|ms| - 1]);
      && Kept(ms, maxAttempts) == Kept(before, maxAttempts) + (if Movable(last, maxAttempts) then [] else [last])
      && Moved(ms, maxAttempts) == Moved(before, maxAttempts)
           + (if Movable(last, maxAttempts) then [last.(attempt := last.attempt + 1)] else [])
      && Exhausted(ms, maxAttempts) == Exhausted(before, maxAttempts)
           + (if last.readable && last.attempt >= maxAttempts then 1 else 0)
  {
  }

  /** In order: a redrive of two batches is the redrive of one after the other. */
  lemma {:induction false} RedriveInOrder(first: seq<Dead>, second: seq<Dead>, maxAttempts: nat)
    ensures Kept(first + second, maxAttempts) == Kept(first, maxAttempts) + Kept(second, maxAttempts)
    ensures Moved(first + second, maxAttempts) == Moved(first, maxAttempts) + Moved(second, maxAttempts)
    ensures Exhausted(first + second, maxAttempts) == Exhausted(first, maxAttempts) + Exhausted(second, maxAttempts)
  {
    if second == [] {
      assert first + second == first;
    } else {
      var n := |second| - 1;
      var last, whole := second[n], first + second;
      assert whole[..|whole| - 1] == first + second[..n] && whole[|whole| - 1] == last;
      RedriveStep(whole, maxAttempts);
      RedriveStep(second, maxAttempts);
      hide Kept, Moved, Exhausted;
      RedriveInOrder(first, second[..n], maxAttempts);
    }
  }

  function UsedUp(ms: seq<Dead>, maxAttempts: nat): set<nat>
  {
    set i: nat | 0 <= i < |ms| && ms[i].readable && ms[i].attempt >= maxAttempts
  }

  lemma OneMoreUsedUp(ms: seq<Dead>, maxAttempts: nat)
    requires ms != []
    ensures var (n, before) := (|ms| - 1, ms[..|ms| - 1]);
      && n !in UsedUp(before, maxAttempts)
      && UsedUp(ms, maxAttempts)
           == UsedUp(before, maxAttempts) + (if ms[n].readable && ms[n].attempt >= maxAttempts then {n} else {})
  {
  }

  /** Every message inspected is moved or kept, and the exhausted are the readable ones that used up their attempts. */
  lemma {:induction false} RedriveAccounts(ms: seq<Dead>, maxAttempts: nat)
    ensures |ms| == |Moved(ms, maxAttempts)| + |Kept(ms, maxAttempts)|
    ensures Exhausted(ms, maxAttempts) == |UsedUp(ms, maxAttempts)|
  {
    if ms == [] {
      assert UsedUp([], maxAttempts) == {};
    } else {
      RedriveStep(ms, maxAttempts);
      OneMoreUsedUp(ms, maxAttempts);
      hide Kept, Moved, Exhausted, UsedUp;
      RedriveAccounts(ms[..|ms| - 1], maxAttempts);
      hide UsedUp;
    }
  }

  /** No message comes home more than maxAttempts times, and what stays is unreadable or used up. */
  lemma {:induction false} RedriveIsBounded(ms: seq<Dead>, maxAttempts: nat)
    ensures forall i :: 0 <= i < |Moved(ms, maxAttempts)| ==> 1 <= Moved(ms, maxAttempts)[i].attempt <= maxAttempts
    ensures forall i :: 0 <= i < |Kept(ms, maxAttempts)| ==> !Movable(Kept(ms, maxAttempts)[i], maxAttempts)
  {
    if ms == [] {
    } else {
      RedriveIsBounded(ms[..|ms| - 1], maxAttempts);
    }
  }
}
