/**
  The two ways a document enters: a storage event (packages/core/docfactory_core/ingest.py)
  and an upload (apps/api/docfactory_api/main.py).  Both check for the bytes,
  insert under the unique key (tenant, sha256) and enqueue the parse stage, each
  of these a transaction or call of its own, so callers interleave between them.
 */
module Ingest {
  import opened Common

  datatype Path = Drop | Upload

  datatype Key = Key(tenant: string, sha256: int)

  /** One delivery of some bytes; `isPdf` is a fact about the bytes. */
  datatype Request = Request(path: Path, key: Key)

  /** The id a caller would insert is its own index: ids are never reused. */
  datatype Row = Row(id: nat, failed: bool)

  datatype Phase =
    | Arrived
    | Absent                       // checked, no such row
    | Stored                       // upload only: the object is written
    | Lost                         // the insert violated the unique key
    | Inserted                     // committed, parse message not sent yet
    | Enqueued
    | Answered(id: nat, duplicate: bool)
    | Refused                      // upload only: 400, not a PDF
    | Crashed

  datatype State = State(phases: seq<Phase>, rows: map<Key, Row>, objects: set<Key>, sent: multiset<nat>)

  datatype Event = Check(i: nat) | Put(i: nat) | Insert(i: nat) | Reread(i: nat) | Send(i: nat) | Answer(i: nat)
                 | Crash(i: nat)

  datatype World = World(requests: seq<Request>, pdfs: set<int>)

  function KeyOf(w: World, i: nat): Key
    requires i < |w.requests|
  {
    w.requests[i].key
  }

  predicate IsPdf(w: World, i: nat)
    requires i < |w.requests|
  {
    KeyOf(w, i).sha256 in w.pdfs
  }

  function Initial(w: World): State
  {
    State(seq(|w.requests|, _ => Arrived), map[], {}, multiset{})
  }

  function Enter(s: State, i: nat, phase: Phase): State
    requires i < |s.phases|
  {
    s.(phases := s.phases[i := phase])
  }

  /** The existing row, if the read finds one. */
  function CheckStep(w: World, s: State, i: nat): State
    requires i < |s.phases| == |w.requests|
  {
    if w.requests[i].path == Upload && !IsPdf(w, i) then Enter(s, i, Refused)
    else if KeyOf(w, i) in s.rows then Enter(s, i, Answered(s.rows[KeyOf(w, i)].id, true))
    else Enter(s, i, Absent)
  }

  function InsertStep(w: World, s: State, i: nat): State
    requires i < |s.phases| == |w.requests|
  {
    if KeyOf(w, i) in s.rows then Enter(s, i, Lost)
    else
      var inserted := s.(rows := s.rows[KeyOf(w, i) := Row(i, !IsPdf(w, i))]);
      Enter(inserted, i, if IsPdf(w, i) then Inserted else Answered(i, false))
  }

  function Step(w: World, s: State, e: Event): (t: State)
    requires |s.phases| == |w.requests|
    ensures |t.phases| == |w.requests|
  {
    if e.i >= |s.phases| then s
    else
      var phase, path := s.phases[e.i], w.requests[e.i].path;
      match e
      case Check(i) => if phase == Arrived then CheckStep(w, s, i) else s
      case Put(i) =>
        if phase == Absent && path == Upload then Enter(s, i, Stored).(objects := s.objects + {KeyOf(w, i)}) else s
      case Insert(i) => if phase == (if path == Upload then Stored else Absent) then InsertStep(w, s, i) else s
      case Reread(i) =>
        if phase == Lost && KeyOf(w, i) in s.rows then Enter(s, i, Answered(s.rows[KeyOf(w, i)].id, true)) else s
      case Send(i) =>
        if phase == Inserted then Enter(s, i, Enqueued).(sent := s.sent[i := s.sent[i] + 1]) else s
      case Answer(i) => if phase == Enqueued then Enter(s, i, Answered(i, false)) else s
      case Crash(i) => if phase.Answered? || phase.Refused? then s else Enter(s, i, Crashed)
  }

  function Run(w: World, events: seq<Event>): (s: State)
    ensures |s.phases| == |w.requests|
  {
    if events == [] then Initial(w) else Step(w, Run(w, events[..|events| - 1]), events[|events| - 1])
  }

  // --- the invariant ---------------------------------------------------------------

  /** Who inserted a row, what it says, and that its object was written first. */
  ghost predicate RowSound(w: World, s: State, key: Key)
    requires key in s.rows
  {
    var i := s.rows[key].id;
    && i < |w.requests| == |s.phases|
    && KeyOf(w, i) == key
    && s.rows[key].failed == !IsPdf(w, i)
    && (w.requests[i].path == Upload ==> key in s.objects)
    && s.phases[i] in {Inserted, Enqueued, Answered(i, false), Crashed}
  }

  ghost predicate CallerSound(w: World, s: State, i: nat)
    requires i < |w.requests| == |s.phases|
  {
    var key, phase := KeyOf(w, i), s.phases[i];
    && (phase == Stored ==> key in s.objects)
    && (phase.Lost? ==> key in s.rows && s.rows[key].id != i)
    && (phase.Inserted? || phase.Enqueued? ==> key in s.rows && s.rows[key].id == i && IsPdf(w, i))
    && (phase.Answered? ==> key in s.rows && s.rows[key].id == phase.id && phase.duplicate == (phase.id != i))
    && (w.requests[i].path == Upload && !IsPdf(w, i) ==> phase.Arrived? || phase.Refused? || phase.Crashed?)
    && (phase.Refused? ==> w.requests[i].path == Upload && !IsPdf(w, i))
    && s.sent[i] <= 1
    && (s.sent[i] == 1 ==> phase in {Enqueued, Answered(i, false), Crashed} && key in s.rows && s.rows[key] == Row(i, false))
    && (phase.Enqueued? || (phase == Answered(i, false) && IsPdf(w, i)) ==> s.sent[i] == 1)
  }

  ghost predicate Sound(w: World, s: State)
  {
    && |s.phases| == |w.requests|
    && (forall key :: key in s.rows ==> RowSound(w, s, key))
    && (forall i :: 0 <= i < |w.requests| ==> CallerSound(w, s, i))
    && (forall i :: i in s.sent ==> i < |w.requests|)
  }

  lemma StepKeepsRow(w: World, s: State, e: Event, key: Key)
    requires |s.phases| == |w.requests| && key in Step(w, s, e).rows
    requires key in s.rows ==> RowSound(w, s, key)
    requires e.i < |w.requests| ==> CallerSound(w, s, e.i)
    ensures RowSound(w, Step(w, s, e), key)
  {
  }

  lemma StepKeepsOther(w: World, s: State, e: Event, i: nat)
    requires i < |w.requests| == |s.phases| && e.i != i && CallerSound(w, s, i)
    ensures CallerSound(w, Step(w, s, e), i)
  {
  }

  lemma StepKeepsCaller(w: World, s: State, e: Event)
    requires e.i < |w.requests| == |s.phases| && CallerSound(w, s, e.i)
    requires KeyOf(w, e.i) in s.rows ==> RowSound(w, s, KeyOf(w, e.i))
    ensures CallerSound(w, Step(w, s, e), e.i)
  {
  }

  lemma StepKeepsSound(w: World, s: State, e: Event)
    requires Sound(w, s)
    ensures Sound(w, Step(w, s, e))
  {
    var t := Step(w, s, e);
    assert |t.phases| == |w.requests| && forall i :: i in t.sent ==> i in s.sent || i == e.i < |w.requests|;
    hide Step, RowSound, CallerSound;
    forall key | key in t.rows ensures RowSound(w, t, key) {
      StepKeepsRow(w, s, e, key);
    }
    forall i | 0 <= i < |w.requests| ensures CallerSound(w, t, i) {
      if i == e.i {
        StepKeepsCaller(w, s, e);
      } else {
        StepKeepsOther(w, s, e, i);
      }
    }
  }

  lemma {:induction false} RunIsSound(w: World, events: seq<Event>)
    ensures Sound(w, Run(w, events))
  {
    if events == [] {
    } else {
      RunIsSound(w, events[..|events| - 1]);
      hide Step;
      StepKeepsSound(w, Run(w, events[..|events| - 1]), events[|events| - 1]);
    }
  }

  // --- what callers see ------------------------------------------------------------

  /** Whatever raced, whichever way they came: same tenant and bytes, same document; else different ones. */
  lemma {:induction false} OneDocumentPerContent(w: World, events: seq<Event>, i: nat, j: nat)
    requires i < |w.requests| && j < |w.requests|
    requires Run(w, events).phases[i].Answered? && Run(w, events).phases[j].Answered?
    ensures var s := Run(w, events);
      s.phases[i].id == s.phases[j].id <==> KeyOf(w, i) == KeyOf(w, j)
  {
    hide Run;
    RunIsSound(w, events);
    var s := Run(w, events);
    assert CallerSound(w, s, i) && CallerSound(w, s, j);
    assert RowSound(w, s, KeyOf(w, i)) && RowSound(w, s, KeyOf(w, j));
  }

  /** Exactly one caller per content is told its document is new. */
  lemma {:induction false} OneInserterPerContent(w: World, events: seq<Event>, i: nat, j: nat)
    requires i < |w.requests| && j < |w.requests| && KeyOf(w, i) == KeyOf(w, j)
    requires Run(w, events).phases[i] == Answered(i, false) && Run(w, events).phases[j].Answered?
    ensures Run(w, events).phases[j] == Answered(i, j != i)
  {
    hide Run;
    RunIsSound(w, events);
    assert CallerSound(w, Run(w, events), i) && CallerSound(w, Run(w, events), j);
  }

  /** The re-read after a lost race always finds the winner, so a caller never gets an empty id. */
  lemma {:induction false} LoserFindsWinner(w: World, events: seq<Event>, i: nat)
    requires i < |w.requests| && Run(w, events).phases[i] == Lost
    ensures Run(w, events + [Reread(i)]).phases[i].Answered?
    ensures Run(w, events + [Reread(i)]).phases[i].duplicate
  {
    assert (events + [Reread(i)])[..|events|] == events;
    RunIsSound(w, events);
    assert CallerSound(w, Run(w, events), i);
  }

  /** At most one first parse message per content, from the inserter, and only for a PDF. */
  lemma {:induction false} OneFirstParsePerContent(w: World, events: seq<Event>, i: nat, j: nat)
    requires i in Run(w, events).sent && j in Run(w, events).sent
    ensures i < |w.requests| && j < |w.requests| && Run(w, events).sent[i] == 1
    ensures IsPdf(w, i) && KeyOf(w, i) in Run(w, events).rows && Run(w, events).rows[KeyOf(w, i)] == Row(i, false)
    ensures KeyOf(w, i) == KeyOf(w, j) ==> i == j
  {
    hide Run;
    RunIsSound(w, events);
    var s := Run(w, events);
    assert CallerSound(w, s, i) && CallerSound(w, s, j);
    assert RowSound(w, s, KeyOf(w, i));
  }

  lemma StepKeepsRows(w: World, s: State, e: Event, key: Key)
    requires |s.phases| == |w.requests| && key in s.rows
    ensures key in Step(w, s, e).rows && Step(w, s, e).rows[key] == s.rows[key]
  {
  }

  /** A row, once there, keeps its id and its verdict. */
  lemma {:induction false} RowsStay(w: World, events: seq<Event>, n: nat, key: Key)
    requires n <= |events| && key in Run(w, events[..n]).rows
    ensures key in Run(w, events).rows && Run(w, events).rows[key] == Run(w, events[..n]).rows[key]
  {
    if n == |events| {
      assert events[..n] == events;
    } else {
      var before := events[..|events| - 1];
      assert before[..n] == events[..n];
      RowsStay(w, before, n, key);
      hide Step;
      StepKeepsRows(w, Run(w, before), events[|events| - 1], key);
    }
  }

  /**
    Once every caller with these bytes has its answer, the content is one row,
    named by one of them, and its parse stage was started exactly once if it is
    a PDF and never otherwise.
   */
  lemma {:induction false} SettledContent(w: World, events: seq<Event>, i: nat)
    requires i < |w.requests|
    requires forall j :: 0 <= j < |w.requests| && KeyOf(w, j) == KeyOf(w, i) ==> Run(w, events).phases[j].Answered?
    ensures var s, key := Run(w, events), KeyOf(w, i);
      && key in s.rows && s.rows[key].id < |w.requests| && KeyOf(w, s.rows[key].id) == key
      && s.sent[s.rows[key].id] == (if IsPdf(w, i) then 1 else 0)
      && forall j :: j in s.sent && j < |w.requests| && KeyOf(w, j) == key ==> j == s.rows[key].id
  {
    hide Run;
    RunIsSound(w, events);
    var s, key := Run(w, events), KeyOf(w, i);
    assert CallerSound(w, s, i);
    assert RowSound(w, s, key);
    assert CallerSound(w, s, s.rows[key].id);
    forall j | j in s.sent && j < |w.requests| && KeyOf(w, j) == key ensures j == s.rows[key].id {
      assert CallerSound(w, s, j);
    }
  }

  /** The object store holds what uploads of PDFs put there, and nothing else. */
  lemma {:induction false} ObjectsAreUploads(w: World, events: seq<Event>, key: Key)
    requires key in Run(w, events).objects
    ensures key.sha256 in w.pdfs && exists i :: 0 <= i < |w.requests| && w.requests[i] == Request(Upload, key)
  {
    var before, e := events[..|events| - 1], events[|events| - 1];
    var s := Run(w, before);
    if key in s.objects {
      hide Step;
      ObjectsAreUploads(w, before, key);
    } else {
      assert e.Put? && e.i < |w.requests| && w.requests[e.i] == Request(Upload, key);
      RunIsSound(w, before);
      assert CallerSound(w, s, e.i);
    }
  }

  /** A PDF row with no first parse message has an inserter that is still to send, or that crashed. */
  lemma {:induction false} UnsentMeansInterrupted(w: World, events: seq<Event>, key: Key)
    requires key in Run(w, events).rows
    ensures var s, id := Run(w, events), Run(w, events).rows[key].id;
      && id < |w.requests| && KeyOf(w, id) == key
      && (s.sent[id] == 0 && !s.rows[key].failed ==> s.phases[id] in {Inserted, Crashed})
  {
    hide Run;
    RunIsSound(w, events);
    assert RowSound(w, Run(w, events), key);
    assert CallerSound(w, Run(w, events), Run(w, events).rows[key].id);
  }

  function After(w: World, s: State, events: seq<Event>): (t: State)
    requires |s.phases| == |w.requests|
    ensures |t.phases| == |w.requests|
    decreases events
  {
    if events == [] then s else After(w, Step(w, s, events[0]), events[1..])
  }

  /** `Run` is the same from the start: a call added to any interleaving is a longer interleaving. */
  lemma {:induction false} RunThenAfter(w: World, before: seq<Event>, events: seq<Event>)
    ensures Run(w, before + events) == After(w, Run(w, before), events)
    decreases events
  {
    hide Step;
    if events == [] {
      assert before + events == before;
    } else {
      var longer := before + [events[0]];
      assert longer + events[1..] == before + events;
      assert longer[..|longer| - 1] == before;
      RunThenAfter(w, longer, events[1..]);
    }
  }

  /** Caller i is dead, and what it did not send it never will. */
  lemma {:induction false} CrashedStays(w: World, s: State, events: seq<Event>, i: nat)
    requires |s.phases| == |w.requests| && i < |s.phases| && s.phases[i] == Crashed
    ensures After(w, s, events).phases[i] == Crashed && After(w, s, events).sent[i] == s.sent[i]
    decreases events
  {
    if events == [] {
    } else {
      CrashedStays(w, Step(w, s, events[0]), events[1..], i);
    }
  }

  /**
    And that is possible: a crash right after the insert leaves the document
    without its first parse message for good, while every later caller with the
    same bytes is told that it is there.  It is the sweep's to find.
   */
  lemma {:induction false} CrashLeavesUnsent(w: World, i: nat, more: seq<Event>) returns (events: seq<Event>)
    requires i < |w.requests| && IsPdf(w, i)
    ensures var s := Run(w, events + more);
      && KeyOf(w, i) in s.rows && s.rows[KeyOf(w, i)] == Row(i, false)
      && s.sent[i] == 0 && s.phases[i] == Crashed
    ensures var s := Run(w, events + more);
      forall j :: 0 <= j < |w.requests| && KeyOf(w, j) == KeyOf(w, i) && s.phases[j].Answered? ==>
        s.phases[j] == Answered(i, true)
  {
    events := [Check(i), Put(i), Insert(i), Crash(i)];
    var crashed := Run(w, events);
    assert Run(w, []) == Initial(w);
    assert events[..3] == [Check(i), Put(i), Insert(i)] && events[..3][..2] == [Check(i), Put(i)];
    assert events[..3][..2][..1] == [Check(i)] && events[..3][..2][..1][..0] == [];
    assert Run(w, events[..3][..2][..1]) == Step(w, Initial(w), Check(i));
    assert Run(w, events[..3][..2]) == Step(w, Run(w, events[..3][..2][..1]), Put(i));
    assert Run(w, events[..3]) == Step(w, Run(w, events[..3][..2]), Insert(i));
    assert crashed.phases[i] == Crashed && crashed.sent[i] == 0;
    assert KeyOf(w, i) in crashed.rows && crashed.rows[KeyOf(w, i)] == Row(i, false);
    hide Step, Run;
    RunThenAfter(w, events, more);
    CrashedStays(w, crashed, more, i);
    assert (events + more)[..4] == events;
    RowsStay(w, events + more, 4, KeyOf(w, i));
    RunIsSound(w, events + more);
    forall j | 0 <= j < |w.requests| && KeyOf(w, j) == KeyOf(w, i) && Run(w, events + more).phases[j].Answered?
      ensures Run(w, events + more).phases[j] == Answered(i, true)
    {
      assert CallerSound(w, Run(w, events + more), j);
      assert CallerSound(w, Run(w, events + more), i);
    }
  }

  // --- the two entry points ----------------------------------------------------------

  datatype Reply = Reply(id: nat, duplicate: bool)

  /** What all callers share: the documents table, the object store and the first parse messages. */
  datatype Store = Store(rows: map<Key, Row>, objects: set<Key>, sent: multiset<nat>)

  /** The rows at the time of the insert: `rival` is what another caller commits for the same bytes just before. */
  function Meanwhile(rows: map<Key, Row>, key: Key, rival: Option<Row>): map<Key, Row>
  {
    if key in rows || rival.None? then rows else rows[key := rival.value]
  }

  /** One whole call under the id it would insert, and what it answers: nothing for a refused upload. */
  function Called(pdfs: set<int>, s: Store, path: Path, key: Key, id: nat, rival: Option<Row>): (Store, Option<Reply>)
  {
    var isPdf := key.sha256 in pdfs;
    if path == Upload && !isPdf then (s, None)
    else
      var objects := if path == Upload && key !in s.rows then s.objects + {key} else s.objects;
      var found := Meanwhile(s.rows, key, rival);
      if key in found then (Store(found, objects, s.sent), Some(Reply(found[key].id, true)))
      else
        var rows := found[key := Row(id, !isPdf)];
        (Store(rows, objects, if isPdf then s.sent[id := s.sent[id] + 1] else s.sent), Some(Reply(id, false)))
  }

  lemma SendCounts(queue: seq<nat>, id: nat)
    ensures multiset(queue + [id]) == multiset(queue)[id := multiset(queue)[id] + 1]
  {
    assert multiset(queue + [id]) == multiset(queue) + multiset{id};
  }

  class Intake {
    const pdfs: set<int>
    var rows: map<Key, Row>
    var objects: set<Key>
    var parseQueue: seq<nat>

    constructor (pdfs: set<int>)
      ensures this.pdfs == pdfs && Contents() == Store(map[], {}, multiset{})
    {
      this.pdfs, rows, objects, parseQueue := pdfs, map[], {}, [];
    }

    function Contents(): Store
      reads this
    {
      Store(rows, objects, multiset(parseQueue))
    }

    method CommitRow(key: Key, row: Row) returns (committed: bool)
      modifies `rows
      ensures committed == (key !in old(rows))
      ensures rows == if committed then old(rows)[key := row] else old(rows)
    {
      committed := key !in rows;
      if committed {
        rows := rows[key := row];
      }
    }

    method IngestObject(key: Key, id: nat, rival: Option<Row>) returns (reply: Reply)
      modifies this
      ensures (Contents(), Some(reply)) == Called(pdfs, old(Contents()), Drop, key, id, rival)
      ensures parseQueue == old(parseQueue) + if reply.duplicate || key.sha256 !in pdfs then [] else [id]
    {
      if key in rows {
        return Reply(rows[key].id, true);
      }
      rows := Meanwhile(rows, key, rival);
      var isPdf := key.sha256 in pdfs;
      var committed := CommitRow(key, Row(id, !isPdf));
      if !committed {
        return Reply(rows[key].id, true);
      }
      if isPdf {
        SendCounts(parseQueue, id);
        parseQueue := parseQueue + [id];
      }
      reply := Reply(id, false);
    }

    method UploadDocument(key: Key, id: nat, rival: Option<Row>) returns (reply: Option<Reply>)
      modifies this
      ensures (Contents(), reply) == Called(pdfs, old(Contents()), Upload, key, id, rival)
      ensures parseQueue == old(parseQueue) + if reply.None? || reply.value.duplicate then [] else [id]
    {
      if key.sha256 !in pdfs {
        return None;
      }
      if key in rows {
        return Some(Reply(rows[key].id, true));
      }
      objects := objects + {key};
      rows := Meanwhile(rows, key, rival);
      var committed := CommitRow(key, Row(id, false));
      if !committed {
        return Some(Reply(rows[key].id, true));
      }
      SendCounts(parseQueue, id);
      parseQueue := parseQueue + [id];
      reply := Some(Reply(id, false));
    }

    /** The same file by both routes is one document, started once. */
    method DropThenUpload(key: Key, first: nat, second: nat) returns (dropped: Reply, uploaded: Option<Reply>)
      requires key !in rows && key.sha256 in pdfs
      modifies this
      ensures dropped == Reply(first, false) && uploaded == Some(Reply(first, true))
      ensures rows == old(rows)[key := Row(first, false)] && parseQueue == old(parseQueue) + [first]
    {
      dropped := IngestObject(key, first, None);
      uploaded := UploadDocument(key, second, None);
    }
  }

  // --- a whole call is a run -----------------------------------------------------------

  function StoreOf(s: State): Store
  {
    Store(s.rows, s.objects, s.sent)
  }

  /** Insert, re-read, send and answer; those that do not apply change nothing. */
  function Rest(i: nat): seq<Event>
  {
    [Insert(i), Reread(i), Send(i), Answer(i)]
  }

  lemma {:induction false} RestInserts(w: World, s: State, i: nat)
    requires |s.phases| == |w.requests| && i < |s.phases|
    requires s.phases[i] == if w.requests[i].path == Upload then Stored else Absent
    ensures var t, key := After(w, s, Rest(i)), KeyOf(w, i);
      if key in s.rows then StoreOf(t) == StoreOf(s) && t.phases[i] == Answered(s.rows[key].id, true)
      else && t.rows == s.rows[key := Row(i, !IsPdf(w, i))] && t.objects == s.objects
           && t.sent == (if IsPdf(w, i) then s.sent[i := s.sent[i] + 1] else s.sent)
           && t.phases[i] == Answered(i, false)
  {
    RestUnfolds(w, s, i);
    hide After;
  }

  lemma {:induction false} RestUnfolds(w: World, s: State, i: nat)
    requires |s.phases| == |w.requests|
    ensures After(w, s, Rest(i)) == Step(w, Step(w, Step(w, Step(w, s, Insert(i)), Reread(i)), Send(i)), Answer(i))
  {
    hide Step;
    var es := Rest(i);
    var a := Step(w, s, es[0]);
    var b := Step(w, a, es[1]);
    var c := Step(w, b, es[2]);
    assert es[1..] == [es[1], es[2], es[3]] && es[1..][1..] == [es[2], es[3]] && es[1..][1..][1..] == [es[3]];
    assert es[1..][1..][1..][1..] == [];
    assert After(w, c, [es[3]]) == After(w, Step(w, c, es[3]), []);
    assert After(w, b, [es[2], es[3]]) == After(w, c, [es[3]]);
    assert After(w, a, [es[1], es[2], es[3]]) == After(w, b, [es[2], es[3]]);
  }

  lemma {:induction false} RestIsIdle(w: World, s: State, i: nat)
    requires |s.phases| == |w.requests| && i < |s.phases| && (s.phases[i].Answered? || s.phases[i].Refused?)
    ensures After(w, s, Rest(i)) == s
  {
    var es := Rest(i);
    assert es[1..] == [Reread(i), Send(i), Answer(i)] && es[1..][1..] == [Send(i), Answer(i)];
    assert es[1..][1..][1..] == [Answer(i)] && es[1..][1..][1..][1..] == [];
    assert Step(w, s, Insert(i)) == s && Step(w, s, Reread(i)) == s && Step(w, s, Send(i)) == s && Step(w, s, Answer(i)) == s;
    hide Step;
    assert After(w, s, [Answer(i)]) == After(w, s, []);
    assert After(w, s, [Send(i), Answer(i)]) == After(w, s, [Answer(i)]);
    assert After(w, s, [Reread(i), Send(i), Answer(i)]) == After(w, s, [Send(i), Answer(i)]);
  }

  /** The events of one whole call, with the rival's insert, if any, right before its own. */
  function CallEvents(i: nat, rival: Option<nat>): seq<Event>
  {
    [Check(i), Put(i)] + (if rival.Some? then [Insert(rival.value)] else []) + Rest(i)
  }

  function ReplyOf(phase: Phase): Option<Reply>
  {
    if phase.Answered? then Some(Reply(phase.id, phase.duplicate)) else None
  }

  /** Caller j is one step from its own insert of the same bytes. */
  predicate RivalOf(w: World, s: State, i: nat, j: nat)
    requires |s.phases| == |w.requests| && i < |s.phases|
  {
    && j < |s.phases| && j != i && KeyOf(w, j) == KeyOf(w, i)
    && s.phases[j] == if w.requests[j].path == Upload then Stored else Absent
  }

  function BeforeRest(w: World, s: State, i: nat, rival: Option<nat>): State
    requires |s.phases| == |w.requests|
  {
    var ready := Step(w, Step(w, s, Check(i)), Put(i));
    if rival.Some? then Step(w, ready, Insert(rival.value)) else ready
  }

  lemma {:induction false} CallUnfolds(w: World, s: State, i: nat, rival: Option<nat>)
    requires |s.phases| == |w.requests|
    ensures After(w, s, CallEvents(i, rival)) == After(w, BeforeRest(w, s, i, rival), Rest(i))
  {
    hide Step, Rest;
    var es := CallEvents(i, rival);
    var checked := Step(w, s, Check(i));
    var ready := Step(w, checked, Put(i));
    var tail := (if rival.Some? then [Insert(rival.value)] else []) + Rest(i);
    assert es[0] == Check(i) && es[1..] == [Put(i)] + tail && ([Put(i)] + tail)[1..] == tail;
    assert After(w, checked, [Put(i)] + tail) == After(w, ready, tail);
    if rival.Some? {
      assert tail[0] == Insert(rival.value) && tail[1..] == Rest(i);
    } else {
      assert tail == Rest(i);
    }
  }

  lemma BeforeRestShape(w: World, s: State, i: nat, rival: Option<nat>)
    requires |s.phases| == |w.requests| && i < |s.phases| && s.phases[i] == Arrived
    requires rival.Some? ==> RivalOf(w, s, i, rival.value)
    ensures var t, key, path := BeforeRest(w, s, i, rival), KeyOf(w, i), w.requests[i].path;
      var committed := if rival.Some? then Some(Row(rival.value, !IsPdf(w, i))) else None;
      && t.sent == s.sent && t.rows == Meanwhile(s.rows, key, committed)
      && t.objects == (if path == Upload && IsPdf(w, i) && key !in s.rows then s.objects + {key} else s.objects)
      && t.phases[i] == (if path == Upload && !IsPdf(w, i) then Refused
                         else if key in s.rows then Answered(s.rows[key].id, true)
                         else if path == Upload then Stored
                         else Absent)
  {
  }

  /** The two entry points do exactly what the interleaved callers do when one call runs through, raced or not. */
  lemma {:induction false} CallIsRun(w: World, s: State, i: nat, rival: Option<nat>)
    requires |s.phases| == |w.requests| && i < |s.phases| && s.phases[i] == Arrived
    requires rival.Some? ==> RivalOf(w, s, i, rival.value)
    requires rival.Some? ==> w.requests[i].path == Drop || IsPdf(w, i)
    ensures var t := After(w, s, CallEvents(i, rival));
      var committed := if rival.Some? then Some(Row(rival.value, !IsPdf(w, i))) else None;
      && (t.phases[i].Answered? || t.phases[i].Refused?)
      && (StoreOf(t), ReplyOf(t.phases[i]))
        == Called(w.pdfs, StoreOf(s), w.requests[i].path, KeyOf(w, i), i, committed)
  {
    CallUnfolds(w, s, i, rival);
    BeforeRestShape(w, s, i, rival);
    var ready := BeforeRest(w, s, i, rival);
    hide After, Step, Rest, CallEvents, BeforeRest;
    if ready.phases[i].Answered? || ready.phases[i].Refused? {
      RestIsIdle(w, ready, i);
    } else {
      RestInserts(w, ready, i);
    }
  }

  // --- which keys are ours -----------------------------------------------------------

  function Split(s: string): (parts: seq<string>)
    ensures parts != []
  {
    if s == "" then [""]
    else
      var rest := Split(s[1..]);
      if s[0] == '/' then [""] + rest else [[s[0]] + rest[0]] + rest[1..]
  }

  function Join(parts: seq<string>): string
    requires parts != []
  {
    if |parts| == 1 then parts[0] else parts[0] + "/" + Join(parts[1..])
  }

  lemma {:induction false} SplitPart(part: string, rest: string)
    requires '/' !in part
    ensures Split(part + "/" + rest) == [part] + Split(rest)
  {
    var whole := part + "/" + rest;
    if part == "" {
      assert whole == "/" + rest && whole[1..] == rest;
    } else {
      SplitPart(part[1..], rest);
      assert whole[1..] == part[1..] + "/" + rest;
      assert part == [part[0]] + part[1..];
    }
  }

  lemma {:induction false} SplitLast(part: string)
    requires '/' !in part
    ensures Split(part) == [part]
  {
    if part == "" {
    } else {
      SplitLast(part[1..]);
      assert part == [part[0]] + part[1..];
    }
  }

  lemma {:induction false} SplitJoin(parts: seq<string>)
    requires parts != [] && forall p :: p in parts ==> '/' !in p
    ensures Split(Join(parts)) == parts
  {
    if |parts| == 1 {
      SplitLast(parts[0]);
    } else {
      SplitPart(parts[0], Join(parts[1..]));
      SplitJoin(parts[1..]);
    }
  }

  /** Tenant and document type implied by an object key, or nothing when it is not an ingest key. */
  function RouteKey(key: string, ingestPrefix: string, slugs: set<string>): Option<(string, Option<string>)>
  {
    var parts := Split(key);
    if |parts| < 3 || parts[1] != ingestPrefix then None
    else Some((parts[0], if |parts| > 3 && parts[2] in slugs then Some(parts[2]) else None))
  }

  /** Keys in the documented layout, with and without a document type, go where they say. */
  lemma RouteOfLayout(tenant: string, prefix: string, docType: string, file: string, slugs: set<string>)
    requires forall p :: p in [tenant, prefix, docType, file] ==> '/' !in p
    ensures RouteKey(Join([tenant, prefix, docType, file]), prefix, slugs)
      == Some((tenant, if docType in slugs then Some(docType) else None))
    ensures RouteKey(Join([tenant, prefix, file]), prefix, slugs) == Some((tenant, None))
  {
    SplitJoin([tenant, prefix, docType, file]);
    assert forall p :: p in [tenant, prefix, file] ==> p in [tenant, prefix, docType, file];
    SplitJoin([tenant, prefix, file]);
  }

  /**
    An object key is ours exactly when its second part is the prefix and a file
    follows; the first part is the tenant.
   */
  lemma {:induction false} RouteOfParts(parts: seq<string>, prefix: string, slugs: set<string>)
    requires parts != [] && forall p :: p in parts ==> '/' !in p
    ensures var route := RouteKey(Join(parts), prefix, slugs);
      && (route.Some? <==> |parts| >= 3 && parts[1] == prefix)
      && (route.Some? ==> route.value.0 == parts[0])
      && (route.Some? ==> (route.value.1.Some? <==> |parts| > 3 && parts[2] in slugs))
      && (route.Some? && route.value.1.Some? ==> route.value.1.value == parts[2])
  {
    SplitJoin(parts);
  }

  /** The key an upload is stored under. */
  function UploadKey(tenant: string, sha256: string): string
  {
    Join([tenant, "incoming", sha256 + ".pdf"])
  }

  /** The store's own event for an uploaded object is ignored, so an upload is never ingested again. */
  lemma UploadsAreNotReingested(tenant: string, sha256: string, prefix: string, slugs: set<string>)
    requires '/' !in tenant && '/' !in sha256
    ensures RouteKey(UploadKey(tenant, sha256), prefix, slugs).None? <==> prefix != "incoming"
  {
    SplitJoin([tenant, "incoming", sha256 + ".pdf"]);
  }
}
