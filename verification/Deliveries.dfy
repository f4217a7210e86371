/**
  Bounded retries: how often messages can be delivered, along one message's
  path and over the whole life of a document, with any number of runs at once.
 */
module Deliveries {
  import opened Common
  import opened Pipeline
  import opened Overlap

  // --- one message's path --------------------------------------------------------

  /** What can happen next to a message, or to the copy that replaces it. */
  datatype Hop = Delivery | Deferral | Redriving

  predicate Possible(cfg: Config, m: Message, h: Hop)
  {
    match h
    case Delivery => m.receives < cfg.maxReceives
    case Deferral => m.defers < cfg.maxDefers
    case Redriving => m.receives >= cfg.maxReceives && m.redrives < cfg.maxRedrives
  }

  function After(m: Message, h: Hop): Message
  {
    match h
    case Delivery => m.(receives := m.receives + 1)
    case Deferral => m.(defers := m.defers + 1, receives := 0)
    case Redriving => m.(redrives := m.redrives + 1, receives := 0)
  }

  function Left(bound: nat, used: nat): nat
  {
    if used < bound then bound - used else 0
  }

  function LapsLeft(cfg: Config, m: Message): nat
  {
    Left(cfg.maxDefers, m.defers) + Left(cfg.maxRedrives, m.redrives)
  }

  function ReceivesLeft(cfg: Config, m: Message): nat
  {
    Left(cfg.maxReceives, m.receives)
  }

  predicate Path(cfg: Config, m: Message, hops: seq<Hop>)
    decreases hops
  {
    hops == [] || (Possible(cfg, m, hops[0]) && Path(cfg, After(m, hops[0]), hops[1..]))
  }

  function Receipts(hops: seq<Hop>): nat
  {
    if hops == [] then 0 else (if hops[0].Delivery? then 1 else 0) + Receipts(hops[1..])
  }

  /** Every hop lowers (laps left, receives left) lexicographically. */
  lemma HopDescends(cfg: Config, m: Message, h: Hop)
    requires Possible(cfg, m, h)
    ensures var m' := After(m, h);
      || LapsLeft(cfg, m') < LapsLeft(cfg, m)
      || (LapsLeft(cfg, m') == LapsLeft(cfg, m) && ReceivesLeft(cfg, m') < ReceivesLeft(cfg, m))
  {
  }

  lemma {:induction false} PathBounded(cfg: Config, m: Message, hops: seq<Hop>)
    requires Path(cfg, m, hops)
    ensures Receipts(hops) <= cfg.maxReceives * LapsLeft(cfg, m) + ReceivesLeft(cfg, m)
    decreases hops
  {
    if hops == [] {
    } else {
      PathBounded(cfg, After(m, hops[0]), hops[1..]);
      if !hops[0].Delivery? {
        assert LapsLeft(cfg, After(m, hops[0])) == LapsLeft(cfg, m) - 1;
        assert cfg.maxReceives * LapsLeft(cfg, m) == cfg.maxReceives * (LapsLeft(cfg, m) - 1) + cfg.maxReceives;
      }
    }
  }

  /** A fresh message is delivered at most maxReceives * (1 + maxDefers + maxRedrives) times along any path. */
  lemma {:induction false} FreshPathBounded(cfg: Config, stage: Stage, hops: seq<Hop>)
    requires Path(cfg, Fresh(stage), hops)
    ensures Receipts(hops) <= cfg.maxReceives * (1 + cfg.maxDefers + cfg.maxRedrives)
  {
    PathBounded(cfg, Fresh(stage), hops);
    assert cfg.maxReceives * (1 + cfg.maxDefers + cfg.maxRedrives)
        == cfg.maxReceives + cfg.maxReceives * (cfg.maxDefers + cfg.maxRedrives);
  }

  lemma {:induction false} PathJoins(cfg: Config, m: Message, first: seq<Hop>, second: seq<Hop>)
    requires Path(cfg, m, first) && Path(cfg, Along(m, first), second)
    ensures Path(cfg, m, first + second) && Receipts(first + second) == Receipts(first) + Receipts(second)
    ensures Along(m, first + second) == Along(Along(m, first), second)
    decreases first
  {
    if first == [] {
      assert first + second == second;
    } else {
      PathJoins(cfg, After(m, first[0]), first[1..], second);
      assert (first + second)[1..] == first[1..] + second;
    }
  }

  /** The message at the end of a path. */
  function Along(m: Message, hops: seq<Hop>): Message
    decreases hops
  {
    if hops == [] then m else Along(After(m, hops[0]), hops[1..])
  }

  /** Every receive of one lap. */
  lemma {:induction false} LapIsPossible(cfg: Config, m: Message, n: nat)
    requires m.receives + n <= cfg.maxReceives
    ensures var lap := seq(n, _ => Delivery);
      Path(cfg, m, lap) && Receipts(lap) == n && Along(m, lap) == m.(receives := m.receives + n)
    decreases n
  {
    var lap := seq(n, _ => Delivery);
    if n == 0 {
    } else {
      LapIsPossible(cfg, After(m, Delivery), n - 1);
      assert lap[1..] == seq(n - 1, _ => Delivery);
    }
  }

  /** Nothing in the bound is wasted: some path of a fresh message is delivered exactly that often. */
  lemma {:induction false} PathBoundIsReached(cfg: Config, m: Message) returns (hops: seq<Hop>)
    requires m.receives == 0 && m.defers <= cfg.maxDefers && m.redrives <= cfg.maxRedrives
    ensures Path(cfg, m, hops)
    ensures Receipts(hops) == cfg.maxReceives * (1 + (cfg.maxDefers - m.defers) + (cfg.maxRedrives - m.redrives))
    decreases cfg.maxDefers - m.defers + cfg.maxRedrives - m.redrives
  {
    var laps := cfg.maxDefers - m.defers + (cfg.maxRedrives - m.redrives);
    hops := seq(cfg.maxReceives, _ => Delivery);
    LapIsPossible(cfg, m, cfg.maxReceives);
    if laps > 0 {
      var full := Along(m, hops);
      var hop := if m.defers < cfg.maxDefers then Deferral else Redriving;
      var rest := PathBoundIsReached(cfg, After(full, hop));
      assert ([hop] + rest)[1..] == rest && Along(full, [hop] + rest) == Along(After(full, hop), rest);
      PathJoins(cfg, m, hops, [hop] + rest);
      hops := hops + ([hop] + rest);
      assert cfg.maxReceives * (1 + laps) == cfg.maxReceives + cfg.maxReceives * laps;
    }
  }

  /** Messages that started a path of their own. */
  function Sends(s: System): nat
  {
    s.handoffs + s.rescues + s.polls
  }

  /** Where a message can be: waiting, dead-lettered, or held by the run. */
  predicate Holds(s: System, m: Message)
  {
    m in s.queue || m in s.dead || (s.run.Some? && s.run.value.msg == m)
  }

  ghost predicate DeadAreSpent(cfg: Config, s: System)
  {
    forall m :: m in s.dead ==> m.receives >= cfg.maxReceives
  }

  /** The message was there, or is one hop from one that was. */
  ghost predicate Comes(cfg: Config, s: System, m': Message)
  {
    Holds(s, m') || exists m, h :: Holds(s, m) && Possible(cfg, m, h) && After(m, h) == m'
  }

  /**
    The paths are the system's: every message after a step was there before, is
    one hop from one that was, or starts a path of its own because something
    was sent; the provider-down deferral alone brings one back unchanged.
   */
  lemma StepFollowsPaths(cfg: Config, s: System, e: Event, m': Message)
    requires DeadAreSpent(cfg, s) && Holds(Step(cfg, s, e), m')
    ensures DeadAreSpent(cfg, Step(cfg, s, e))
    ensures
      || Comes(cfg, s, m')
      || (m' == Fresh(m'.stage) && Sends(Step(cfg, s, e)) > Sends(s))
      || e.DeferDown?
  {
    match e
    case Deliver(_) => TransportFollowsPaths(cfg, s, e, m');
    case DeadLetter(_) => TransportFollowsPaths(cfg, s, e, m');
    case Redrive(_, _) => TransportFollowsPaths(cfg, s, e, m');
    case Tick(_) => TransportFollowsPaths(cfg, s, e, m');
    case Sweep => HealerFollowsPaths(cfg, s, e, m');
    case Poll(_) => HealerFollowsPaths(cfg, s, e, m');
    case Claim(_, _) => HealerFollowsPaths(cfg, s, e, m');
    case Skip(_) => HealerFollowsPaths(cfg, s, e, m');
    case _ => HandlerFollowsPaths(cfg, s, e, m');
  }

  lemma TransportFollowsPaths(cfg: Config, s: System, e: Event, m': Message)
    requires DeadAreSpent(cfg, s) && Holds(TransportStep(cfg, s, e), m')
    ensures DeadAreSpent(cfg, TransportStep(cfg, s, e))
    ensures Comes(cfg, s, m')
  {
    match e
    case Deliver(i) =>
      if i < |s.queue| {
        assert Holds(s, s.queue[i]) && After(s.queue[i], Delivery) == s.queue[i].(receives := s.queue[i].receives + 1);
      }
    case Redrive(i, _) =>
      if i < |s.dead| {
        var copy := s.dead[i].(redrives := s.dead[i].redrives + 1, receives := 0);
        assert Holds(s, s.dead[i]) && After(s.dead[i], Redriving) == copy;
      }
    case _ =>
  }

  lemma HealerFollowsPaths(cfg: Config, s: System, e: Event, m': Message)
    requires Holds(HealerStep(cfg, s, e), m')
    ensures HealerStep(cfg, s, e).dead == s.dead
    ensures Holds(s, m') || (m' == Fresh(m'.stage) && Sends(HealerStep(cfg, s, e)) > Sends(s))
  {
  }

  lemma GateFollowsPaths(cfg: Config, s: System, e: Event, m': Message)
    requires Holds(GateStep(cfg, s, e), m') && !e.DeferDown?
    ensures GateStep(cfg, s, e).dead == s.dead && Comes(cfg, s, m')
  {
    if e.Defer? && s.run.Some? {
      var m := s.run.value.msg;
      assert Holds(s, m) && After(m, Deferral) == m.(defers := m.defers + 1, receives := 0);
    }
  }

  lemma GateKeepsDead(cfg: Config, s: System, e: Event)
    ensures GateStep(cfg, s, e).dead == s.dead
  {
  }

  lemma EndFollowsPaths(cfg: Config, s: System, e: Event, m': Message)
    ensures EndStep(cfg, s, e).dead == s.dead
    ensures Holds(EndStep(cfg, s, e), m') ==> Holds(s, m')
  {
  }

  lemma CommitFollowsPaths(s: System, e: Event, m': Message)
    ensures CommitStep(s, e).dead == s.dead
    ensures Holds(CommitStep(s, e), m') ==>
      Holds(s, m') || (m' == Fresh(m'.stage) && Sends(CommitStep(s, e)) > Sends(s))
  {
  }

  lemma HandlerFollowsPaths(cfg: Config, s: System, e: Event, m': Message)
    requires Holds(HandlerStep(cfg, s, e), m')
    ensures HandlerStep(cfg, s, e).dead == s.dead
    ensures
      || Comes(cfg, s, m')
      || (m' == Fresh(m'.stage) && Sends(HandlerStep(cfg, s, e)) > Sends(s))
      || e.DeferDown?
  {
    hide GateStep, EndStep, CommitStep, Holds, Sends, Possible, After;
    GateKeepsDead(cfg, s, e);
    EndFollowsPaths(cfg, s, e, m');
    CommitFollowsPaths(s, e, m');
    if e.Guard? || e.Defer? {
      GateFollowsPaths(cfg, s, e, m');
    }
  }

  lemma StepKeepsDeadSpent(cfg: Config, s: System, e: Event)
    requires DeadAreSpent(cfg, s)
    ensures DeadAreSpent(cfg, Step(cfg, s, e))
  {
    hide Step;
    if m :| m in Step(cfg, s, e).dead {
      StepFollowsPaths(cfg, s, e, m);
    }
  }

  /** With any number of runs at once a message is also where one of them holds it. */
  ghost predicate BagHolds(b: Bag, m: Message)
  {
    Holds(b.base, m) || exists r :: r in b.runs && r.msg == m
  }

  ghost predicate BagComes(cfg: Config, b: Bag, m': Message)
  {
    BagHolds(b, m') || exists m, h :: BagHolds(b, m) && Possible(cfg, m, h) && After(m, h) == m'
  }

  lemma FocusComes(cfg: Config, b: Bag, i: nat, m': Message)
    requires i < |b.runs|
    ensures Holds(Focus(b, i), m') ==> BagHolds(b, m')
    ensures Comes(cfg, Focus(b, i), m') ==> BagComes(cfg, b, m')
  {
    hide Possible, After;
    assert b.runs[i] in b.runs;
    if m, h :| Holds(Focus(b, i), m) && Possible(cfg, m, h) && After(m, h) == m' {
      assert BagHolds(b, m);
    }
  }

  lemma BaseComes(cfg: Config, b: Bag, m': Message)
    ensures Comes(cfg, b.base, m') ==> BagComes(cfg, b, m')
  {
    hide Possible, After;
    if m, h :| Holds(b.base, m) && Possible(cfg, m, h) && After(m, h) == m' {
      assert BagHolds(b, m);
    }
  }

  lemma UnfocusHolds(b: Bag, i: nat, s: System, m: Message)
    requires i < |b.runs| && BagHolds(Unfocus(b, i, s), m)
    ensures Holds(s, m) || BagHolds(b, m)
  {
    if !Holds(s, m) {
      var r :| r in Unfocus(b, i, s).runs && r.msg == m;
      assert r in b.runs;
    }
  }

  lemma SharedHolds(cfg: Config, b: Bag, e: Event, m: Message)
    requires !OfRun(e) && BagHolds(BagStep(cfg, b, Shared(e)), m)
    ensures Holds(Step(cfg, b.base, e), m) || BagHolds(b, m)
  {
    hide Step, GivesUp, OfRun;
    var after := BagStep(cfg, b, Shared(e));
    if !Holds(Step(cfg, b.base, e), m) {
      var k :| 0 <= k < |after.runs| && after.runs[k].msg == m;
      assert k < |b.runs| && b.runs[k] in b.runs && b.runs[k].msg == m;
    }
  }

  /** The paths are the system's with any number of runs at once. */
  lemma BagFollowsPaths(cfg: Config, b: Bag, e: BagEvent, m': Message)
    requires DeadAreSpent(cfg, b.base) && BagHolds(BagStep(cfg, b, e), m')
    ensures DeadAreSpent(cfg, BagStep(cfg, b, e).base)
    ensures
      || BagComes(cfg, b, m')
      || (m' == Fresh(m'.stage) && Sends(BagStep(cfg, b, e).base) > Sends(b.base))
      || e.e.DeferDown?
  {
    match e
    case Own(i, e) =>
      if i < |b.runs| && OfRun(e) {
        hide Step, Comes, OfRun, Holds;
        StepKeepsDeadSpent(cfg, Focus(b, i), e);
        UnfocusHolds(b, i, Step(cfg, Focus(b, i), e), m');
        if Holds(Step(cfg, Focus(b, i), e), m') {
          StepFollowsPaths(cfg, Focus(b, i), e, m');
          FocusComes(cfg, b, i, m');
        }
      }
    case Shared(e) =>
      if !OfRun(e) {
        hide Step, Comes, OfRun, Holds, GivesUp;
        StepKeepsDeadSpent(cfg, b.base, e);
        SharedHolds(cfg, b, e, m');
        if Holds(Step(cfg, b.base, e), m') {
          StepFollowsPaths(cfg, b.base, e, m');
          BaseComes(cfg, b, m');
        }
      }
  }

  /**
    A dead-lettered message under its bound comes home counted once more, with all
    its receives before it; at it, it stays.
   */
  lemma RedriveComesHome(cfg: Config, s: System, i: nat, deleted: bool)
    requires i < |s.dead|
    ensures var (after, m) := (Step(cfg, s, Redrive(i, deleted)), s.dead[i]);
      if m.redrives < cfg.maxRedrives then
        && after.queue == s.queue + [Message(m.stage, m.defers, m.redrives + 1, 0)]
        && after.dead == (if deleted then s.dead[..i] + s.dead[i + 1..] else s.dead)
        && after == s.(queue := after.queue, dead := after.dead)
      else after == s
  {
  }

  // --- every delivery of a document ------------------------------------------------

  /**
    Deliveries a message with this many laps and receives left can still cause,
    counting the copies a crash between a re-send and its acknowledgement leaves.
   */
  function Fuel(cfg: Config, laps: nat, receives: nat): nat
    decreases laps, receives, 1
  {
    if receives == 0 then Spare(cfg, laps) else 1 + Fuel(cfg, laps, receives - 1) + Spare(cfg, laps)
  }

  /** Fuel of the one copy a lap can send. */
  function Spare(cfg: Config, laps: nat): nat
    decreases laps, 0, 0
  {
    if laps == 0 then 0 else Fuel(cfg, laps - 1, cfg.maxReceives)
  }

  function Power(base: nat, exponent: nat): nat
  {
    if exponent == 0 then 1 else base * Power(base, exponent - 1)
  }

  lemma {:induction false} FuelFormula(cfg: Config, laps: nat, receives: nat)
    ensures Fuel(cfg, laps, receives) == receives + (receives + 1) * Spare(cfg, laps)
    decreases receives
  {
    if receives == 0 {
    } else {
      FuelFormula(cfg, laps, receives - 1);
    }
  }

  /** In closed form, a full message with L laps left is worth (maxReceives + 1)^(L + 1) - 1 deliveries. */
  lemma {:induction false} FuelClosedForm(cfg: Config, laps: nat)
    ensures Fuel(cfg, laps, cfg.maxReceives) + 1 == Power(cfg.maxReceives + 1, laps + 1)
  {
    FuelFormula(cfg, laps, cfg.maxReceives);
    if laps > 0 {
      FuelClosedForm(cfg, laps - 1);
      var below := Fuel(cfg, laps - 1, cfg.maxReceives);
      assert (cfg.maxReceives + 1) * (below + 1) == (cfg.maxReceives + 1) * below + cfg.maxReceives + 1;
    } else {
      assert Power(cfg.maxReceives + 1, 1) == (cfg.maxReceives + 1) * Power(cfg.maxReceives + 1, 0);
    }
  }

  /** Fuel is counted for the messages of some stages only. */
  const BOTH: set<Stage> := {Parse, Extract}

  function MessageFuel(cfg: Config, only: set<Stage>, m: Message): nat
  {
    if m.stage in only then Fuel(cfg, LapsLeft(cfg, m), ReceivesLeft(cfg, m)) else 0
  }

  function SpareFuel(cfg: Config, only: set<Stage>, m: Message): nat
  {
    if m.stage in only then Spare(cfg, LapsLeft(cfg, m)) else 0
  }

  function Sum<T>(weight: T -> nat, xs: seq<T>): nat
  {
    if xs == [] then 0 else Sum(weight, xs[..|xs| - 1]) + weight(xs[|xs| - 1])
  }

  lemma {:induction false} SumAdd<T>(weight: T -> nat, xs: seq<T>, x: T)
    ensures Sum(weight, xs + [x]) == Sum(weight, xs) + weight(x)
  {
    assert (xs + [x])[..|xs|] == xs;
  }

  lemma {:induction false} SumUpdate<T>(weight: T -> nat, xs: seq<T>, i: nat, x: T)
    requires i < |xs|
    ensures Sum(weight, xs[i := x]) == Sum(weight, xs) - weight(xs[i]) + weight(x)
  {
    var n := |xs| - 1;
    if i == n {
      assert xs[i := x][..n] == xs[..n];
    } else {
      SumUpdate(weight, xs[..n], i, x);
      assert xs[i := x][..n] == xs[..n][i := x];
    }
  }

  lemma {:induction false} SumRemove<T>(weight: T -> nat, xs: seq<T>, i: nat)
    requires i < |xs|
    ensures Sum(weight, Remove(xs, i)) == Sum(weight, xs) - weight(xs[i])
  {
    var n := |xs| - 1;
    if i == n {
      assert Remove(xs, i) == xs[..n];
    } else {
      SumRemove(weight, xs[..n], i);
      assert Remove(xs, i)[..n - 1] == Remove(xs[..n], i);
    }
  }

  lemma {:induction false} SumSame<T>(weight: T -> nat, xs: seq<T>, ys: seq<T>)
    requires |xs| == |ys| && forall k :: 0 <= k < |xs| ==> weight(xs[k]) == weight(ys[k])
    ensures Sum(weight, xs) == Sum(weight, ys)
  {
    if xs == [] {
    } else {
      SumSame(weight, xs[..|xs| - 1], ys[..|ys| - 1]);
    }
  }

  function FuelOf(cfg: Config, only: set<Stage>): Message -> nat
  {
    m => MessageFuel(cfg, only, m)
  }

  function QueueFuel(cfg: Config, only: set<Stage>, ms: seq<Message>): nat
  {
    Sum(FuelOf(cfg, only), ms)
  }

  lemma QueueAdd(cfg: Config, only: set<Stage>, ms: seq<Message>, m: Message)
    ensures QueueFuel(cfg, only, ms + [m]) == QueueFuel(cfg, only, ms) + MessageFuel(cfg, only, m)
  {
    hide MessageFuel;
    SumAdd(FuelOf(cfg, only), ms, m);
  }

  lemma QueueRemove(cfg: Config, only: set<Stage>, ms: seq<Message>, i: nat)
    requires i < |ms|
    ensures QueueFuel(cfg, only, Remove(ms, i)) == QueueFuel(cfg, only, ms) - MessageFuel(cfg, only, ms[i])
  {
    hide MessageFuel;
    SumRemove(FuelOf(cfg, only), ms, i);
  }

  /** A copy with one lap fewer is paid for by what the original had spare. */
  lemma {:induction false} NextLapIsSpare(cfg: Config, only: set<Stage>, m: Message, copy: Message)
    requires copy.stage == m.stage && copy.receives == 0 && LapsLeft(cfg, copy) + 1 == LapsLeft(cfg, m)
    ensures MessageFuel(cfg, only, copy) == SpareFuel(cfg, only, m) <= MessageFuel(cfg, only, m)
  {
  }

  /** A run that has not passed its gate may still send one deferred copy. */
  function RunFuel(cfg: Config, only: set<Stage>, r: Run): nat
  {
    MessageFuel(cfg, only, r.msg) + if r.phase.Gate? then SpareFuel(cfg, only, r.msg) else 0
  }

  function SlotFuel(cfg: Config, only: set<Stage>, run: Option<Run>): nat
  {
    if run.None? then 0 else RunFuel(cfg, only, run.value)
  }

  function SystemFuel(cfg: Config, only: set<Stage>, s: System): nat
  {
    QueueFuel(cfg, only, s.queue) + QueueFuel(cfg, only, s.dead) + SlotFuel(cfg, only, s.run)
  }

  function FullFuel(cfg: Config): nat
  {
    Fuel(cfg, cfg.maxDefers + cfg.maxRedrives, cfg.maxReceives)
  }

  /**
    The two re-sends no counter bounds: a deferral while the provider is down,
    and a redrive that crashes before it deletes the dead-lettered original.
    Each can add one full message, and is charged for it.
   */
  predicate Uncounted(e: Event)
  {
    e.DeferDown? || (e.Redrive? && !e.deleted)
  }

  function UncountedIn(es: seq<BagEvent>): nat
  {
    if es == [] then 0 else UncountedIn(es[..|es| - 1]) + if Uncounted(es[|es| - 1].e) then 1 else 0
  }

  lemma {:induction false} SpareMonotone(cfg: Config, laps: nat, more: nat)
    requires laps <= more
    ensures Spare(cfg, laps) <= Spare(cfg, more)
    decreases more
  {
    if laps == 0 {
    } else {
      SpareMonotone(cfg, laps - 1, more - 1);
      FuelFormula(cfg, laps - 1, cfg.maxReceives);
      FuelFormula(cfg, more - 1, cfg.maxReceives);
      MulMonotone(cfg.maxReceives + 1, Spare(cfg, laps - 1), Spare(cfg, more - 1));
    }
  }

  /** No message is worth more than a full one. */
  lemma AtMostFull(cfg: Config, only: set<Stage>, m: Message)
    ensures MessageFuel(cfg, only, m) <= FullFuel(cfg)
  {
    var laps, full, r := LapsLeft(cfg, m), cfg.maxDefers + cfg.maxRedrives, ReceivesLeft(cfg, m);
    SpareMonotone(cfg, laps, full);
    FuelFormula(cfg, laps, r);
    FuelFormula(cfg, full, cfg.maxReceives);
    hide Fuel, Spare;
    MulMonotone(r + 1, Spare(cfg, laps), Spare(cfg, full));
    MulMonotone(Spare(cfg, full), r + 1, cfg.maxReceives + 1);
  }

  /** This delivery hands out a message of these stages. */
  function Delivered(cfg: Config, only: set<Stage>, s: System, e: Event): nat
  {
    if e.Deliver? && e.i < |s.queue| && s.run.None? && s.queue[e.i].receives < cfg.maxReceives
       && s.queue[e.i].stage in only
    then 1 else 0
  }

  lemma ReceiptSpendsOne(cfg: Config, only: set<Stage>, m: Message)
    requires m.receives < cfg.maxReceives
    ensures RunFuel(cfg, only, Run(m.(receives := m.receives + 1), Gate, false)) + (if m.stage in only then 1 else 0)
      == MessageFuel(cfg, only, m)
  {
  }

  lemma DeliverySpendsOne(cfg: Config, only: set<Stage>, s: System, i: nat)
    requires i < |s.queue|
    ensures var after := TransportStep(cfg, s, Deliver(i));
      Delivered(cfg, only, s, Deliver(i)) + SystemFuel(cfg, only, after) == SystemFuel(cfg, only, s)
  {
    hide MessageFuel, RunFuel, QueueFuel;
    QueueRemove(cfg, only, s.queue, i);
    if s.queue[i].receives < cfg.maxReceives {
      ReceiptSpendsOne(cfg, only, s.queue[i]);
    }
  }

  lemma DeadLetterSpendsNothing(cfg: Config, only: set<Stage>, s: System, i: nat)
    requires i < |s.queue|
    ensures SystemFuel(cfg, only, TransportStep(cfg, s, DeadLetter(i))) == SystemFuel(cfg, only, s)
  {
    hide MessageFuel, RunFuel, QueueFuel;
    QueueRemove(cfg, only, s.queue, i);
    QueueAdd(cfg, only, s.dead, s.queue[i]);
  }

  lemma RedriveSpendsLap(cfg: Config, only: set<Stage>, s: System, i: nat)
    requires i < |s.dead|
    ensures SystemFuel(cfg, only, TransportStep(cfg, s, Redrive(i, true))) <= SystemFuel(cfg, only, s)
  {
    if s.dead[i].redrives < cfg.maxRedrives {
      var copy := s.dead[i].(redrives := s.dead[i].redrives + 1, receives := 0);
      NextLapIsSpare(cfg, only, s.dead[i], copy);
      hide MessageFuel, RunFuel, QueueFuel, SpareFuel;
      QueueRemove(cfg, only, s.dead, i);
      QueueAdd(cfg, only, s.queue, copy);
    }
  }

  lemma RedriveCopies(cfg: Config, only: set<Stage>, s: System, i: nat)
    requires i < |s.dead|
    ensures SystemFuel(cfg, only, TransportStep(cfg, s, Redrive(i, false))) <= SystemFuel(cfg, only, s) + FullFuel(cfg)
  {
    hide MessageFuel, RunFuel, QueueFuel, FullFuel;
    if s.dead[i].redrives < cfg.maxRedrives {
      var copy := s.dead[i].(redrives := s.dead[i].redrives + 1, receives := 0);
      AtMostFull(cfg, only, copy);
      QueueAdd(cfg, only, s.queue, copy);
    }
  }

  /** What an uncounted event is charged. */
  function ChargeOf(cfg: Config, e: Event): nat
  {
    if Uncounted(e) then FullFuel(cfg) else 0
  }

  /** Messages of these stages, and at most those, that started a path of their own. */
  function SendsOf(only: set<Stage>, s: System): nat
  {
    s.rescues + s.polls + if Extract in only then s.handoffs else 0
  }

  predicate Kept(s: System, after: System)
  {
    (after.handoffs, after.rescues, after.polls, after.deliveries) == (s.handoffs, s.rescues, s.polls, s.deliveries)
  }

  lemma SameMessages(cfg: Config, only: set<Stage>, s: System, after: System)
    requires after.queue == s.queue && after.dead == s.dead && after.run == s.run
    ensures SystemFuel(cfg, only, after) == SystemFuel(cfg, only, s)
  {
  }

  lemma TransportSpendsFuel(cfg: Config, only: set<Stage>, s: System, e: Event)
    ensures var after := TransportStep(cfg, s, e);
      && Kept(s, after.(deliveries := s.deliveries)) && after.deliveries == s.deliveries + Delivered(cfg, BOTH, s, e)
      && Delivered(cfg, only, s, e) + SystemFuel(cfg, only, after) <= SystemFuel(cfg, only, s) + ChargeOf(cfg, e)
  {
    hide SystemFuel, FullFuel;
    match e
    case Tick(_) => SameMessages(cfg, only, s, TransportStep(cfg, s, e));
    case Deliver(i) =>
      if i < |s.queue| {
        DeliverySpendsOne(cfg, only, s, i);
        assert s.queue[i].stage == Parse || s.queue[i].stage == Extract;
      }
    case DeadLetter(i) => if i < |s.queue| { DeadLetterSpendsNothing(cfg, only, s, i); }
    case Redrive(i, deleted) =>
      if i < |s.dead| && deleted {
        RedriveSpendsLap(cfg, only, s, i);
      } else if i < |s.dead| {
        RedriveCopies(cfg, only, s, i);
      }
    case _ =>
  }

  lemma FreshIsFull(cfg: Config, only: set<Stage>, stage: Stage)
    ensures MessageFuel(cfg, only, Fresh(stage)) == if stage in only then FullFuel(cfg) else 0
  {
  }

  lemma DeferSpendsSpare(cfg: Config, only: set<Stage>, s: System, touched: bool)
    requires At(s, Gate) && s.run.value.msg.defers < cfg.maxDefers
    ensures SystemFuel(cfg, only, GateStep(cfg, s, Defer(touched))) <= SystemFuel(cfg, only, s)
  {
    var m := s.run.value.msg;
    var copy := m.(defers := m.defers + 1, receives := 0);
    NextLapIsSpare(cfg, only, m, copy);
    hide MessageFuel, SpareFuel, QueueFuel;
    QueueAdd(cfg, only, s.queue, copy);
  }

  lemma GuardSpendsNothing(cfg: Config, only: set<Stage>, s: System)
    ensures SystemFuel(cfg, only, GateStep(cfg, s, Guard)) <= SystemFuel(cfg, only, s)
  {
    hide MessageFuel, SpareFuel, QueueFuel;
  }

  lemma GateSpendsSpare(cfg: Config, only: set<Stage>, s: System, e: Event)
    requires !e.DeferDown?
    ensures SystemFuel(cfg, only, GateStep(cfg, s, e)) <= SystemFuel(cfg, only, s)
    ensures Kept(s, GateStep(cfg, s, e))
  {
    hide SystemFuel;
    if e.Defer? && At(s, Gate) && s.run.value.msg.defers < cfg.maxDefers {
      DeferSpendsSpare(cfg, only, s, e.touched);
    } else if e.Guard? {
      GuardSpendsNothing(cfg, only, s);
    }
  }

  lemma DeferDownCopies(cfg: Config, only: set<Stage>, s: System, touched: bool)
    ensures var after := GateStep(cfg, s, DeferDown(touched));
      Kept(s, after) && SystemFuel(cfg, only, after) <= SystemFuel(cfg, only, s) + FullFuel(cfg)
  {
    hide MessageFuel, FullFuel, SpareFuel, QueueFuel;
    if AtStage(s, Gate, Extract) {
      var copy := s.run.value.msg.(receives := 0);
      AtMostFull(cfg, only, copy);
      QueueAdd(cfg, only, s.queue, copy);
    }
  }

  lemma EndSpendsNothing(cfg: Config, only: set<Stage>, s: System, e: Event)
    ensures SystemFuel(cfg, only, EndStep(cfg, s, e)) <= SystemFuel(cfg, only, s)
    ensures Kept(s, EndStep(cfg, s, e))
  {
    hide MessageFuel, SpareFuel, QueueFuel;
    if s.run.Some? {
      QueueAdd(cfg, only, s.queue, s.run.value.msg);
    }
  }

  /** Fuel a send of these stages brings. */
  function Gained(cfg: Config, only: set<Stage>, s: System, after: System): nat
  {
    if SendsOf(only, after) > SendsOf(only, s) then FullFuel(cfg) else 0
  }

  lemma HandOffAddsOne(cfg: Config, only: set<Stage>, s: System)
    requires At(s, HandingOff)
    ensures var after := CommitStep(s, HandOff);
      && Kept(s.(handoffs := s.handoffs + 1), after)
      && SystemFuel(cfg, only, after) <= SystemFuel(cfg, only, s) + Gained(cfg, only, s, after)
  {
    FreshIsFull(cfg, only, Extract);
    hide MessageFuel, FullFuel, SpareFuel, QueueFuel;
    QueueAdd(cfg, only, s.queue, Fresh(Extract));
  }

  lemma CommitSendsNothing(cfg: Config, only: set<Stage>, s: System, e: Event)
    requires !e.HandOff?
    ensures Kept(s, CommitStep(s, e)) && SystemFuel(cfg, only, CommitStep(s, e)) <= SystemFuel(cfg, only, s)
  {
    hide MessageFuel, SpareFuel, QueueFuel;
  }

  lemma CommitAddsOne(cfg: Config, only: set<Stage>, s: System, e: Event)
    ensures var after := CommitStep(s, e);
      && Kept(s, after.(handoffs := s.handoffs)) && s.handoffs <= after.handoffs <= s.handoffs + 1
      && SystemFuel(cfg, only, after) <= SystemFuel(cfg, only, s) + Gained(cfg, only, s, after)
  {
    if e.HandOff? && At(s, HandingOff) {
      HandOffAddsOne(cfg, only, s);
    } else if !e.HandOff? {
      CommitSendsNothing(cfg, only, s, e);
    } else {
      assert CommitStep(s, e) == s;
    }
    hide CommitStep, SystemFuel, FullFuel;
  }

  lemma HandlerSpendsFuel(cfg: Config, only: set<Stage>, s: System, e: Event)
    ensures var after := HandlerStep(cfg, s, e);
      && Kept(s, after.(handoffs := s.handoffs)) && s.handoffs <= after.handoffs <= s.handoffs + 1
      && SystemFuel(cfg, only, after) <= SystemFuel(cfg, only, s) + Gained(cfg, only, s, after) + ChargeOf(cfg, e)
  {
    hide GateStep, EndStep, CommitStep, SystemFuel, FullFuel;
    if e.DeferDown? {
      DeferDownCopies(cfg, only, s, e.touched);
    } else {
      GateSpendsSpare(cfg, only, s, e);
    }
    EndSpendsNothing(cfg, only, s, e);
    CommitAddsOne(cfg, only, s, e);
  }

  lemma HealerSpendsFuel(cfg: Config, only: set<Stage>, s: System, e: Event)
    ensures var after := HealerStep(cfg, s, e);
      && after.deliveries == s.deliveries && after.handoffs == s.handoffs
      && s.rescues + s.polls <= after.rescues + after.polls <= s.rescues + s.polls + 1
      && SystemFuel(cfg, only, after) <= SystemFuel(cfg, only, s) + Gained(cfg, only, s, after)
  {
    FreshIsFull(cfg, only, Parse);
    FreshIsFull(cfg, only, Extract);
    hide MessageFuel, FullFuel, QueueFuel, SpareFuel;
    QueueAdd(cfg, only, s.queue, Fresh(Parse));
    QueueAdd(cfg, only, s.queue, Fresh(Extract));
  }

  /**
    A step delivers at most what its fuel pays for, whichever stages are counted;
    only a new send or an uncounted re-send adds fuel, a full message's.
   */
  lemma StepSpendsFuel(cfg: Config, only: set<Stage>, s: System, e: Event)
    ensures var after := Step(cfg, s, e);
      && after.deliveries == s.deliveries + Delivered(cfg, BOTH, s, e)
      && SendsOf(only, s) <= SendsOf(only, after) <= SendsOf(only, s) + 1
      && Delivered(cfg, only, s, e) + SystemFuel(cfg, only, after)
           <= SystemFuel(cfg, only, s) + Gained(cfg, only, s, after) + ChargeOf(cfg, e)
  {
    hide TransportStep, HandlerStep, HealerStep, SystemFuel, FullFuel;
    TransportSpendsFuel(cfg, only, s, e);
    HandlerSpendsFuel(cfg, only, s, e);
    HealerSpendsFuel(cfg, only, s, e);
  }

  // --- with any number of runs at once ---------------------------------------------

  function RunFuelOf(cfg: Config, only: set<Stage>): Run -> nat
  {
    r => RunFuel(cfg, only, r)
  }

  function BagFuel(cfg: Config, only: set<Stage>, b: Bag): nat
  {
    SystemFuel(cfg, only, b.base) + Sum(RunFuelOf(cfg, only), b.runs)
  }

  /** What one step of run i changes in a sum over the runs. */
  lemma UnfocusSum(weight: Run -> nat, b: Bag, i: nat, s: System)
    requires i < |b.runs|
    ensures Sum(weight, Unfocus(b, i, s).runs)
      == Sum(weight, b.runs) - weight(b.runs[i]) + if s.run.Some? then weight(s.run.value) else 0
  {
    if s.run.None? {
      SumRemove(weight, b.runs, i);
    } else {
      SumUpdate(weight, b.runs, i, s.run.value);
    }
  }

  /** What one step of the queue service or a sweeper changes in a sum that does not look at `overtaken`. */
  lemma SharedSum(cfg: Config, weight: Run -> nat, b: Bag, e: Event)
    requires !OfRun(e) && forall r: Run :: weight(Mark(r)) == weight(r)
    ensures var s := Step(cfg, b.base, e);
      Sum(weight, BagStep(cfg, b, Shared(e)).runs)
        == Sum(weight, b.runs) + if s.run.Some? then weight(s.run.value) else 0
  {
    var marked := seq(|b.runs|, i requires 0 <= i < |b.runs| => Mark(b.runs[i]));
    hide Step, GivesUp, Mark, OfRun;
    SumSame(weight, marked, b.runs);
    var s := Step(cfg, b.base, e);
    var runs := if GivesUp(cfg, b.base, e) then marked else b.runs;
    assert runs + [] == runs;
    if s.run.Some? {
      SumAdd(weight, runs, s.run.value);
    }
  }

  /** Messages of these stages delivered in the last step. */
  function BagDelivered(cfg: Config, only: set<Stage>, b: Bag, e: BagEvent): nat
  {
    if e.Shared? then Delivered(cfg, only, b.base, e.e) else 0
  }

  lemma FocusFuel(cfg: Config, only: set<Stage>, s: System, r: Run)
    requires s.run.None?
    ensures SystemFuel(cfg, only, s.(run := Some(r))) == SystemFuel(cfg, only, s) + RunFuel(cfg, only, r)
  {
  }

  lemma EmptiedFuel(cfg: Config, only: set<Stage>, s: System)
    ensures SystemFuel(cfg, only, s.(run := None)) == SystemFuel(cfg, only, s) - SlotFuel(cfg, only, s.run)
  {
  }

  /** What `StepSpendsFuel` says, of the whole bag. */
  ghost predicate BagSpends(cfg: Config, only: set<Stage>, b: Bag, e: BagEvent)
  {
    var after := BagStep(cfg, b, e);
    && after.base.deliveries == b.base.deliveries + BagDelivered(cfg, BOTH, b, e)
    && SendsOf(only, b.base) <= SendsOf(only, after.base) <= SendsOf(only, b.base) + 1
    && BagDelivered(cfg, only, b, e) + BagFuel(cfg, only, after)
         <= BagFuel(cfg, only, b) + Gained(cfg, only, b.base, after.base) + ChargeOf(cfg, e.e)
  }

  lemma OwnSpendsFuel(cfg: Config, only: set<Stage>, b: Bag, i: nat, e: Event)
    requires b.base.run.None? && i < |b.runs| && OfRun(e)
    ensures BagSpends(cfg, only, b, Own(i, e))
  {
    var s := Step(cfg, Focus(b, i), e);
    assert !e.Deliver? && BagStep(cfg, b, Own(i, e)) == Unfocus(b, i, s) && Unfocus(b, i, s).base == s.(run := None);
    assert s.run.Some? ==> RunFuelOf(cfg, only)(s.run.value) == RunFuel(cfg, only, s.run.value);
    assert RunFuelOf(cfg, only)(b.runs[i]) == RunFuel(cfg, only, b.runs[i]);
    hide Step, SystemFuel, RunFuel, RunFuelOf, FullFuel, Uncounted, BagStep, Unfocus, OfRun, Sum, GivesUp;
    StepSpendsFuel(cfg, only, Focus(b, i), e);
    FocusFuel(cfg, only, b.base, b.runs[i]);
    EmptiedFuel(cfg, only, s);
    UnfocusSum(RunFuelOf(cfg, only), b, i, s);
  }

  lemma MarkKeepsFuel(cfg: Config, only: set<Stage>)
    ensures forall r: Run :: RunFuelOf(cfg, only)(Mark(r)) == RunFuelOf(cfg, only)(r)
  {
    hide MessageFuel, SpareFuel;
  }

  lemma SharedSpendsFuel(cfg: Config, only: set<Stage>, b: Bag, e: Event)
    requires b.base.run.None? && !OfRun(e)
    ensures BagSpends(cfg, only, b, Shared(e))
  {
    var s := Step(cfg, b.base, e);
    assert BagStep(cfg, b, Shared(e)).base == s.(run := None);
    assert s.run.Some? ==> RunFuelOf(cfg, only)(s.run.value) == RunFuel(cfg, only, s.run.value);
    hide Step, SystemFuel, RunFuel, RunFuelOf, FullFuel, Uncounted, BagStep, OfRun, Mark, Delivered, Sum, GivesUp;
    MarkKeepsFuel(cfg, only);
    StepSpendsFuel(cfg, only, b.base, e);
    EmptiedFuel(cfg, only, s);
    SharedSum(cfg, RunFuelOf(cfg, only), b, e);
  }

  lemma BagStepSpendsFuel(cfg: Config, only: set<Stage>, b: Bag, e: BagEvent)
    requires b.base.run.None?
    ensures BagSpends(cfg, only, b, e)
  {
    match e
    case Own(i, e) =>
      if i < |b.runs| && OfRun(e) {
        hide BagSpends, OfRun;
        OwnSpendsFuel(cfg, only, b, i, e);
      }
    case Shared(e) =>
      if !OfRun(e) {
        hide BagSpends, OfRun;
        SharedSpendsFuel(cfg, only, b, e);
      } else {
        assert !e.Deliver?;
        hide SystemFuel, FullFuel;
      }
  }

  /** Messages of these stages delivered over an execution. */
  function DeliveredIn(cfg: Config, only: set<Stage>, b: Bag, es: seq<BagEvent>): nat
  {
    if es == [] then 0
    else
      var n := |es| - 1;
      DeliveredIn(cfg, only, b, es[..n]) + BagDelivered(cfg, only, BagExecute(cfg, b, es[..n]), es[n])
  }

  /** What n full messages are worth. */
  function Worth(cfg: Config, n: nat): nat
  {
    if n == 0 then 0 else Worth(cfg, n - 1) + FullFuel(cfg)
  }

  lemma {:induction false} WorthIsProduct(cfg: Config, n: nat)
    ensures Worth(cfg, n) == n * FullFuel(cfg)
  {
    hide FullFuel;
    if n == 0 {
    } else {
      WorthIsProduct(cfg, n - 1);
      assert n * FullFuel(cfg) == (n - 1) * FullFuel(cfg) + FullFuel(cfg);
    }
  }

  lemma {:induction false} WorthAtMost(cfg: Config, n: nat, m: nat)
    requires n <= m
    ensures Worth(cfg, n) <= FullFuel(cfg) * m
  {
    hide FullFuel;
    WorthIsProduct(cfg, n);
    MulMonotone(FullFuel(cfg), n, m);
  }

  lemma IngestionIsOneMessage(cfg: Config, only: set<Stage>, now: int, sent: bool)
    ensures BagFuel(cfg, only, Start(now, sent)) <= FullFuel(cfg)
  {
    FreshIsFull(cfg, only, Parse);
    hide MessageFuel, FullFuel;
    QueueAdd(cfg, only, [], Fresh(Parse));
    assert [] + [Fresh(Parse)] == [Fresh(Parse)];
  }

  /** What was delivered, and what still can be, is paid for by the messages sent and the uncounted re-sends. */
  ghost predicate Paid(cfg: Config, only: set<Stage>, b: Bag, delivered: nat, uncounted: nat)
  {
    delivered + BagFuel(cfg, only, b) <= Worth(cfg, 1 + SendsOf(only, b.base) + uncounted)
  }

  lemma StepKeepsPaid(cfg: Config, only: set<Stage>, b: Bag, e: BagEvent, delivered: nat, uncounted: nat)
    requires b.base.run.None? && Paid(cfg, only, b, delivered, uncounted)
    ensures Paid(cfg, only, BagStep(cfg, b, e), delivered + BagDelivered(cfg, only, b, e),
                 uncounted + if Uncounted(e.e) then 1 else 0)
  {
    hide BagStep, BagFuel, FullFuel, SendsOf, Uncounted, BagDelivered;
    BagStepSpendsFuel(cfg, only, b, e);
    var n := 1 + SendsOf(only, b.base) + uncounted;
    assert Worth(cfg, n + 1) == Worth(cfg, n) + FullFuel(cfg);
    assert Worth(cfg, n + 2) == Worth(cfg, n + 1) + FullFuel(cfg);
  }

  lemma {:induction false} StartIsPaid(cfg: Config, only: set<Stage>, now: int, sent: bool)
    ensures var b := Start(now, sent);
      Paid(cfg, only, BagExecute(cfg, b, []), DeliveredIn(cfg, only, b, []), UncountedIn([]))
  {
    hide BagFuel, FullFuel, BagStep, BagDelivered;
    IngestionIsOneMessage(cfg, only, now, sent);
    assert Worth(cfg, 1) == Worth(cfg, 0) + FullFuel(cfg);
  }

  lemma LastStep(cfg: Config, only: set<Stage>, start: Bag, es: seq<BagEvent>)
    requires es != []
    ensures var before, last := es[..|es| - 1], es[|es| - 1];
      var b := BagExecute(cfg, start, before);
      && BagExecute(cfg, start, es) == BagStep(cfg, b, last)
      && DeliveredIn(cfg, only, start, es) == DeliveredIn(cfg, only, start, before) + BagDelivered(cfg, only, b, last)
      && UncountedIn(es) == UncountedIn(before) + if Uncounted(last.e) then 1 else 0
  {
    hide BagStep, BagDelivered, Uncounted;
  }

  lemma {:induction false} ExecutionIsPaid(cfg: Config, only: set<Stage>, now: int, sent: bool, es: seq<BagEvent>)
    ensures var b := Start(now, sent);
      Paid(cfg, only, BagExecute(cfg, b, es), DeliveredIn(cfg, only, b, es), UncountedIn(es))
  {
    hide *;
    if es == [] {
      StartIsPaid(cfg, only, now, sent);
    } else {
      var start, before, last := Start(now, sent), es[..|es| - 1], es[|es| - 1];
      var b, delivered := BagExecute(cfg, start, before), DeliveredIn(cfg, only, start, before);
      LastStep(cfg, only, start, es);
      ExecutionIsPaid(cfg, only, now, sent, before);
      BagKeepsOrder(cfg, now, sent, before);
      StepKeepsPaid(cfg, only, b, last, delivered, UncountedIn(before));
    }
  }

  lemma {:induction false} AllAreDelivered(cfg: Config, now: int, sent: bool, es: seq<BagEvent>)
    ensures BagExecute(cfg, Start(now, sent), es).base.deliveries == DeliveredIn(cfg, BOTH, Start(now, sent), es)
  {
    if es == [] {
    } else {
      hide BagStep, BagFuel, FullFuel, SendsOf, Uncounted, BagDelivered, Orderly, Gained, ChargeOf;
      var before := es[..|es| - 1];
      AllAreDelivered(cfg, now, sent, before);
      BagKeepsOrder(cfg, now, sent, before);
      BagStepSpendsFuel(cfg, BOTH, BagExecute(cfg, Start(now, sent), before), es[|es| - 1]);
    }
  }

  /** What a full message is worth in closed form: (maxReceives + 1)^(1 + maxDefers + maxRedrives) - 1 deliveries. */
  function FullWorth(cfg: Config): (worth: nat)
    ensures worth == FullFuel(cfg)
  {
    FuelClosedForm(cfg, cfg.maxDefers + cfg.maxRedrives);
    Power(cfg.maxReceives + 1, 1 + cfg.maxDefers + cfg.maxRedrives) - 1
  }

  /**
    Every execution, with any number of runs at once, delivers a document's
    messages at most so often, duplicates included: one full message for the
    ingestion, one per hand-off, one per counted rescue, one per uncounted sweep
    and one per uncounted re-send.
   */
  lemma {:induction false} DeliveriesBounded(cfg: Config, now: int, sent: bool, es: seq<BagEvent>)
    ensures var s := BagExecute(cfg, Start(now, sent), es).base;
      s.deliveries <= FullWorth(cfg) * (1 + s.handoffs + cfg.giveUpAfter + s.polls + UncountedIn(es))
  {
    hide BagExecute, BagFuel, UncountedIn, DeliveredIn, FullFuel;
    ExecutionIsPaid(cfg, BOTH, now, sent, es);
    AllAreDelivered(cfg, now, sent, es);
    RescuesBoundedRegardless(cfg, now, sent, es);
    var s := BagExecute(cfg, Start(now, sent), es).base;
    var n := UncountedIn(es);
    WorthAtMost(cfg, 1 + SendsOf(BOTH, s) + n, 1 + s.handoffs + cfg.giveUpAfter + s.polls + n);
  }

  // --- hand-offs, each paid for by a parse delivery --------------------------------------

  /** This run may still hand the document over. */
  function Handing(): Run -> nat
  {
    (r: Run) => if r.phase.HandingOff? || (r.msg.stage == Parse && !r.phase.Returning?) then 1 else 0
  }

  function SlotHanding(run: Option<Run>): nat
  {
    if run.None? then 0 else Handing()(run.value)
  }

  lemma TransportHandsOver(cfg: Config, s: System, e: Event)
    ensures var after := TransportStep(cfg, s, e);
      after.handoffs + SlotHanding(after.run) <= s.handoffs + SlotHanding(s.run) + Delivered(cfg, {Parse}, s, e)
  {
  }

  lemma GateHandsOver(cfg: Config, s: System, e: Event)
    ensures var after := GateStep(cfg, s, e); after.handoffs + SlotHanding(after.run) <= s.handoffs + SlotHanding(s.run)
  {
  }

  lemma EndHandsOver(cfg: Config, s: System, e: Event)
    ensures var after := EndStep(cfg, s, e); after.handoffs + SlotHanding(after.run) <= s.handoffs + SlotHanding(s.run)
  {
  }

  lemma CommitHandsOver(s: System, e: Event)
    ensures var after := CommitStep(s, e); after.handoffs + SlotHanding(after.run) <= s.handoffs + SlotHanding(s.run)
  {
  }

  lemma HealerHandsOver(cfg: Config, s: System, e: Event)
    ensures var after := HealerStep(cfg, s, e);
      after.handoffs + SlotHanding(after.run) <= s.handoffs + SlotHanding(s.run)
  {
  }

  lemma StepHandsOver(cfg: Config, s: System, e: Event)
    ensures var after := Step(cfg, s, e);
      after.handoffs + SlotHanding(after.run) <= s.handoffs + SlotHanding(s.run) + Delivered(cfg, {Parse}, s, e)
  {
    hide TransportStep, GateStep, EndStep, CommitStep, HealerStep, SlotHanding;
    TransportHandsOver(cfg, s, e);
    GateHandsOver(cfg, s, e);
    EndHandsOver(cfg, s, e);
    CommitHandsOver(s, e);
    HealerHandsOver(cfg, s, e);
  }

  lemma BagStepHandsOver(cfg: Config, b: Bag, e: BagEvent)
    requires b.base.run.None?
    ensures var after := BagStep(cfg, b, e);
      after.base.handoffs + Sum(Handing(), after.runs)
        <= b.base.handoffs + Sum(Handing(), b.runs) + BagDelivered(cfg, {Parse}, b, e)
  {
    match e
    case Own(i, e) =>
      if i < |b.runs| && OfRun(e) {
        assert !e.Deliver?;
        hide Step, Handing, OfRun;
        StepHandsOver(cfg, Focus(b, i), e);
        UnfocusSum(Handing(), b, i, Step(cfg, Focus(b, i), e));
      }
    case Shared(e) =>
      if !OfRun(e) {
        assert forall r: Run :: Handing()(Mark(r)) == Handing()(r);
        hide Step, Handing, OfRun, GivesUp, Mark;
        StepHandsOver(cfg, b.base, e);
        SharedSum(cfg, Handing(), b, e);
      }
  }

  lemma {:induction false} HandoffsArePaid(cfg: Config, now: int, sent: bool, es: seq<BagEvent>)
    ensures var b := BagExecute(cfg, Start(now, sent), es);
      b.base.handoffs + Sum(Handing(), b.runs) <= DeliveredIn(cfg, {Parse}, Start(now, sent), es)
  {
    if es == [] {
    } else {
      hide BagStep, Handing, BagDelivered, Orderly;
      var before := es[..|es| - 1];
      HandoffsArePaid(cfg, now, sent, before);
      BagKeepsOrder(cfg, now, sent, before);
      BagStepHandsOver(cfg, BagExecute(cfg, Start(now, sent), before), es[|es| - 1]);
    }
  }

  /** However many runs overlap, hand-offs are bounded too: each needs a parse delivery of its own. */
  lemma {:induction false} HandoffsBounded(cfg: Config, now: int, sent: bool, es: seq<BagEvent>)
    ensures var s := BagExecute(cfg, Start(now, sent), es).base;
      s.handoffs <= FullWorth(cfg) * (1 + cfg.giveUpAfter + s.polls + UncountedIn(es))
  {
    hide BagExecute, BagFuel, UncountedIn, DeliveredIn, FullFuel, Handing;
    ExecutionIsPaid(cfg, {Parse}, now, sent, es);
    HandoffsArePaid(cfg, now, sent, es);
    RescuesBoundedRegardless(cfg, now, sent, es);
    var s := BagExecute(cfg, Start(now, sent), es).base;
    var n := UncountedIn(es);
    WorthAtMost(cfg, 1 + SendsOf({Parse}, s) + n, 1 + cfg.giveUpAfter + s.polls + n);
  }

  lemma Compound(f: nat, n: nat, handoffs: nat, deliveries: nat)
    requires handoffs <= f * n && deliveries <= f * (n + handoffs)
    ensures deliveries <= f * (f + 1) * n
  {
    MulMonotone(f, n + handoffs, n + f * n);
    assert f * (n + f * n) == f * (f + 1) * n;
  }

  /** So the bound closes over the configuration, the uncounted sweeps and the uncounted re-sends. */
  lemma {:induction false} DeliveriesBoundedOutright(cfg: Config, now: int, sent: bool, es: seq<BagEvent>)
    ensures var s := BagExecute(cfg, Start(now, sent), es).base;
      s.deliveries <= FullWorth(cfg) * (FullWorth(cfg) + 1) * (1 + cfg.giveUpAfter + s.polls + UncountedIn(es))
  {
    hide BagExecute, UncountedIn, FullWorth;
    DeliveriesBounded(cfg, now, sent, es);
    HandoffsBounded(cfg, now, sent, es);
    var s := BagExecute(cfg, Start(now, sent), es).base;
    Compound(FullWorth(cfg), 1 + cfg.giveUpAfter + s.polls + UncountedIn(es), s.handoffs, s.deliveries);
  }

  /** Without overlap there is one hand-off, and the bound is that much smaller. */
  lemma {:induction false} DeliveriesBoundedWithoutOverlap(cfg: Config, now: int, sent: bool, es: seq<BagEvent>)
    requires NoOverlap(cfg, Start(now, sent), es)
    ensures var s := BagExecute(cfg, Start(now, sent), es).base;
      s.deliveries <= FullWorth(cfg) * (2 + cfg.giveUpAfter + s.polls + UncountedIn(es))
  {
    hide BagExecute, UncountedIn, FullWorth;
    DeliveriesBounded(cfg, now, sent, es);
    StagesHappenOnceWithoutOverlap(cfg, now, sent, es);
    var s := BagExecute(cfg, Start(now, sent), es).base;
    var n := cfg.giveUpAfter + s.polls + UncountedIn(es);
    MulMonotone(FullWorth(cfg), 1 + s.handoffs + n, 2 + n);
  }

  /** Why the charge is needed: a provider-down deferral puts the message back as good as new. */
  lemma DeferDownIsFree(cfg: Config, s: System)
    requires cfg.maxReceives >= 1 && s.run.None? && s.queue == [Fresh(Extract)]
    ensures var after := Step(cfg, Step(cfg, Step(cfg, s, Deliver(0)), DeferDown(false)), Ack);
      after == s.(deliveries := s.deliveries + 1)
  {
  }
}
