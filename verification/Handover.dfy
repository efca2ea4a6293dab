/**
 * The messages a rank's executor is handed: which ones a program calls for,
 * that every run hands over each of them at most once, and that the executor
 * is complete exactly when it has been handed all of them.
 */
module Handover {
  import opened Actions
  import opened Fabric
  import opened Outlines
  import opened Invariants
  import opened Preservation
  import opened Runs
  import opened ActorState
  import opened ActorSteps

  /** A message of transfer `id` to an executor: a rendezvous header, the data, or the acknowledgement. */
  datatype Delivery = Header(id: Id) | Payload(id: Id) | Ack(id: Id)

  predicate IsDue(p: Program, r: nat, d: Delivery) {
    && IsTransfer(p, d.id)
    && match d
       case Header(id) => !Proto(p, id).Eager? && r == if Proto(p, id).Put? then id.rank else id.partner
       case Payload(id) => id.partner == r
       case Ack(id) => id.rank == r
  }

  /** Everything that rank `r`'s executor is to be handed. */
  function Due(p: Program, r: nat): (ds: set<Delivery>)
    ensures forall d :: d in ds <==> IsDue(p, r, d)
  {
    var all := (set id | id in p.acts :: Header(id)) + (set id | id in p.acts :: Payload(id))
               + (set id | id in p.acts :: Ack(id));
    set d | d in all && IsDue(p, r, d)
  }

  /** The fabric has acted on the message. */
  ghost predicate IsServed(p: Program, s: State, d: Delivery)
    requires d.id in p.acts
  {
    match d
    case Header(id) => Opener(p, id) in s.started && s.headers[id] == 0
    case Payload(id) => Mate(id) in s.cleared
    case Ack(id) => id in s.cleared
  }

  ghost function Served(p: Program, r: nat, s: State): (ds: set<Delivery>)
    ensures forall d :: d in ds <==> d in Due(p, r) && IsServed(p, s, d)
  {
    set d | d in Due(p, r) && IsServed(p, s, d)
  }

  /** The message an event acts on, if it acts on one. */
  function Brings(e: Event): Option<Delivery> {
    match e
    case EHeader(id) => Some(Header(id))
    case EReceive(id) => Some(Payload(id))
    case EAck(id) => Some(Ack(id))
    case _ => None
  }

  function Slot(m: Msg): Delivery {
    if m.kind.Eager? then Payload(m.id) else Header(m.id)
  }

  function Slots(early: seq<Msg>): set<Delivery> {
    set m | m in early :: Slot(m)
  }

  /** What rank `r`'s executor has been handed: acted on, or kept for later. */
  ghost function Handed(p: Program, r: nat, s: State, early: seq<Msg>): set<Delivery> {
    Served(p, r, s) + Slots(early)
  }

  // ---------------------------------------------------------------- events

  lemma HeaderServed(p: Program, o: Outline, s: State, e: Event, id: Id)
    requires Control(p, o, s) && Near(p, e.id) && Enabled(p, s, e) && IsTransfer(p, id) && !Proto(p, id).Eager?
    requires Shaped(p, s)
    ensures IsServed(p, Apply(p, s, e), Header(id)) <==> IsServed(p, s, Header(id)) || e == EHeader(id)
    ensures e == EHeader(id) ==> !IsServed(p, s, Header(id))
  {
    hide Control, Near, SoundAction, Started, Injected, Landing, Received, Acked;
    FlowOf(p, o, s, id);
    PairedProto(p, id);
    if e.EStart? {
      HeaderAtStart(p, s, e.id, id);
    } else {
      HeadersKeep(p, s, e, id);
      StartedKeep(p, s, e);
    }
  }

  /** Whoever opens a transfer creates its header. */
  lemma HeaderAtStart(p: Program, s: State, b: Id, id: Id)
    requires Shaped(p, s) && Near(p, b) && b !in s.started && IsTransfer(p, id) && Near(p, id) && !Proto(p, id).Eager?
    ensures var t := Started(p, s, b);
            (Opener(p, id) in t.started && t.headers[id] == 0) <==> (Opener(p, id) in s.started && s.headers[id] == 0)
  {
    hide Near, Started, SoundAction;
    PairedProto(p, id);
    if b.kind.Send? || b.kind.Recv? {
      CommSets(p, s, b);
      if b == id || b == Mate(id) {
        OwnHeaders(p, s, b, id);
      } else {
        OtherHeaders(p, s, b, id);
      }
    } else {
      LocalSets(p, s, b);
    }
  }

  /** Which actions an event finishes. */
  lemma ClearedAfter(p: Program, o: Outline, s: State, e: Event, b: Id)
    requires Control(p, o, s) && Near(p, e.id) && Enabled(p, s, e) && Shaped(p, s) && (b.kind.Send? || b.kind.Recv?)
    ensures b in Apply(p, s, e).cleared <==>
              b in s.cleared || (e.EReceive? && b == Mate(e.id)) || (e.EAck? && b == e.id)
    ensures (e.EReceive? && b == Mate(e.id)) || (e.EAck? && b == e.id) ==> b !in s.cleared
  {
    hide Control, Near, SoundAction, Started, Injected, Landing, Received, Acked;
    match e {
      case EStart(c) =>
        if c.kind.Send? || c.kind.Recv? {
          CommSets(p, s, c);
        } else {
          LocalSets(p, s, c);
        }
      case EReceive(_) | EAck(_) =>
        Progressed(p, o, s);
        FlowOf(p, o, s, e.id);
        CompletionExpected(p, s, e);
        SetsAfter(p, s, e);
      case _ => QuietSets(p, s, e);
    }
  }

  lemma ServedAfter(p: Program, o: Outline, s: State, e: Event, r: nat, d: Delivery)
    requires Control(p, o, s) && Near(p, e.id) && Enabled(p, s, e) && Shaped(p, s) && d in Due(p, r)
    ensures IsServed(p, Apply(p, s, e), d) <==> IsServed(p, s, d) || Brings(e) == Some(d)
    ensures Brings(e) == Some(d) ==> !IsServed(p, s, d)
  {
    hide Control, Near, Apply, Shaped;
    match d {
      case Header(id) => HeaderServed(p, o, s, e, id);
      case Payload(id) =>
        ClearedAfter(p, o, s, e, Mate(id));
        EventIsTransfer(p, s, e);
        assert e.EReceive? ==> (Mate(e.id) == Mate(id) <==> e.id == id);
      case Ack(id) =>
        ClearedAfter(p, o, s, e, id);
        EventIsTransfer(p, s, e);
    }
  }

  lemma EventIsTransfer(p: Program, s: State, e: Event)
    requires Enabled(p, s, e)
    ensures !e.EStart? ==> IsTransfer(p, e.id)
  {
  }

  /** A message event acts on a message that is due to the event's actor. */
  lemma BringsDue(p: Program, o: Outline, s: State, e: Event, r: nat)
    requires Control(p, o, s) && Enabled(p, s, e) && Brings(e).Some?
    ensures Brings(e).value in Due(p, r) <==> r == Actor(p, e)
  {
    hide Control;
    FlowOf(p, o, s, e.id);
  }

  /** An event hands its actor the one message it acts on, new to it, and nobody anything else. */
  lemma EventServes(p: Program, o: Outline, s: State, e: Event, r: nat)
    requires Control(p, o, s) && Near(p, e.id) && Enabled(p, s, e) && Shaped(p, s)
    ensures var t := Apply(p, s, e);
            if Brings(e).Some? && Actor(p, e) == r then
              Served(p, r, t) == Served(p, r, s) + {Brings(e).value} && Brings(e).value !in Served(p, r, s)
            else Served(p, r, t) == Served(p, r, s)
  {
    hide Control, Near, Apply, Shaped, Enabled, Actor, Due;
    if Brings(e).Some? {
      BringsDue(p, o, s, e, r);
    }
    forall d | d in Due(p, r)
      ensures IsServed(p, Apply(p, s, e), d) <==> IsServed(p, s, d) || Brings(e) == Some(d)
      ensures Brings(e) == Some(d) ==> !IsServed(p, s, d)
    {
      ServedAfter(p, o, s, e, r, d);
    }
  }

  // ---------------------------------------------------------------- whole runs

  /** How many messages a run hands rank `r`'s executor. */
  function Messages(p: Program, r: nat, es: seq<Event>): nat {
    if es == [] then 0
    else (if Brings(es[0]).Some? && Actor(p, es[0]) == r then 1 else 0) + Messages(p, r, es[1..])
  }

  lemma {:induction false} MessagesAreServed(p: Program, o: Outline, s: State, es: seq<Event>, r: nat)
    requires Control(p, o, s) && Sound(p) && Shaped(p, s) && IsRun(p, s, es)
    ensures |Served(p, r, Run(p, s, es))| == |Served(p, r, s)| + Messages(p, r, es)
    decreases |es|
  {
    hide Control, Apply, Served, Actor, Enabled;
    if es != [] {
      EventNear(p, s, es[0]);
      ControlKept(p, o, s, es[0]);
      EventServes(p, o, s, es[0], r);
      MessagesAreServed(p, o, Apply(p, s, es[0]), es[1..], r);
    }
  }

  /** A rank that is done has been handed everything. */
  lemma DoneIsServed(p: Program, o: Outline, s: State, r: nat)
    requires Control(p, o, s) && RankDone(p, s, r)
    ensures Served(p, r, s) == Due(p, r)
  {
    hide Control, Due, Served;
    forall d | d in Due(p, r) ensures IsServed(p, s, d) {
      DeliveryServed(p, o, s, r, d);
    }
    ServedAll(p, s, r);
  }

  lemma ServedAll(p: Program, s: State, r: nat)
    requires forall d | d in Due(p, r) :: IsServed(p, s, d)
    ensures Served(p, r, s) == Due(p, r)
  {
    hide Due;
  }

  lemma DeliveryServed(p: Program, o: Outline, s: State, r: nat, d: Delivery)
    requires Control(p, o, s) && RankDone(p, s, r) && d in Due(p, r)
    ensures IsServed(p, s, d)
  {
    hide Control, Near, SoundAction;
    FlowOf(p, o, s, d.id);
    PairedProto(p, d.id);
  }

  /**
   * The number of messages a rank is handed is the same in every run that
   * completes it, the size of `Due`, and no run hands it more.
   */
  lemma FixedMessages(p: Program, o: Outline, mem: seq<seq<Val>>, es: seq<Event>, r: nat)
    requires Timed(p, o) && Execution(p, mem, es)
    ensures Messages(p, r, es) <= |Due(p, r)|
    ensures RankDone(p, Outcome(p, mem, es), r) ==> Messages(p, r, es) == |Due(p, r)|
  {
    hide Control, Timed, IsRun, Run, Due, RankDone, Shaped;
    ControlInitial(p, o, mem);
    EveryRunProgresses(p, o, mem, es);
    var t := Outcome(p, mem, es);
    MessagesAreServed(p, o, Initial(mem), es, r);
    NoneServed(p, mem, r);
    SubsetSize(Served(p, r, t), Due(p, r));
    if RankDone(p, t, r) {
      DoneIsServed(p, o, t, r);
    }
  }

  lemma NoneServed(p: Program, mem: seq<seq<Val>>, r: nat)
    ensures Served(p, r, Initial(mem)) == {}
  {
    hide Due;
  }

  // ---------------------------------------------------------------- the executor's queue

  lemma Queues(early: seq<Msg>, m: Msg)
    ensures Slots(early + [m]) == Slots(early) + {Slot(m)}
  {
  }

  lemma Unqueues(early: seq<Msg>, i: nat)
    requires i < |early|
    ensures Slots(early) == Slots(Dropped(early, i)) + {Slot(early[i])}
  {
    var r := Dropped(early, i);
    forall d ensures d in Slots(early) <==> d in Slots(r) || d == Slot(early[i]) {
      if d in Slots(early) && d != Slot(early[i]) {
        var m :| m in early && Slot(m) == d;
        var j :| 0 <= j < |early| && early[j] == m;
        assert r[if j < i then j else j - 1] == m;
      }
    }
  }

  /** A kept message is due to the rank and has not been acted on. */
  lemma SlotIsOpen(p: Program, o: Outline, me: nat, s: State, m: Msg)
    requires Control(p, o, s) && EarlyOk(p, me, s, m)
    ensures Slot(m) in Due(p, me) && Slot(m) !in Served(p, me, s)
  {
    hide Control, Near, SoundAction;
    FlowOf(p, o, s, m.id);
  }

  /** All messages handed over are due. */
  lemma HandedIsDue(p: Program, o: Outline, me: nat, s: State, f: Fields)
    requires Control(p, o, s) && Earlies(p, me, s, f, {})
    ensures Handed(p, me, s, f.early) <= Due(p, me)
  {
    hide Control, EarlyOk, Due;
    forall m | m in f.early ensures Slot(m) in Due(p, me) {
      SlotIsOpen(p, o, me, s, m);
    }
  }

  /** An active action still lacks a message: an acknowledgement, or data that is not waiting in the queue. */
  lemma ActiveLacks(p: Program, o: Outline, me: nat, s: State, f: Fields, b: Id)
    requires Control(p, o, s) && Earlies(p, me, s, f, {}) && b in p.acts && b.rank == me && Active(s, b)
    requires b.kind.Send? || b.kind.Recv?
    ensures Handed(p, me, s, f.early) != Due(p, me)
  {
    hide Control, SoundAction;
    MateIn(p, o, s, b);
    var d := if b.kind.Send? then Ack(b) else Payload(Mate(b));
    assert Mate(Mate(b)) == b;
    assert d in Due(p, me) && !IsServed(p, s, d);
    forall m | m in f.early ensures Slot(m) != d {
      assert EarlyOk(p, me, s, m);
    }
  }

  lemma MateIn(p: Program, o: Outline, s: State, b: Id)
    requires Control(p, o, s) && b in p.acts && (b.kind.Send? || b.kind.Recv?)
    ensures Mate(b) in p.acts
  {
    hide Basic, Flows, Marks, Wires, Cells;
    assert SoundAction(p, b);
  }

  /** While a quiet executor has unfinished actions, one of them is active. */
  lemma SomethingActive(p: Program, o: Outline, me: nat, s: State, f: Fields, buf: seq<Val>) returns (b: Id)
    requires Agrees(p, o, me, s, f, buf, {}, {}, {}) && f.initial == {} && !f.complete
    ensures b in p.acts && b.rank == me && Active(s, b) && (b.kind.Send? || b.kind.Recv?)
  {
    hide Control, Earlies, Sents, Actives, Joins, Count, Sound;
    Progressed(p, o, s);
    var left := set id | id in f.acts && id !in s.cleared;
    var c :| c in f.acts && c !in s.cleared;
    assert c in left;
    b := Earliest(o, left);
    if b !in s.started {
      WaitsForLater(p, o, me, s, f, buf, b);
    }
  }

  lemma WaitsForLater(p: Program, o: Outline, me: nat, s: State, f: Fields, buf: seq<Val>, b: Id)
    requires Agrees(p, o, me, s, f, buf, {}, {}, {}) && f.initial == {} && b in f.acts && b !in s.started
    ensures exists c :: c in f.acts && c !in s.cleared && o.when(c) < o.when(b)
  {
    hide Earlies, Sents, Actives, Done, Joins, Count, Sound, Basic, Flows, Marks, Wires, Cells;
    CountZero(f.pending, b);
    var e :| e in f.pending && e.1 == b;
    SoundEdges(p);
    assert (e.0, e.1) in p.edges;
    assert e.0 !in s.cleared && e.0 in f.acts;
  }

  /**
   * A quiet executor is complete exactly when it has been handed all of the
   * messages due to it.
   */
  lemma CompleteIffHanded(p: Program, o: Outline, me: nat, s: State, f: Fields, buf: seq<Val>)
    requires Agrees(p, o, me, s, f, buf, {}, {}, {}) && f.initial == {}
    ensures Handed(p, me, s, f.early) <= Due(p, me)
    ensures f.complete <==> |Handed(p, me, s, f.early)| == |Due(p, me)|
  {
    hide Control, Earlies, Sents, Actives, Joins, Pends, Initials, Due, Handed;
    HandedIsDue(p, o, me, s, f);
    SubsetSize(Handed(p, me, s, f.early), Due(p, me));
    if f.complete {
      DoneIsServed(p, o, s, me);
      HandedHas(p, me, s, f);
      assert Handed(p, me, s, f.early) == Due(p, me);
    } else {
      var b := SomethingActive(p, o, me, s, f, buf);
      ActiveLacks(p, o, me, s, f, b);
    }
  }

  lemma HandedHas(p: Program, me: nat, s: State, f: Fields)
    ensures Served(p, me, s) <= Handed(p, me, s, f.early)
  {
  }

  // ---------------------------------------------------------------- the executor's steps

  /** Starting an action hands nothing over. */
  lemma StartHands(p: Program, o: Outline, me: nat, s: State, f: Fields, buf: seq<Val>, open: set<Id>, hand: set<Id>,
                   b: Id)
    requires Agrees(p, o, me, s, f, buf, open, hand, {}) && Near(p, b) && Ready(p, s, b) && Shaped(p, s)
    ensures Handed(p, me, Started(p, s, b), f.early) == Handed(p, me, s, f.early)
  {
    hide Control, Near, Served, Started;
    EventServes(p, o, s, EStart(b), me);
  }

  /** Acting on a message of this rank hands over that message. */
  lemma MessageHands(p: Program, o: Outline, me: nat, s: State, f: Fields, buf: seq<Val>, open: set<Id>, e: Event)
    requires Agrees(p, o, me, s, f, buf, open, {}, {}) && Near(p, e.id) && Enabled(p, s, e) && Shaped(p, s)
    requires Brings(e).Some? && Actor(p, e) == me
    ensures Handed(p, me, Apply(p, s, e), f.early) == Handed(p, me, s, f.early) + {Brings(e).value}
    ensures Brings(e).value !in Served(p, me, s)
  {
    hide Control, Near, Served, Apply, Enabled, Actor;
    EventServes(p, o, s, e, me);
  }

  lemma AnswerActor(p: Program, me: nat, s: State, m: Msg)
    requires EarlyOk(p, me, s, m) && !m.kind.Eager?
    ensures Actor(p, EHeader(m.id)) == me
  {
  }

  lemma QueueHands(p: Program, me: nat, s: State, early: seq<Msg>, m: Msg)
    ensures Handed(p, me, s, early + [m]) == Handed(p, me, s, early) + {Slot(m)}
  {
    hide Served, Slots;
    Queues(early, m);
  }

  lemma UnqueueHands(p: Program, me: nat, s: State, early: seq<Msg>, i: nat)
    requires i < |early|
    ensures Handed(p, me, s, early) == Handed(p, me, s, Dropped(early, i)) + {Slot(early[i])}
  {
    hide Served, Slots;
    Unqueues(early, i);
  }

  /** A message that is in flight and not in the queue is new. */
  lemma MessageIsNew(p: Program, o: Outline, me: nat, s: State, f: Fields, buf: seq<Val>, m: Msg)
    requires Agrees(p, o, me, s, f, buf, {}, {}, {}) && EarlyOk(p, me, s, m) && forall k | k in f.early :: k.id != m.id
    ensures Slot(m) in Due(p, me) && Slot(m) !in Handed(p, me, s, f.early)
  {
    hide Control, EarlyOk, Due, Served, Sents, Knows, Pends, Joins, Initials, Actives, Done;
    SlotIsOpen(p, o, me, s, m);
  }

  lemma CompletionIsNew(p: Program, o: Outline, me: nat, s: State, f: Fields, buf: seq<Val>, e: Event)
    requires Agrees(p, o, me, s, f, buf, {}, {}, {}) && Enabled(p, s, e) && Actor(p, e) == me
    requires e.EAck? || (e.EReceive? && !Proto(p, e.id).Eager?)
    ensures Brings(e).value in Due(p, me) && Brings(e).value !in Handed(p, me, s, f.early)
  {
    hide Control, Due, Served, Sents, Knows, Pends, Joins, Initials, Actives, Done;
    BringsDue(p, o, s, e, me);
    FlowOf(p, o, s, e.id);
    EventServes(p, o, s, e, me);
    forall m | m in f.early ensures Slot(m) != Brings(e).value {
      assert EarlyOk(p, me, s, m);
    }
  }
}
