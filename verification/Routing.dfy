/**
 * The messages behind a transfer: what the executors' transport calls put on
 * the network, which rank's actor the engine hands each message to, and which
 * action that actor finds for it.
 */
module Routing {
  import opened Actions
  import opened Fabric
  import opened Outlines
  import opened Invariants
  import opened Runs
  import opened ActorState
  import opened ActorSteps
  import opened Handover
  import Engine

  type Work = Engine.Work

  /** smsgSend on behalf of action `b`: this rank is the sender, the action's partner the receiver. */
  function Opened(k: Engine.Key, b: Id): Work {
    Engine.Work(k, Engine.SmsgSend, b.rank, b.partner, b.round)
  }

  /** A header turned into an RDMA transfer; only a put exchanges the two ends. */
  function Answered(header: Work, put: bool): Work {
    if put then header.Reverse().(stage := Engine.PutPayload) else header.(stage := Engine.GetPayload)
  }

  /** convertToAck: the hardware addresses are exchanged, the two ends are not. */
  function Acknowledged(w: Work): Work {
    w.(stage := match w.stage
                case GetPayload => Engine.GetSentAck
                case PutPayload => Engine.PutSentAck
                case _ => Engine.PayloadSentAck)
  }

  /** The message that brings `d`, as the calls that lead to it leave it. */
  function Carrier(k: Engine.Key, p: Program, d: Delivery): Work
    requires IsTransfer(p, d.id)
  {
    var put := Proto(p, d.id).Put?;
    var header := Opened(k, if put then Mate(d.id) else d.id);
    var payload := if Proto(p, d.id).Eager? then header else Answered(header, put);
    match d
    case Header(_) => header
    case Payload(_) => payload
    case Ack(_) => Acknowledged(payload)
  }

  /** Whatever a rank acts on was addressed to that rank's actor. */
  lemma RoutedToTheRightActor(k: Engine.Key, p: Program, o: Outline, s: State, e: Event)
    requires Control(p, o, s) && Enabled(p, s, e) && Brings(e).Some?
    ensures Carrier(k, p, Brings(e).value).DomTargetRank() == Actor(p, e)
    ensures Carrier(k, p, Brings(e).value).key == k
  {
    hide Control;
    FlowOf(p, o, s, e.id);
  }

  /** The action an actor looks up, from the message's own fields: Action::messageId of type, round and partner. */
  function LookedUp(w: Work, protocol: Protocol): Id {
    var me := w.DomTargetRank();
    match w.stage
    case PayloadSentAck | GetSentAck | PutSentAck => Id(me, Send, w.round, w.domRecver)
    case SmsgSend => Id(me, if protocol.Put? then Send else Recv, w.round, w.domSender)
    case _ => Id(me, Recv, w.round, w.domSender)
  }

  /** The action a delivery is for. */
  function Target(p: Program, d: Delivery): Id
    requires IsTransfer(p, d.id)
  {
    match d
    case Header(id) => if Proto(p, id).Put? then id else Mate(id)
    case Payload(id) => Mate(id)
    case Ack(id) => id
  }

  /** The actor finds the action at its own end of the transfer. */
  lemma FindsItsAction(k: Engine.Key, p: Program, r: nat, d: Delivery)
    requires d in Due(p, r)
    ensures LookedUp(Carrier(k, p, d), Proto(p, d.id)) == Target(p, d)
    ensures Target(p, d).rank == r == Carrier(k, p, d).DomTargetRank()
  {
  }

  /** The executor's call that sends a header or a payload. */
  function CallFor(p: Program, d: Delivery): Sent
    requires IsTransfer(p, d.id) && !d.Ack?
  {
    match Proto(p, d.id)
    case Eager => EagerSend(d.id)
    case Get => if d.Header? then GetHeader(d.id) else GetRequest(d.id)
    case Put => if d.Header? then PutHeader(d.id) else PutData(d.id)
  }

  /** The rank that makes this call. */
  function Caller(p: Program, d: Delivery): nat
    requires IsTransfer(p, d.id) && !d.Ack?
  {
    match Proto(p, d.id)
    case Eager => d.id.rank
    case Get => if d.Header? then d.id.rank else d.id.partner
    case Put => if d.Header? then d.id.partner else d.id.rank
  }

  /** The header is what the receiver of the call answers: the call turns it into the payload. */
  lemma AnswersTheHeader(k: Engine.Key, p: Program, m: Msg)
    requires IsTransfer(p, m.id) && m.kind == Proto(p, m.id) && !m.kind.Eager?
    ensures Answer(m) == CallFor(p, Payload(m.id))
    ensures Carrier(k, p, Payload(m.id)) == Answered(Carrier(k, p, Slot(m)), m.kind.Put?)
    ensures Key(m) == Target(p, Slot(m)) == LookedUp(Carrier(k, p, Slot(m)), m.kind)
    ensures Key(m).rank == Caller(p, Payload(m.id))
  {
  }

  /** A header or payload that was acted on has been sent, once, by the executor whose call it is. */
  lemma ServedWasSent(p: Program, o: Outline, me: nat, s: State, f: Fields, buf: seq<Val>, r: nat, d: Delivery)
    requires Agrees(p, o, me, s, f, buf, {}, {}, {}) && d in Served(p, r, s) && !d.Ack? && me == Caller(p, d)
    ensures f.sent[CallFor(p, d)] == 1
  {
    hide Control, Earlies, Actives, Joins, Pends, Initials, Due;
    FlowOf(p, o, s, d.id);
    PairedProto(p, d.id);
    assert SentOk(p, me, s, f, d.id);
  }

  // ---------------------------------------------------------------- all that is sent

  /**
   * The state of the collective calls for the call `c` of rank `me`: by length
   * alone a transfer is eager, or it is a get or a put as configured.  A started
   * eager send has been sent and a started get send announced; a started put
   * receive has been announced; and an answered header has been answered.
   */
  ghost predicate CalledFor(p: Program, me: nat, s: State, c: Sent) {
    && IsTransfer(p, c.id)
    && var eager := p.acts[c.id].nelems < p.cfg.eagerCutoff;
       match c
       case EagerSend(id) => id.rank == me && eager && id in s.started
       case GetHeader(id) => id.rank == me && !eager && p.cfg.useGet && id in s.started
       case PutHeader(id) => id.partner == me && !eager && !p.cfg.useGet && Mate(id) in s.started
       case GetRequest(id) =>
         id.partner == me && !eager && p.cfg.useGet && id in s.started && s.headers[id] == 0
       case PutData(id) =>
         id.rank == me && !eager && !p.cfg.useGet && Mate(id) in s.started && s.headers[id] == 0
  }

  /** An executor in agreement has made exactly the calls that are called for, each once, and no other. */
  lemma SentExactly(p: Program, o: Outline, me: nat, s: State, f: Fields, buf: seq<Val>,
                    open: set<Id>, hand: set<Id>, waking: set<Id>)
    requires Agrees(p, o, me, s, f, buf, open, hand, waking)
    ensures forall c :: f.sent[c] == if CalledFor(p, me, s, c) then 1 else 0
  {
    hide Control, Earlies, Actives, Joins, Pends, Initials, Done, Knows;
    forall c ensures f.sent[c] == if CalledFor(p, me, s, c) then 1 else 0 {
      if IsOwnCall(p, me, c) {
        assert SentOk(p, me, s, f, c.id);
      } else {
        assert c !in f.sent;
      }
    }
  }

  /** What an action has sent once it has started, by its own length and the configuration. */
  lemma OpenedByLength(p: Program, o: Outline, me: nat, s: State, f: Fields, buf: seq<Val>, id: Id)
    requires Agrees(p, o, me, s, f, buf, {}, {}, {}) && id in f.acts && id in s.started
    ensures var eager := f.acts[id].nelems < p.cfg.eagerCutoff;
            && (id.kind.Send? ==>
                  && f.sent[EagerSend(id)] == (if eager then 1 else 0)
                  && f.sent[GetHeader(id)] == (if !eager && p.cfg.useGet then 1 else 0)
                  && f.sent[PutHeader(id)] == 0)
            && (id.kind.Recv? ==>
                  && f.sent[PutHeader(Mate(id))] == (if !eager && !p.cfg.useGet then 1 else 0)
                  && f.sent[EagerSend(Mate(id))] == 0 && f.sent[GetHeader(Mate(id))] == 0)
  {
    hide Control, Earlies, Actives, Joins, Pends, Initials, Done, Sents;
    SentExactly(p, o, me, s, f, buf, {}, {}, {});
    OwnAction(p, o, s, id);
  }

  lemma OwnAction(p: Program, o: Outline, s: State, id: Id)
    requires Control(p, o, s) && id in p.acts
    ensures id.kind.Send? || id.kind.Recv? ==>
              && Mate(id) in p.acts && p.acts[Mate(id)].nelems == p.acts[id].nelems && id.partner != id.rank
              && Mate(Mate(id)) == id
  {
    hide Timed, Basic, Flows;
    assert SoundAction(p, id);
  }
}
