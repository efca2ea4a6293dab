/**
 * The executor of one rank: a re-entrant state machine that starts actions as
 * their dependencies clear, answers rendezvous headers and queues early
 * messages.  Every method is a finite run of the fabric.
 */
module Executor {
  import opened Actions
  import opened Fabric
  import opened Outlines
  import opened Invariants
  import opened Runs
  import opened ActorState
  import opened ActorSteps
  import opened Handover

  class DagActor {
    const me: nat
    const recvBase: nat
    const sendBase: nat
    const cfg: Config
    const buffer: array<Val>
    var acts: map<Id, Action>
    var initial: set<Id>
    var pending: seq<(Id, Id)>
    var joins: map<Id, nat>
    var active: set<Id>
    var early: seq<Msg>
    var sent: multiset<Sent>
    var complete: bool
    var finalized: nat
    // the program of all ranks, its outline, and the state of the fabric as of the latest event here
    ghost var p: Program
    ghost var o: Outline
    ghost var g: State

    ghost function F(): Fields
      reads this
    {
      Fields(acts, initial, pending, joins, active, early, sent, complete, finalized)
    }

    ghost predicate Ok(open: set<Id>, hand: set<Id>, waking: set<Id>)
      reads this, buffer
    {
      && Agrees(p, o, me, g, F(), buffer[..], open, hand, waking)
      && p.recvBase == recvBase && p.sendBase == sendBase && p.cfg == cfg
    }

    ghost predicate InFinish(open: set<Id>, ac: Id)
      reads this, buffer
    {
      && Finishing(p, o, me, g, F(), buffer[..], open, ac)
      && p.recvBase == recvBase && p.sendBase == sendBase && p.cfg == cfg
    }

    /** The messages handed to this executor so far. */
    ghost function Inbox(): set<Delivery>
      reads this
    {
      Handed(p, me, g, early)
    }

    /** Between `old` and now the fabric has moved on by a run; program and actions are the same. */
    twostate predicate Advanced()
      reads this
    {
      && p == old(p) && o == old(o) && acts == old(acts)
      && Reaches(p, me, old(g), g)
      && old(g.started) <= g.started && old(g.cleared) <= g.cleared
      && initial <= old(initial)
    }

    ghost function Unstarted(): nat
      reads this
    {
      |acts.Keys - g.started|
    }

    // ---------------------------------------------------------------- building the DAG

    constructor (me: nat, cfg: Config, recvBase: nat, sendBase: nat, buffer: array<Val>)
      ensures this.me == me && this.cfg == cfg && this.recvBase == recvBase && this.sendBase == sendBase
      ensures this.buffer == buffer
      ensures Built(F()) && acts == map[] && pending == [] && initial == {}
    {
      this.me, this.cfg, this.recvBase, this.sendBase, this.buffer := me, cfg, recvBase, sendBase, buffer;
      acts, initial, pending, joins, active := map[], {}, [], map[], {};
      early, sent, complete, finalized := [], multiset{}, false, 0;
    }

    /** addDependency: `ac` waits for `precursor`, or may start first if it waits for nothing. */
    method AddDependency(precursor: Option<Id>, ac: Id, action: Action)
      requires Built(F()) && (ac in acts ==> acts[ac] == action)
      modifies this
      ensures Built(F())
      ensures acts == old(acts)[ac := action]
      ensures precursor.Some? ==> pending == old(pending) + [(precursor.value, ac)] && initial == old(initial) - {ac}
      ensures precursor.None? ==>
                && pending == old(pending)
                && initial == if Count(pending, ac) == 0 then old(initial) + {ac} else old(initial)
    {
      hide Built, Count;
      ghost var f := F();
      EdgeBuilt(f, if precursor.Some? then precursor.value else ac, ac, action);
      InitialBuilt(f, ac, action);
      NewActionFree(f, ac, action);
      if ac !in acts {
        acts, joins := acts[ac := action], joins[ac := 0];
      }
      match precursor {
        case Some(pre) =>
          initial := initial - {ac};
          pending := pending + [(pre, ac)];
          joins := joins[ac := joins[ac] + 1];
        case None =>
          if joins[ac] == 0 {
            initial := initial + {ac};
          }
      }
    }

    // ---------------------------------------------------------------- buffers

    /** DefaultSlicer::unpackReduce. */
    method UnpackReduce(lo: nat, data: seq<Val>)
      requires lo + |data| <= buffer.Length
      modifies buffer
      ensures buffer[..] == Combine(old(buffer[..]), lo, data)
    {
      ghost var was := buffer[..];
      for i := 0 to |data|
        invariant buffer[..] == Combine(was, lo, data[..i])
      {
        buffer[lo + i] := buffer[lo + i] + data[i];
        assert data[..i + 1] == data[..i] + [data[i]];
      }
      assert data[..|data|] == data;
    }

    /** DefaultSlicer::unpackRecvBuf and memcpyPackedBufs. */
    method UnpackRecvBuf(lo: nat, data: seq<Val>)
      requires lo + |data| <= buffer.Length
      modifies buffer
      ensures buffer[..] == Stored(old(buffer[..]), lo, data)
    {
      ghost var was := buffer[..];
      for i := 0 to |data|
        invariant buffer[..] == Stored(was, lo, data[..i])
      {
        buffer[lo + i] := data[i];
        assert data[..i + 1] == data[..i] + [data[i]];
      }
      assert data[..|data|] == data;
    }

    /** startShuffle: the copies the collective asks for. */
    method CopyBlocks(copies: map<nat, nat>)
      requires forall x | x in copies :: x < buffer.Length && copies[x] < buffer.Length
      modifies buffer
      ensures buffer[..] == Copied(old(buffer[..]), copies)
    {
      var was := buffer[..];
      for i := 0 to buffer.Length
        invariant forall x | 0 <= x < i :: buffer[x] == Copied(was, copies)[x]
        invariant forall x | i <= x < buffer.Length :: buffer[x] == was[x]
      {
        if i in copies {
          buffer[i] := was[copies[i]];
        }
      }
    }

    // ---------------------------------------------------------------- running the DAG

    /** start(): begin with every action that waits for nothing. */
    method Start()
      requires Ok({}, {}, {})
      modifies this, buffer
      ensures Ok({}, {}, {}) && Advanced() && initial == {}
      ensures Inbox() == old(Inbox())
    {
      hide Agrees, Reaches, Sound, Handed;
      Known(p, o, me, g, F(), buffer[..], {}, {}, {});
      ReachesItself(p, me, g);
      while initial != {}
        invariant Ok({}, {}, {}) && Advanced() && Inbox() == old(Inbox())
        decreases Unstarted()
      {
        var ac :| ac in initial;
        InitialReady(p, o, me, g, F(), buffer[..], {}, ac);
        initial := initial - {ac};
        ghost var mid := g;
        StartAction(ac, {});
        ReachesOn(p, me, old(g), mid, g);
        OneFewerLeft(acts.Keys, mid.started, g.started, ac);
      }
    }

    method StartAction(ac: Id, ghost open: set<Id>)
      requires Ok(open, {ac}, {}) && ac in acts && Ready(p, g, ac)
      modifies this, buffer
      ensures Ok(open, {}, {}) && Advanced() && ac in g.started && |pending| <= old(|pending|)
      ensures Inbox() == old(Inbox())
      decreases Unstarted(), 1
    {
      hide Ok, Advanced, Handed;
      match ac.kind {
        case Send | Recv => StartComm(ac, open);
        case Shuffle | Join => StartLocal(ac, open);
      }
    }

    /**
     * startSend and startRecv: become active, open the transfer, take up early
     * messages.  startSend has the last two the other way round; only a put
     * header can be waiting for a send, and then there is nothing to open.
     */
    method StartComm(ac: Id, ghost open: set<Id>)
      requires Ok(open, {ac}, {}) && ac in acts && Ready(p, g, ac) && (ac.kind.Send? || ac.kind.Recv?)
      modifies this, buffer
      ensures Ok(open, {}, {}) && Advanced() && ac in g.started && |pending| <= old(|pending|)
      ensures Inbox() == old(Inbox())
      decreases Unstarted(), 0
    {
      hide Agrees, Reaches, Started, Ready, Opening, Calls, Near, Sound, Handed;
      Known(p, o, me, g, F(), buffer[..], open, {ac}, {});
      KnownAction(p, o, me, g, F(), buffer[..], open, {ac}, {}, ac);
      ghost var was := g;
      MonotoneStart(p, g, ac);
      OneFewerLeft(acts.Keys, g.started, Started(p, g, ac).started, ac);
      StartAgrees(p, o, me, g, F(), buffer[..], open, ac);
      StartHands(p, o, me, g, F(), buffer[..], open, {ac}, ac);
      OpeningIs(p, ac);
      active := active + {ac};
      if ac.kind.Send? {
        DoSend(ac);
      } else {
        DoRecv(ac);
      }
      g := Started(p, g, ac);
      ReputPending(ac, open);
      ReachesOn(p, me, was, Started(p, was, ac), g);
    }

    /** doSend: the eager payload or the get header; under the put protocol the receiver opens the transfer. */
    method DoSend(ac: Id)
      requires ac in acts
      modifies this`sent
      ensures sent == old(sent) + if acts[ac].nelems < cfg.eagerCutoff then multiset{EagerSend(ac)}
                                  else if cfg.useGet then multiset{GetHeader(ac)} else multiset{}
    {
      if acts[ac].nelems < cfg.eagerCutoff {
        sent := sent + multiset{EagerSend(ac)};
      } else if cfg.useGet {
        sent := sent + multiset{GetHeader(ac)};
      }
    }

    /** doRecv: under the eager and get protocols the sender makes contact; under put it is told where to put. */
    method DoRecv(ac: Id)
      requires ac in acts
      modifies this`sent
      ensures sent == old(sent) + if acts[ac].nelems < cfg.eagerCutoff || cfg.useGet then multiset{}
                                  else multiset{PutHeader(Mate(ac))}
    {
      if !(acts[ac].nelems < cfg.eagerCutoff || cfg.useGet) {
        sent := sent + multiset{PutHeader(Mate(ac))};
      }
    }

    /** A shuffle copies blocks, a join does nothing; both are done at once. */
    method StartLocal(ac: Id, ghost open: set<Id>)
      requires Ok(open, {ac}, {}) && ac in acts && Ready(p, g, ac) && (ac.kind.Shuffle? || ac.kind.Join?)
      modifies this, buffer
      ensures Ok(open, {}, {}) && Advanced() && ac in g.started && |pending| <= old(|pending|)
      ensures Inbox() == old(Inbox())
      decreases Unstarted(), 0
    {
      hide Agrees, Finishing, Reaches, Started, Ready, Near, Sound, Handed;
      Known(p, o, me, g, F(), buffer[..], open, {ac}, {});
      KnownAction(p, o, me, g, F(), buffer[..], open, {ac}, {}, ac);
      ghost var was := g;
      MonotoneStart(p, g, ac);
      OneFewerLeft(acts.Keys, g.started, Started(p, g, ac).started, ac);
      LocalFinishes(p, o, me, g, F(), buffer[..], open, ac);
      StartHands(p, o, me, g, F(), buffer[..], open, {ac}, ac);
      if ac.kind.Shuffle? {
        CopyBlocks(acts[ac].copies);
      }
      g := Started(p, g, ac);
      ClearAction(ac, open);
      ReachesOn(p, me, was, Started(p, was, ac), g);
    }

    // ---------------------------------------------------------------- clearing

    /** The first half of clearAction: the action is no longer active; test for completion. */
    method Retire(ac: Id, ghost open: set<Id>)
      requires InFinish(open, ac)
      modifies this`active, this`complete, this`finalized
      ensures Ok(open + {ac}, {}, {}) && ac in g.cleared
      ensures Inbox() == old(Inbox())
    {
      hide Agrees, Finishing, AllCleared, Control, Reaches, Sound, Handed;
      FinishingKnown(p, o, me, g, F(), buffer[..], open, ac);
      ClearedAgrees(p, o, me, g, F(), buffer[..], open, ac);
      active := active - {ac};
      CheckCollectiveDone();
    }

    /** clearAction: retire the action, test for completion, release what depends on it. */
    method ClearAction(ac: Id, ghost open: set<Id>)
      requires InFinish(open, ac)
      modifies this, buffer
      ensures Ok(open, {}, {}) && Advanced() && |pending| <= old(|pending|)
      ensures Inbox() == old(Inbox())
      decreases Unstarted(), 3
    {
      hide Ok, Handed;
      Retire(ac, open);
      ClearDependencies(ac, open);
    }

    /** checkCollectiveDone: finalize and notify once nothing is active, pending or initial. */
    method CheckCollectiveDone()
      modifies this`complete, this`finalized
      ensures var done := NothingLeft(old(F()));
              F() == old(F()).(complete := old(complete) || done,
                               finalized := old(finalized) + if done then 1 else 0)
    {
      if active == {} && pending == [] && initial == {} {
        finalized := finalized + 1;
        complete := true;
      }
    }

    /** clearDependencies: release every entry of `ac`, starting the actions whose counter reaches 0. */
    method ClearDependencies(ac: Id, ghost open: set<Id>)
      requires Ok(open + {ac}, {}, {}) && ac in g.cleared
      modifies this, buffer
      ensures Ok(open, {}, {}) && Advanced() && |pending| <= old(|pending|)
      ensures Inbox() == old(Inbox())
      decreases Unstarted(), 2, |pending| + 1
    {
      hide Agrees, Reaches, Ready, Sound, Handed;
      Known(p, o, me, g, F(), buffer[..], open + {ac}, {}, {});
      ReachesItself(p, me, g);
      while exists i :: 0 <= i < |pending| && pending[i].0 == ac
        invariant Ok(open + {ac}, {}, {}) && Advanced() && |pending| <= old(|pending|) && Inbox() == old(Inbox())
        decreases |pending|
      {
        var i :| 0 <= i < |pending| && pending[i].0 == ac;
        FewerLeft(acts.Keys, old(g.started), g.started);
        ghost var mid := g;
        Release(i, ac, open);
        ReachesOn(p, me, old(g), mid, g);
      }
      NoneLeft(pending, ac);
      CloseAgrees(p, o, me, g, F(), buffer[..], open, ac);
    }

    /** One turn of the loop in clearDependencies. */
    method Release(i: nat, ac: Id, ghost open: set<Id>)
      requires Ok(open + {ac}, {}, {}) && ac in g.cleared && i < |pending| && pending[i].0 == ac
      modifies this, buffer
      ensures Ok(open + {ac}, {}, {}) && Advanced() && |pending| < old(|pending|)
      ensures Inbox() == old(Inbox())
      decreases Unstarted(), 2, |pending|
    {
      hide Agrees, Reaches, Ready, Sound, Handed;
      Known(p, o, me, g, F(), buffer[..], open + {ac}, {}, {});
      ReachesItself(p, me, g);
      ReleaseKnown(p, o, me, g, F(), buffer[..], open + {ac}, i);
      ReleaseAgrees(p, o, me, g, F(), buffer[..], open + {ac}, i);
      var next := pending[i].1;
      pending := Without(pending, i);
      joins := joins[next := joins[next] - 1];
      if joins[next] == 0 {
        StartAction(next, open + {ac});
      }
    }

    // ---------------------------------------------------------------- messages

    /** reputPending: deliver again what arrived before action `ac` was active. */
    method ReputPending(ac: Id, ghost open: set<Id>)
      requires Ok(open, {}, {ac})
      modifies this, buffer
      ensures Ok(open, {}, {}) && Advanced() && |pending| <= old(|pending|)
      ensures Inbox() == old(Inbox())
      decreases Unstarted(), 7
    {
      hide Agrees, Reaches, EarlyOk, Sound, Handed;
      Known(p, o, me, g, F(), buffer[..], open, {}, {ac});
      ReachesItself(p, me, g);
      var tmp: seq<Msg> := [];
      while exists i :: 0 <= i < |early| && Key(early[i]) == ac
        invariant Ok(open, {}, {ac}) && Advanced() && g == old(g) && pending == old(pending)
        invariant old(Inbox()) == Inbox() + (if tmp == [] then {} else {Slot(tmp[0])})
        invariant tmp == [] || (|tmp| == 1 && EarlyOk(p, me, g, tmp[0])
                                && forall m | m in early :: m.id != tmp[0].id && Key(m) != ac)
        decreases |early|
      {
        var i :| 0 <= i < |early| && Key(early[i]) == ac;
        assert early[i] in early;
        TakeEarly(p, o, me, g, F(), buffer[..], open, ac, i);
        UnqueueHands(p, me, g, early, i);
        tmp := tmp + [early[i]];
        early := Dropped(early, i);
      }
      NoneFor(early, ac);
      Awake(p, o, me, g, F(), buffer[..], open, ac);
      if tmp != [] {
        // the ids of early messages are distinct, so at most one was waiting
        Recv(Small(tmp[0]), open);
      }
    }

    /** recv: dispatch on the kind of message. */
    method Recv(msg: Incoming, ghost open: set<Id>)
      requires Ok(open, {}, {}) && Expected(msg)
      modifies this, buffer
      ensures Ok(open, {}, {}) && Advanced() && |pending| <= old(|pending|)
      ensures Inbox() == old(Inbox()) + {Handing(msg)}
      decreases Unstarted(), 6
    {
      hide Agrees, Reaches, EarlyOk, Enabled, Handed;
      match msg {
        case Small(m) => IncomingHeader(m, open);
        case RdmaPayload(id) => DataRecved(id, false, [], open);
        case SentAck(id) => DataSent(id, open);
      }
    }

    /**
     * DagCollective::recv for its one actor: hand over a message and ask whether
     * the actor is complete.  Every message is a new one of those due to the
     * rank, and the answer is yes exactly when it was the last of them.
     */
    method Receive(msg: Incoming) returns (done: bool)
      requires Ok({}, {}, {}) && Expected(msg) && initial == {}
      modifies this, buffer
      ensures Ok({}, {}, {}) && Advanced() && initial == {}
      ensures Handing(msg) in Due(p, me) && Inbox() == old(Inbox()) + {Handing(msg)}
      ensures |Inbox()| == |old(Inbox())| + 1 <= |Due(p, me)|
      ensures done == complete && (done <==> |Inbox()| == |Due(p, me)|)
    {
      hide Agrees, Reaches, Handed, Due, Enabled, EarlyOk;
      ExpectedIsNew(msg);
      Recv(msg, {});
      CompleteIffHanded(p, o, me, g, F(), buffer[..]);
      SubsetSize(Inbox(), Due(p, me));
      done := complete;
    }

    lemma ExpectedIsNew(msg: Incoming)
      requires Ok({}, {}, {}) && Expected(msg)
      ensures Handing(msg) in Due(p, me) && Handing(msg) !in Inbox()
    {
      hide Agrees, Handed, Due, Enabled, EarlyOk;
      match msg {
        case Small(m) => MessageIsNew(p, o, me, g, F(), buffer[..], m);
        case RdmaPayload(id) => CompletionIsNew(p, o, me, g, F(), buffer[..], EReceive(id));
        case SentAck(id) => CompletionIsNew(p, o, me, g, F(), buffer[..], EAck(id));
      }
    }

    /** What the fabric can hand to this rank: something really in flight and not already queued. */
    ghost predicate Expected(msg: Incoming)
      reads this
    {
      match msg
      case Small(m) => EarlyOk(p, me, g, m) && forall k | k in early :: k.id != m.id
      case RdmaPayload(id) => Enabled(p, g, EReceive(id)) && !Proto(p, id).Eager? && id.partner == me
      case SentAck(id) => Enabled(p, g, EAck(id)) && id.rank == me
    }

    /** incomingHeader: take, answer, or queue until the action is active. */
    method IncomingHeader(m: Msg, ghost open: set<Id>)
      requires Ok(open, {}, {}) && Expected(Small(m))
      modifies this, buffer
      ensures Ok(open, {}, {}) && Advanced() && |pending| <= old(|pending|)
      ensures Inbox() == old(Inbox()) + {Slot(m)}
      decreases Unstarted(), 5
    {
      hide Agrees, Reaches, EarlyOk, Enabled, Apply, Near, Handed;
      Known(p, o, me, g, F(), buffer[..], open, {}, {});
      ReachesItself(p, me, g);
      var waits := Key(m);
      if waits !in active {
        ParkAgrees(p, o, me, g, F(), buffer[..], open, m);
        QueueHands(p, me, g, early, m);
        early := early + [m];
      } else {
        NowActive(p, o, me, g, F(), buffer[..], open, waits);
        EarlyTransfer(p, me, g, m);
        SoundNear(p, m.id);
        if m.kind.Eager? {
          EagerEnabled(p, me, g, m);
          DataRecved(m.id, true, m.data, open);
        } else {
          AnswerHeader(m, open);
        }
      }
    }

    /** nextRoundReadyToGet and nextRoundReadyToPut. */
    method AnswerHeader(m: Msg, ghost open: set<Id>)
      requires Ok(open, {}, {}) && Expected(Small(m)) && !m.kind.Eager? && Key(m) in active && Near(p, m.id)
      modifies this, buffer
      ensures Ok(open, {}, {}) && Advanced() && |pending| <= old(|pending|)
      ensures Inbox() == old(Inbox()) + {Header(m.id)}
      decreases Unstarted(), 4
    {
      hide Agrees, Reaches, EarlyOk, Enabled, Apply, Near, Sound, Handed;
      Known(p, o, me, g, F(), buffer[..], open, {}, {});
      AnswerAgrees(p, o, me, g, F(), buffer[..], open, m);
      AnswerActor(p, me, g, m);
      MessageHands(p, o, me, g, F(), buffer[..], open, EHeader(m.id));
      MonotoneEvent(p, g, EHeader(m.id));
      if m.kind.Put? {
        sent := sent + multiset{PutData(m.id)};
      } else {
        sent := sent + multiset{GetRequest(m.id)};
      }
      g := Apply(p, g, EHeader(m.id));
    }

    /** dataRecved: put the data where the receive wants it, then clear the receive. */
    method DataRecved(id: Id, eager: bool, data: seq<Val>, ghost open: set<Id>)
      requires Ok(open, {}, {})
      requires Enabled(p, g, EReceive(id)) && id.partner == me && eager == Proto(p, id).Eager?
      requires eager ==> data == Data(p, g, id)
      modifies this, buffer
      ensures Ok(open, {}, {}) && Advanced() && |pending| <= old(|pending|)
      ensures Inbox() == old(Inbox()) + {Payload(id)}
      decreases Unstarted(), 4
    {
      hide Agrees, Finishing, Reaches, Apply, Taken, Data, Near, Active, Sound, Enabled, Handed;
      Known(p, o, me, g, F(), buffer[..], open, {}, {});
      ghost var e := EReceive(id);
      CompletionFound(p, o, me, g, F(), buffer[..], open, e);
      var ac := Mate(id);
      assert ac in active;  // otherwise the source throws: data for an unknown receive
      CompletionFinishes(p, o, me, g, F(), buffer[..], open, e);
      MessageHands(p, o, me, g, F(), buffer[..], open, e);
      ReceivedBuffer(p, g, id);
      MonotoneEvent(p, g, e);
      EventTransfer(p, g, e);
      RecvAction(p, id);
      if !eager {
        TakenAnyway(p, buffer[..], acts[ac], Data(p, g, id), seq(acts[ac].nelems, _ => multiset{}));
      }
      TakeData(acts[ac], eager, data);
      ghost var was := g;
      g := Apply(p, g, e);
      FewerLeft(acts.Keys, was.started, g.started);
      ClearAction(ac, open);
      ReachesOn(p, me, was, Apply(p, was, e), g);
    }

    /** The switch over recv_type in dataRecved; RDMA data is in place, or waits in the receive workspace. */
    method TakeData(a: Action, eager: bool, data: seq<Val>)
      requires a.mode.RecvInPlace? || a.mode.RecvReduce? || a.mode.RecvPacked?
      requires a.mode.RecvPacked? ==> a.offset == 0
      requires buffer.Length == p.size && p.recvBase == recvBase && p.sendBase == sendBase
      requires Addr(p, a) + a.nelems <= p.size && (a.mode.RecvReduce? ==> Land(p, a) + a.nelems <= p.size)
      requires eager ==> |data| == a.nelems
      modifies buffer
      ensures buffer[..] == Taken(p, old(buffer[..]), a, eager, if eager then data else seq(a.nelems, _ => multiset{}))
    {
      if a.mode.RecvReduce? {
        var src := if eager then data else buffer[recvBase + a.offset..recvBase + a.offset + a.nelems];
        UnpackReduce(a.offset, src);
      } else if eager {
        // a packed receive copies to the start of the workspace whatever its offset
        UnpackRecvBuf(if a.mode.RecvPacked? then recvBase else a.offset, data);
      }
    }

    /** dataSent: the network has read the source, the send is over. */
    method DataSent(id: Id, ghost open: set<Id>)
      requires Ok(open, {}, {}) && Enabled(p, g, EAck(id)) && id.rank == me
      modifies this, buffer
      ensures Ok(open, {}, {}) && Advanced() && |pending| <= old(|pending|)
      ensures Inbox() == old(Inbox()) + {Ack(id)}
      decreases Unstarted(), 4
    {
      hide Agrees, Finishing, Reaches, Apply, Near, Sound, Enabled, Active, Handed;
      Known(p, o, me, g, F(), buffer[..], open, {}, {});
      ghost var e := EAck(id);
      CompletionFound(p, o, me, g, F(), buffer[..], open, e);
      assert id in active;  // otherwise the source aborts: invalid action
      MessageHands(p, o, me, g, F(), buffer[..], open, e);
      CompletionFinishes(p, o, me, g, F(), buffer[..], open, e);
      SetsAfter(p, g, e);
      ghost var was := g;
      g := Apply(p, g, e);
      ClearAction(id, open);
      ReachesOn(p, me, was, Apply(p, was, e), g);
    }
  }

  /** What the transport delivers to an actor. */
  datatype Incoming = Small(m: Msg) | RdmaPayload(id: Id) | SentAck(id: Id)

  /** The message that a delivery hands over. */
  function Handing(msg: Incoming): Delivery {
    match msg
    case Small(m) => Slot(m)
    case RdmaPayload(id) => Payload(id)
    case SentAck(id) => Ack(id)
  }
}
