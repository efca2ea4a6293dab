/** Each thing an executor does keeps it in agreement with the fabric. */
module ActorSteps {
  import opened Actions
  import opened Fabric
  import opened Outlines
  import opened Invariants
  import opened Preservation
  import opened Agreement
  import opened Runs
  import opened ActorState

  // ---------------------------------------------------------------- what events leave alone

  lemma CountsStay(p: Program, s: State, e: Event, i: Id)
    requires Shaped(p, s) && Near(p, e.id) && Enabled(p, s, e)
    ensures !(e == EHeader(i)) ==> Apply(p, s, e).headers[i] >= s.headers[i]
    ensures !(e == EReceive(i)) && !(e == ELand(i)) ==> Apply(p, s, e).payloads[i] >= s.payloads[i]
  {
    if e.EStart? {
      StartCountsStay(p, s, e.id, i);
    } else {
      TransferCountsStay(p, s, e, i);
    }
  }

  lemma StartCountsStay(p: Program, s: State, id: Id, i: Id)
    requires Shaped(p, s) && Near(p, id)
    ensures Started(p, s, id).headers[i] >= s.headers[i] && Started(p, s, id).payloads[i] >= s.payloads[i]
  {
    hide SoundAction, Copied;
  }

  lemma TransferCountsStay(p: Program, s: State, e: Event, i: Id)
    requires Shaped(p, s) && Near(p, e.id) && Enabled(p, s, e) && !e.EStart?
    ensures !(e == EHeader(i)) ==> Apply(p, s, e).headers[i] >= s.headers[i]
    ensures !(e == EReceive(i)) && !(e == ELand(i)) ==> Apply(p, s, e).payloads[i] >= s.payloads[i]
  {
    hide Injected, Landing, Received, Near, Shaped;
    match e
    case EInject(id) => InjectedCounts(p, s, id, i);
    case ELand(id) => LandedCounts(p, s, id, i);
    case EReceive(id) => ReceivedCounts(p, s, id, i);
    case _ =>
  }

  lemma InjectedCounts(p: Program, s: State, id: Id, i: Id)
    requires Shaped(p, s) && Near(p, id) && id.kind.Send?
    ensures Injected(p, s, id).headers == s.headers && Injected(p, s, id).payloads[i] >= s.payloads[i]
  {
  }

  lemma LandedCounts(p: Program, s: State, id: Id, i: Id)
    requires Shaped(p, s) && Near(p, id) && id.kind.Send?
    ensures Landing(p, s, id).headers == s.headers && (id != i ==> Landing(p, s, id).payloads[i] == s.payloads[i])
  {
  }

  lemma ReceivedCounts(p: Program, s: State, id: Id, i: Id)
    requires Shaped(p, s) && Near(p, id) && id.kind.Send?
    ensures Received(p, s, id).headers == s.headers && (id != i ==> Received(p, s, id).payloads[i] == s.payloads[i])
  {
  }

  /** An event leaves an early message waiting unless it concerns the same transfer. */
  lemma EarlyStays(p: Program, me: nat, s: State, e: Event, m: Msg)
    requires Shaped(p, s) && Near(p, e.id) && Enabled(p, s, e) && EarlyOk(p, me, s, m)
    requires e.EStart? || e.EAck? || e.id != m.id
    ensures EarlyOk(p, me, Apply(p, s, e), m)
  {
    hide Data, Shaped, Apply, Enabled;
    DataKept(p, s, e, m.id);
    CountsStay(p, s, e, m.id);
  }

  /** What an event does to the sets of started and cleared actions. */
  lemma SetsAfter(p: Program, s: State, e: Event)
    requires Shaped(p, s) && Near(p, e.id) && Enabled(p, s, e) && (e.EHeader? || e.EReceive? || e.EAck?)
    requires e.EReceive? ==> Active(s, Mate(e.id))
    requires e.EAck? ==> Active(s, e.id)
    ensures var t := Apply(p, s, e);
            && t.started == s.started
            && t.cleared == (if e.EReceive? then s.cleared + {Mate(e.id)}
                             else if e.EAck? then s.cleared + {e.id} else s.cleared)
            && (!e.EReceive? ==> t.mem == s.mem)
  {
  }

  lemma CommSets(p: Program, s: State, b: Id)
    requires Shaped(p, s) && Near(p, b) && (b.kind.Send? || b.kind.Recv?)
    ensures var t := Started(p, s, b);
            t.started == s.started + {b} && t.cleared == s.cleared && t.mem == s.mem
  {
    hide SoundAction, Copied, Proto;
    if b.kind.Send? {
      match Proto(p, b) {
        case Eager =>
        case Get =>
        case Put =>
      }
    } else {
      assert Proto(p, b).Put? || !Proto(p, b).Put?;
    }
  }

  lemma LocalSets(p: Program, s: State, b: Id)
    requires Shaped(p, s) && Near(p, b) && (b.kind.Shuffle? || b.kind.Join?)
    ensures var t := Started(p, s, b);
            && t.started == s.started + {b} && t.cleared == s.cleared + {b}
            && t.headers == s.headers && t.payloads == s.payloads
            && |t.mem| == p.n
            && t.mem[b.rank] == if b.kind.Shuffle? then Copied(s.mem[b.rank], p.acts[b].copies) else s.mem[b.rank]
  {
  }

  lemma QuietSets(p: Program, s: State, e: Event)
    requires Shaped(p, s) && Near(p, e.id) && Enabled(p, s, e) && (e.EHeader? || e.EInject? || e.ELand?)
    ensures Apply(p, s, e).started == s.started && Apply(p, s, e).cleared == s.cleared
  {
    hide SoundAction, Data, Stored;
  }

  lemma ReceiveSets(p: Program, s: State, id: Id)
    requires Shaped(p, s) && Near(p, id) && id.kind.Send?
    ensures var t := Received(p, s, id);
            t.started == s.started
            && (t.cleared == s.cleared || t.cleared == s.cleared + {Mate(id)}) && t.headers == s.headers
  {
    hide SoundAction, Taken, Data;
  }

  lemma AckSets(p: Program, s: State, id: Id)
    ensures var t := Acked(p, s, id);
            t.started == s.started
            && (t.cleared == s.cleared || t.cleared == s.cleared + {id}) && t.headers == s.headers
  {
  }

  lemma HeadersKeep(p: Program, s: State, e: Event, id: Id)
    requires Shaped(p, s) && Near(p, e.id) && Enabled(p, s, e) && !e.EStart?
    ensures e != EHeader(id) ==> Apply(p, s, e).headers[id] == s.headers[id]
  {
    hide SoundAction, Taken, Data, Stored, Combine;
  }

  lemma StartedKeep(p: Program, s: State, e: Event)
    requires Shaped(p, s) && Near(p, e.id) && Enabled(p, s, e) && !e.EStart?
    ensures Apply(p, s, e).started == s.started
  {
    match e {
      case EReceive(id) => ReceiveSets(p, s, id);
      case EAck(id) => AckSets(p, s, id);
      case _ => QuietSets(p, s, e);
    }
  }

  /** Cleared actions have started, and local ones are cleared as soon as they start. */
  lemma Progressed(p: Program, o: Outline, s: State)
    requires Control(p, o, s)
    ensures Sound(p) && Shaped(p, s)
    ensures s.cleared <= s.started && (forall id | id in s.started :: id in p.acts)
    ensures forall id | id in s.started && (id.kind.Shuffle? || id.kind.Join?) :: id in s.cleared
  {
  }

  lemma StartControl(p: Program, o: Outline, s: State, b: Id)
    requires Control(p, o, s) && Shaped(p, s) && Near(p, b) && Ready(p, s, b)
    ensures Control(p, o, Started(p, s, b)) && Reaches(p, b.rank, s, Started(p, s, b))
  {
    hide Control, Started, Reaches;
    Progressed(p, o, s);
    ControlKept(p, o, s, EStart(b));
    ReachesByEvent(p, s, EStart(b));
  }

  lemma EventControl(p: Program, o: Outline, s: State, e: Event)
    requires Control(p, o, s) && Shaped(p, s) && Near(p, e.id) && Enabled(p, s, e)
    ensures Control(p, o, Apply(p, s, e)) && Reaches(p, Actor(p, e), s, Apply(p, s, e))
  {
    hide Control, Apply, Reaches, Actor;
    Progressed(p, o, s);
    ControlKept(p, o, s, e);
    ReachesByEvent(p, s, e);
  }

  lemma FlowOf(p: Program, o: Outline, s: State, id: Id)
    requires Control(p, o, s) && IsTransfer(p, id)
    ensures Flow(p, s, id) && Near(p, id) && Shaped(p, s)
  {
    SoundNear(p, id);
  }

  // ---------------------------------------------------------------- starting

  /** What starting a communication sends at once: doSend and doRecv. */
  function Calls(b: Id, protocol: Protocol): multiset<Sent> {
    match (b.kind, protocol)
    case (Send, Eager) => multiset{EagerSend(b)}
    case (Send, Get) => multiset{GetHeader(b)}
    case (Recv, Put) => multiset{PutHeader(Mate(b))}
    case _ => multiset{}
  }

  function Opening(p: Program, b: Id): multiset<Sent>
    requires b in p.acts
  {
    Calls(b, Proto(p, b))
  }

  lemma OpeningIsOwn(p: Program, me: nat, f: Fields, g: Fields, b: Id)
    requires Near(p, b) && b.rank == me && OwnCalls(p, me, f) && g.sent == f.sent + Opening(p, b)
    ensures OwnCalls(p, me, g)
  {
    assert Mate(Mate(b)) == b || !b.kind.Recv?;
  }

  lemma OpeningIs(p: Program, b: Id)
    requires b in p.acts
    ensures var eager := p.acts[b].nelems < p.cfg.eagerCutoff;
            Opening(p, b) ==
              if b.kind.Send? && eager then multiset{EagerSend(b)}
              else if b.kind.Send? && p.cfg.useGet then multiset{GetHeader(b)}
              else if b.kind.Recv? && !eager && !p.cfg.useGet then multiset{PutHeader(Mate(b))}
              else multiset{}
  {
  }

  lemma StartSentOk(p: Program, me: nat, s: State, f: Fields, b: Id, i: Id)
    requires Shaped(p, s) && Near(p, b) && Ready(p, s, b) && b.rank == me && (b.kind.Send? || b.kind.Recv?)
    requires IsTransfer(p, i) && Near(p, i) && SentOk(p, me, s, f, i)
    ensures SentOk(p, me, Started(p, s, b), f.(active := f.active + {b}, sent := f.sent + Opening(p, b)), i)
  {
    if b != i && b != Mate(i) {
      StartOtherSentOk(p, me, s, f, b, i);
    } else {
      StartOwnSentOk(p, me, s, f, b, i);
    }
  }

  lemma PairedProto(p: Program, i: Id)
    requires IsTransfer(p, i) && Near(p, i)
    ensures i.partner != i.rank && Mate(i) in p.acts && Proto(p, Mate(i)) == Proto(p, i) && Mate(Mate(i)) == i
  {
  }

  lemma StartOtherSentOk(p: Program, me: nat, s: State, f: Fields, b: Id, i: Id)
    requires Shaped(p, s) && Near(p, b) && Ready(p, s, b) && b.rank == me && (b.kind.Send? || b.kind.Recv?)
    requires IsTransfer(p, i) && Near(p, i) && SentOk(p, me, s, f, i) && b != i && b != Mate(i)
    ensures SentOk(p, me, Started(p, s, b), f.(active := f.active + {b}, sent := f.sent + Opening(p, b)), i)
  {
    hide SoundAction, Copied, Started;
    OtherCounts(p, s, b, i);
    CommSets(p, s, b);
    PairedProto(p, i);
    assert b.kind.Recv? ==> Mate(Mate(b)) == b && Mate(b) != i;
  }

  lemma StartOwnSentOk(p: Program, me: nat, s: State, f: Fields, b: Id, i: Id)
    requires Shaped(p, s) && Near(p, b) && Ready(p, s, b) && b.rank == me && (b.kind.Send? || b.kind.Recv?)
    requires IsTransfer(p, i) && Near(p, i) && SentOk(p, me, s, f, i) && (b == i || b == Mate(i))
    ensures SentOk(p, me, Started(p, s, b), f.(active := f.active + {b}, sent := f.sent + Opening(p, b)), i)
  {
    hide SoundAction, Copied, Near, Started;
    PairedProto(p, i);
    CommSets(p, s, b);
    OwnHeaders(p, s, b, i);
  }

  lemma OtherHeaders(p: Program, s: State, b: Id, id: Id)
    requires Shaped(p, s) && Near(p, b) && (b.kind.Send? || b.kind.Recv?) && IsTransfer(p, id) && Near(p, id)
    requires b != id && b != Mate(id)
    ensures Started(p, s, b).headers[id] == s.headers[id]
  {
    PairedProto(p, id);
    hide SoundAction, Copied;
    assert b.kind.Recv? ==> Mate(Mate(b)) == b;
  }

  lemma OwnHeaders(p: Program, s: State, b: Id, i: Id)
    requires Shaped(p, s) && Near(p, b) && (b.kind.Send? || b.kind.Recv?)
    requires IsTransfer(p, i) && Near(p, i) && (b == i || b == Mate(i))
    ensures Started(p, s, b).headers[i] == s.headers[i] +
            (if (b == i && Proto(p, i).Get?) || (b == Mate(i) && Proto(p, i).Put?) then 1 else 0)
  {
    hide SoundAction, Copied;
    PairedProto(p, i);
  }

  lemma StartEarlies(p: Program, me: nat, s: State, f: Fields, b: Id, t: State, waking: set<Id>)
    requires Shaped(p, s) && Near(p, b) && Ready(p, s, b) && Earlies(p, me, s, f, {}) && t == Started(p, s, b)
    requires forall id | Active(t, id) && !Active(s, id) :: id in waking
    ensures Earlies(p, me, t, f, waking)
  {
    hide Started, EarlyOk;
    forall m | m in f.early ensures EarlyOk(p, me, t, m) {
      EarlyStaysAtStart(p, me, s, b, m);
    }
  }

  lemma EarlyStaysAtStart(p: Program, me: nat, s: State, b: Id, m: Msg)
    requires Shaped(p, s) && Near(p, b) && Ready(p, s, b) && EarlyOk(p, me, s, m)
    ensures EarlyOk(p, me, Started(p, s, b), m)
  {
    hide EarlyOk, Started;
    EarlyStays(p, me, s, EStart(b), m);
  }

  /** Starting a communication touches the active set and what was sent, nothing else of the books. */
  lemma StartRest(p: Program, me: nat, s: State, t: State, f: Fields, sent: multiset<Sent>, open: set<Id>, b: Id)
    requires Knows(p, me, f) && Pends(p, me, s, f, open) && Joins(f) && Initials(s, f, {b}) && Actives(s, f, {})
    requires Done(s, f)
    requires b in f.acts && b !in s.started && s.cleared <= s.started
    requires t.started == s.started + {b} && t.cleared == s.cleared
    ensures var g := f.(active := f.active + {b}, sent := sent);
            && Knows(p, me, g) && Pends(p, me, t, g, open)
            && Joins(g) && Initials(t, g, {}) && Actives(t, g, {}) && Done(t, g)
    ensures b.rank == me
  {
    hide Count;
  }

  /** A communication starts: it is active, its opening message is out, early messages for it may wake. */
  lemma StartAgrees(p: Program, o: Outline, me: nat, s: State, f: Fields, buf: seq<Val>, open: set<Id>, b: Id)
    requires Agrees(p, o, me, s, f, buf, open, {b}, {}) && Shaped(p, s) && Near(p, b)
    requires b in f.acts && Ready(p, s, b) && (b.kind.Send? || b.kind.Recv?)
    ensures Agrees(p, o, me, Started(p, s, b), f.(active := f.active + {b}, sent := f.sent + Opening(p, b)), buf,
                   open, {}, {b})
    ensures Reaches(p, b.rank, s, Started(p, s, b))
  {
    hide Control, SentOk, Started, Opening, Sound, Earlies, Reaches, Knows, Pends, Joins, Initials, Actives, Done;
    var t := Started(p, s, b);
    var g := f.(active := f.active + {b}, sent := f.sent + Opening(p, b));
    StartControl(p, o, s, b);
    CommSets(p, s, b);
    Progressed(p, o, s);
    StartEarlies(p, me, s, f, b, t, {b});
    EarliesSame(p, me, t, f, g, {b});
    StartRest(p, me, s, t, f, f.sent + Opening(p, b), open, b);
    OpeningIsOwn(p, me, f, g, b);
    forall i | IsTransfer(p, i) ensures SentOk(p, me, t, g, i) {
      SoundNear(p, i);
      StartSentOk(p, me, s, f, b, i);
    }
  }

  lemma EarliesSame(p: Program, me: nat, s: State, f: Fields, g: Fields, waking: set<Id>)
    requires Earlies(p, me, s, f, waking) && f.early == g.early
    ensures Earlies(p, me, s, g, waking)
  {
  }

  /** A shuffle or join takes effect and is finished at once. */
  lemma LocalFinishes(p: Program, o: Outline, me: nat, s: State, f: Fields, buf: seq<Val>, open: set<Id>, b: Id)
    requires Agrees(p, o, me, s, f, buf, open, {b}, {}) && Shaped(p, s) && Near(p, b)
    requires b in f.acts && Ready(p, s, b) && (b.kind.Shuffle? || b.kind.Join?)
    ensures Finishing(p, o, me, Started(p, s, b), f,
                      if b.kind.Shuffle? then Copied(buf, p.acts[b].copies) else buf, open, b)
    ensures Reaches(p, b.rank, s, Started(p, s, b))
  {
    hide Control, SentOk, Started, Sound, Earlies, Reaches;
    var t := Started(p, s, b);
    StartControl(p, o, s, b);
    LocalSets(p, s, b);
    Progressed(p, o, s);
    StartEarlies(p, me, s, f, b, t, {});
    forall i | IsTransfer(p, i) ensures SentOk(p, me, t, f, i) {
      LocalSentOk(p, me, s, f, b, i);
    }
  }

  lemma LocalSentOk(p: Program, me: nat, s: State, f: Fields, b: Id, i: Id)
    requires Shaped(p, s) && Near(p, b) && (b.kind.Shuffle? || b.kind.Join?)
    requires IsTransfer(p, i) && SentOk(p, me, s, f, i)
    ensures SentOk(p, me, Started(p, s, b), f, i)
  {
    hide Started;
    LocalSets(p, s, b);
  }

  // ---------------------------------------------------------------- early messages

  /** Two early messages of one rank that wait for the same action are the same transfer. */
  lemma SameKeySameId(p: Program, me: nat, s: State, m: Msg, k: Msg)
    requires EarlyOk(p, me, s, m) && EarlyOk(p, me, s, k) && Key(m) == Key(k)
    ensures m.id == k.id
  {
  }

  function Dropped(early: seq<Msg>, i: nat): (r: seq<Msg>)
    requires i < |early|
    ensures |r| == |early| - 1
    ensures forall j | 0 <= j < |r| :: r[j] == if j < i then early[j] else early[j + 1]
  {
    early[..i] + early[i + 1..]
  }

  /** Only the queue's own invariant speaks of the early messages. */
  lemma EarlyFree(p: Program, me: nat, s: State, f: Fields, early: seq<Msg>, open: set<Id>)
    requires Knows(p, me, f) && Pends(p, me, s, f, open) && Joins(f) && Initials(s, f, {}) && Actives(s, f, {})
    requires Sents(p, me, s, f) && Done(s, f)
    ensures var g := f.(early := early);
            && Knows(p, me, g) && Pends(p, me, s, g, open) && Joins(g) && Initials(s, g, {}) && Actives(s, g, {})
            && Sents(p, me, s, g) && Done(s, g)
  {
    hide Count;
    forall id | IsTransfer(p, id) ensures SentOk(p, me, s, f.(early := early), id) {
      assert SentOk(p, me, s, f, id);
    }
  }

  /** Taking the message that waits for `b` out of the queue leaves no other message for `b`. */
  lemma TakeEarly(p: Program, o: Outline, me: nat, s: State, f: Fields, buf: seq<Val>, open: set<Id>, b: Id, i: nat)
    requires Agrees(p, o, me, s, f, buf, open, {}, {b}) && i < |f.early| && Key(f.early[i]) == b
    ensures Agrees(p, o, me, s, f.(early := Dropped(f.early, i)), buf, open, {}, {b})
    ensures EarlyOk(p, me, s, f.early[i])
    ensures forall m | m in Dropped(f.early, i) :: m.id != f.early[i].id && Key(m) != b
  {
    hide Control, EarlyOk, Knows, Pends, Joins, Initials, Actives, Sents, Done;
    var m := f.early[i];
    var r := Dropped(f.early, i);
    EarlyFree(p, me, s, f, r, open);
    forall k | k in r ensures k in f.early && k.id != m.id && Key(k) != b {
      var j :| 0 <= j < |r| && r[j] == k;
      if Key(k) == b {
        SameKeySameId(p, me, s, m, k);
      }
    }
  }

  /** With nothing left that waits for `b`, nobody is waking. */
  lemma Awake(p: Program, o: Outline, me: nat, s: State, f: Fields, buf: seq<Val>, open: set<Id>, b: Id)
    requires Agrees(p, o, me, s, f, buf, open, {}, {b}) && (forall m | m in f.early :: Key(m) != b)
    ensures Agrees(p, o, me, s, f, buf, open, {}, {})
  {
    hide Control, SentOk, EarlyOk;
  }

  /** A message whose action is not active yet is queued. */
  lemma SentsSame(p: Program, me: nat, s: State, f: Fields, g: Fields)
    requires Sents(p, me, s, f) && g.sent == f.sent
    ensures Sents(p, me, s, g)
  {
    forall id | IsTransfer(p, id) ensures SentOk(p, me, s, g, id) {
      assert SentOk(p, me, s, f, id);
    }
  }

  lemma KeyIsAction(p: Program, o: Outline, me: nat, s: State, m: Msg)
    requires Control(p, o, s) && EarlyOk(p, me, s, m)
    ensures Key(m) in p.acts && Key(m).rank == me
  {
    hide Control;
    FlowOf(p, o, s, m.id);
  }

  lemma ParkAgrees(p: Program, o: Outline, me: nat, s: State, f: Fields, buf: seq<Val>, open: set<Id>, m: Msg)
    requires Agrees(p, o, me, s, f, buf, open, {}, {})
    requires EarlyOk(p, me, s, m) && Key(m) !in f.active && (forall k | k in f.early :: k.id != m.id)
    ensures Agrees(p, o, me, s, f.(early := f.early + [m]), buf, open, {}, {})
  {
    hide Control, EarlyOk, Sents, Count;
    SentsSame(p, me, s, f, f.(early := f.early + [m]));
    KeyIsAction(p, o, me, s, m);
  }

  // ---------------------------------------------------------------- answering a rendezvous header

  function Answer(m: Msg): Sent { if m.kind.Put? then PutData(m.id) else GetRequest(m.id) }

  lemma AnswerSentOk(p: Program, me: nat, s: State, f: Fields, m: Msg, i: Id)
    requires Shaped(p, s) && Near(p, m.id) && IsTransfer(p, i) && SentOk(p, me, s, f, i)
    requires EarlyOk(p, me, s, m) && !m.kind.Eager? && Flow(p, s, m.id)
    requires Enabled(p, s, EHeader(m.id))
    ensures SentOk(p, me, Apply(p, s, EHeader(m.id)), f.(sent := f.sent + multiset{Answer(m)}), i)
  {
  }

  lemma AnswerIsOwn(p: Program, me: nat, s: State, f: Fields, g: Fields, m: Msg)
    requires EarlyOk(p, me, s, m) && OwnCalls(p, me, f) && g.sent == f.sent + multiset{Answer(m)}
    requires !m.kind.Eager?
    ensures OwnCalls(p, me, g)
  {
  }

  lemma AnswerEnabled(p: Program, me: nat, s: State, m: Msg)
    requires EarlyOk(p, me, s, m) && !m.kind.Eager? && Active(s, Key(m))
    ensures Enabled(p, s, EHeader(m.id)) && Actor(p, EHeader(m.id)) == me
  {
  }

  lemma ActiveMeans(p: Program, me: nat, s: State, f: Fields, b: Id)
    requires Actives(s, f, {}) && b in f.active
    ensures Active(s, b)
  {
  }

  lemma OthersStay(p: Program, me: nat, s: State, f: Fields, e: Event)
    requires Shaped(p, s) && Near(p, e.id) && Enabled(p, s, e) && Earlies(p, me, s, f, {})
    requires e.EHeader? || e.EReceive? || e.EAck?
    requires !e.EAck? ==> forall k | k in f.early :: k.id != e.id
    requires e.EReceive? ==> Active(s, Mate(e.id))
    requires e.EAck? ==> Active(s, e.id)
    ensures Earlies(p, me, Apply(p, s, e), f, {})
  {
    hide Apply, EarlyOk, Enabled;
    SetsAfter(p, s, e);
    forall m | m in f.early ensures EarlyOk(p, me, Apply(p, s, e), m) {
      EarlyStays(p, me, s, e, m);
    }
  }

  /** Answering a header changes what was sent, nothing else of the books. */
  lemma SentFree(p: Program, me: nat, s: State, t: State, f: Fields, sent: multiset<Sent>, open: set<Id>)
    requires Knows(p, me, f) && Pends(p, me, s, f, open) && Joins(f) && Initials(s, f, {}) && Actives(s, f, {})
    requires Done(s, f)
    requires t.started == s.started && t.cleared == s.cleared
    ensures var g := f.(sent := sent);
            && Knows(p, me, g) && Pends(p, me, t, g, open)
            && Joins(g) && Initials(t, g, {}) && Actives(t, g, {}) && Done(t, g)
  {
    hide Count;
  }

  lemma AnswerAgrees(p: Program, o: Outline, me: nat, s: State, f: Fields, buf: seq<Val>, open: set<Id>, m: Msg)
    requires Agrees(p, o, me, s, f, buf, open, {}, {}) && Shaped(p, s) && Near(p, m.id)
    requires EarlyOk(p, me, s, m) && !m.kind.Eager? && Key(m) in f.active && (forall k | k in f.early :: k.id != m.id)
    ensures Enabled(p, s, EHeader(m.id))
    ensures Agrees(p, o, me, Apply(p, s, EHeader(m.id)), f.(sent := f.sent + multiset{Answer(m)}), buf, open, {}, {})
    ensures Reaches(p, me, s, Apply(p, s, EHeader(m.id)))
  {
    hide Control, SentOk, EarlyOk, Apply, Enabled, Earlies, Answer, Reaches, Actor;
    hide Knows, Pends, Joins, Initials, Actives, Done;
    var e := EHeader(m.id);
    ActiveMeans(p, me, s, f, Key(m));
    AnswerEnabled(p, me, s, m);
    EventControl(p, o, s, e);
    SetsAfter(p, s, e);
    OthersStay(p, me, s, f, e);
    var g := f.(sent := f.sent + multiset{Answer(m)});
    EarliesSame(p, me, Apply(p, s, e), f, g, {});
    SentFree(p, me, s, Apply(p, s, e), f, g.sent, open);
    EarlyTransfer(p, me, s, m);
    FlowOf(p, o, s, m.id);
    AnswerIsOwn(p, me, s, f, g, m);
    forall i | IsTransfer(p, i) ensures SentOk(p, me, Apply(p, s, e), g, i) {
      AnswerSentOk(p, me, s, f, m, i);
    }
  }

  lemma EarlyTransfer(p: Program, me: nat, s: State, m: Msg)
    requires EarlyOk(p, me, s, m)
    ensures IsTransfer(p, m.id)
  {
  }

  // ---------------------------------------------------------------- finishing a communication

  lemma FinishSentOk(p: Program, me: nat, s: State, f: Fields, e: Event, i: Id)
    requires Shaped(p, s) && Near(p, e.id) && Enabled(p, s, e) && (e.EReceive? || e.EAck?)
    requires IsTransfer(p, i) && SentOk(p, me, s, f, i)
    ensures SentOk(p, me, Apply(p, s, e), f, i)
  {
  }

  /** The action a completion finishes. */
  function Finished(e: Event): Id { if e.EReceive? then Mate(e.id) else e.id }

  /** A completion for this rank always finds its action active. */
  lemma CompletionFound(p: Program, o: Outline, me: nat, s: State, f: Fields, buf: seq<Val>, open: set<Id>, e: Event)
    requires Agrees(p, o, me, s, f, buf, open, {}, {}) && Enabled(p, s, e) && (e.EReceive? || e.EAck?)
    requires Finished(e).rank == me
    ensures Finished(e) in f.active && Active(s, Finished(e)) && Near(p, e.id) && Shaped(p, s)
    ensures Finished(e) in f.acts && Finished(e) in p.acts && f.acts[Finished(e)] == p.acts[Finished(e)]
  {
    hide Control, SentOk, Sents, Earlies, Pends, Joins, Initials;
    Progressed(p, o, s);
    FlowOf(p, o, s, e.id);
    CompletionExpected(p, s, e);
  }

  /** What dataRecved may assume about the receive it completes. */
  lemma RecvAction(p: Program, id: Id)
    requires Near(p, id) && id.kind.Send?
    ensures var a := p.acts[Mate(id)];
            && (a.mode.RecvInPlace? || a.mode.RecvReduce? || a.mode.RecvPacked?)
            && (a.mode.RecvPacked? ==> a.offset == 0)
            && Addr(p, a) + a.nelems <= p.size && (a.mode.RecvReduce? ==> Land(p, a) + a.nelems <= p.size)
            && a.nelems == p.acts[id].nelems
  {
  }

  /** Without an eager payload, what the receive takes does not depend on the message. */
  lemma TakenAnyway(p: Program, m: seq<Val>, a: Action, d: seq<Val>, e: seq<Val>)
    requires |m| == p.size && |d| == a.nelems && |e| == a.nelems && Addr(p, a) + a.nelems <= p.size
    requires a.mode.RecvReduce? ==> Land(p, a) + a.nelems <= p.size
    ensures Taken(p, m, a, false, d) == Taken(p, m, a, false, e)
  {
  }

  lemma CompletionFinishes(p: Program, o: Outline, me: nat, s: State, f: Fields, buf: seq<Val>, open: set<Id>, e: Event)
    requires Agrees(p, o, me, s, f, buf, open, {}, {}) && Shaped(p, s) && Near(p, e.id)
    requires Enabled(p, s, e) && (e.EReceive? || e.EAck?)
    requires Finished(e).rank == me && Active(s, Finished(e)) && Finished(e) in f.active
    ensures var t := Apply(p, s, e);
            me < |t.mem| && Finishing(p, o, me, t, f, t.mem[me], open, Finished(e)) && Reaches(p, me, s, t)
  {
    hide Control, SentOk, Apply, Enabled, Earlies, Reaches, EarlyOk;
    EventControl(p, o, s, e);
    SetsAfter(p, s, e);
    if e.EReceive? {
      EventTransfer(p, s, e);
      NotWaiting(p, me, s, f, e.id);
    }
    OthersStay(p, me, s, f, e);
    forall i | IsTransfer(p, i) ensures SentOk(p, me, Apply(p, s, e), f, i) {
      FinishSentOk(p, me, s, f, e, i);
    }
  }

  /** What is being received is not queued any more. */
  lemma NotWaiting(p: Program, me: nat, s: State, f: Fields, id: Id)
    requires Earlies(p, me, s, f, {}) && Active(s, Mate(id)) && IsTransfer(p, id) && Near(p, id) && id.partner == me
    ensures forall k | k in f.early :: k.id != id
  {
  }

  lemma EventTransfer(p: Program, s: State, e: Event)
    requires Enabled(p, s, e) && !e.EStart?
    ensures IsTransfer(p, e.id)
  {
  }

  // ---------------------------------------------------------------- clearing

  /** The test of checkCollectiveDone. */
  predicate NothingLeft(f: Fields) {
    f.active == {} && f.pending == [] && f.initial == {}
  }

  /** The executor's three containers are empty exactly when the last action has cleared. */
  lemma NothingLeftIff(p: Program, me: nat, s: State, f: Fields, open: set<Id>)
    requires Pends(p, me, s, f, open) && Initials(s, f, {}) && Actives(s, f, {}) && Knows(p, me, f)
    requires s.cleared <= s.started && (forall e | e in p.edges :: e.1 in p.acts)
    ensures NothingLeft(f) <==> AllCleared(s, f)
  {
    if NothingLeft(f) {
      forall b | b in f.acts ensures b in s.cleared {
        CountZero(f.pending, b);
      }
    }
    forall e | e in f.pending ensures e.1 in f.acts && Count(f.pending, e.1) > 0 {
      CountZero(f.pending, e.1);
    }
    assert f.pending != [] ==> f.pending[0] in f.pending;
  }

  lemma ClearedParts(p: Program, me: nat, s: State, f: Fields, h: Fields, open: set<Id>, ac: Id)
    requires Knows(p, me, f) && Pends(p, me, s, f, open) && Joins(f) && Initials(s, f, {})
    requires Actives(s, f, {ac}) || Actives(s, f, {})
    requires ac in s.cleared
    requires h.acts == f.acts && h.pending == f.pending && h.joins == f.joins && h.initial == f.initial
    requires h.active == f.active - {ac}
    ensures Knows(p, me, h) && Pends(p, me, s, h, open) && Joins(h) && Initials(s, h, {}) && Actives(s, h, {})
  {
    hide Count;
  }

  /** The fields after active_comms_.erase and checkCollectiveDone. */
  function AfterCheck(f: Fields, ac: Id): Fields {
    var g := f.(active := f.active - {ac});
    if NothingLeft(g) then g.(complete := true, finalized := f.finalized + 1) else g
  }

  lemma ClearedAgrees(p: Program, o: Outline, me: nat, s: State, f: Fields, buf: seq<Val>, open: set<Id>, ac: Id)
    requires Finishing(p, o, me, s, f, buf, open, ac)
    ensures Agrees(p, o, me, s, AfterCheck(f, ac), buf, open + {ac}, {}, {})
    ensures AfterCheck(f, ac).complete <==> AllCleared(s, f)
  {
    hide Control, Count, Earlies, Sents, AllCleared, Knows, Pends, Joins, Initials, Actives;
    var h := AfterCheck(f, ac);
    Progressed(p, o, s);
    SoundEdges(p);
    ClearedParts(p, me, s, f, h, open + {ac}, ac);
    ClearedParts(p, me, s, f, f.(active := f.active - {ac}), open + {ac}, ac);
    NothingLeftIff(p, me, s, f.(active := f.active - {ac}), open + {ac});
    SameRest(p, me, s, f, h);
    SameRest(p, me, s, f, f.(active := f.active - {ac}));
  }

  lemma SameRest(p: Program, me: nat, s: State, f: Fields, g: Fields)
    requires Earlies(p, me, s, f, {}) && Sents(p, me, s, f) && f.early == g.early && f.sent == g.sent
    requires f.acts == g.acts
    ensures Earlies(p, me, s, g, {}) && Sents(p, me, s, g) && (AllCleared(s, f) <==> AllCleared(s, g))
  {
  }

  lemma SoundEdges(p: Program)
    requires Sound(p)
    ensures forall e | e in p.edges :: e.0 in p.acts && e.1 in p.acts && e.0.rank == e.1.rank
  {
    forall e | e in p.edges ensures e.0 in p.acts && e.1 in p.acts && e.0.rank == e.1.rank {
      assert (e.0, e.1) in p.edges;
    }
  }

  /** One dependency on a cleared action is released. */
  lemma ReleaseAgrees(p: Program, o: Outline, me: nat, s: State, f: Fields, buf: seq<Val>, open: set<Id>, i: nat)
    requires Agrees(p, o, me, s, f, buf, open, {}, {}) && i < |f.pending| && f.pending[i].0 in s.cleared
    requires var b := f.pending[i].1;
             b in f.acts && b in f.joins && f.joins[b] > 0 && b !in s.started && b !in f.initial
    ensures var b := f.pending[i].1;
            var g := f.(pending := Without(f.pending, i), joins := f.joins[b := f.joins[b] - 1]);
            && Agrees(p, o, me, s, g, buf, open, if g.joins[b] == 0 then {b} else {}, {})
            && (g.joins[b] == 0 ==> Ready(p, s, b))
  {
    hide Control, Count, Earlies, Sents, Knows, Pends, Joins, Initials, Actives, Done;
    var b := f.pending[i].1;
    var g := f.(pending := Without(f.pending, i), joins := f.joins[b := f.joins[b] - 1]);
    ReleasePends(p, me, s, f, open, i);
    ReleaseJoins(p, o, me, s, f, i);
    ReleaseRest(p, me, s, f, g);
    SamePends(p, me, s, f.(pending := Without(f.pending, i)), g, open);
    if g.joins[b] == 0 {
      ReadyWhenZero(p, me, s, g, open, b);
    }
  }

  lemma SamePends(p: Program, me: nat, s: State, f: Fields, g: Fields, open: set<Id>)
    requires Pends(p, me, s, f, open) && f.pending == g.pending
    ensures Pends(p, me, s, g, open)
  {
  }

  /** The dependent of a pending entry is a waiting action of this rank. */
  lemma ReleaseKnown(p: Program, o: Outline, me: nat, s: State, f: Fields, buf: seq<Val>, open: set<Id>, i: nat)
    requires Agrees(p, o, me, s, f, buf, open, {}, {}) && i < |f.pending|
    ensures var b := f.pending[i].1; b in f.acts && b in f.joins && f.joins[b] > 0 && b !in s.started && b !in f.initial
  {
    hide Control, Earlies, Sents, Actives, Done;
    Progressed(p, o, s);
    SoundEdges(p);
    CountZero(f.pending, f.pending[i].1);
  }

  lemma ReleasePends(p: Program, me: nat, s: State, f: Fields, open: set<Id>, i: nat)
    requires Pends(p, me, s, f, open) && i < |f.pending| && f.pending[i].0 in s.cleared
    ensures Pends(p, me, s, f.(pending := Without(f.pending, i)), open)
  {
    var r := Without(f.pending, i);
    forall e | e in r ensures e in f.pending {
    }
    forall e | e in f.pending && e.0 !in s.cleared ensures e in r {
      var j :| 0 <= j < |f.pending| && f.pending[j] == e;
      assert if j < i then r[j] == e else r[j - 1] == e;
    }
  }

  lemma ReleaseJoins(p: Program, o: Outline, me: nat, s: State, f: Fields, i: nat)
    requires Joins(f) && Initials(s, f, {}) && i < |f.pending|
    requires var b := f.pending[i].1; b in f.acts && f.joins[b] > 0 && b !in s.started && b !in f.initial
    ensures var b := f.pending[i].1;
            var g := f.(pending := Without(f.pending, i), joins := f.joins[b := f.joins[b] - 1]);
            Joins(g) && Initials(s, g, if g.joins[b] == 0 then {b} else {})
  {
    hide Count;
    forall c ensures Count(Without(f.pending, i), c) == Count(f.pending, c) - (if f.pending[i].1 == c then 1 else 0) {
      CountWithout(f.pending, i, c);
    }
  }

  lemma ReleaseRest(p: Program, me: nat, s: State, f: Fields, g: Fields)
    requires Knows(p, me, f) && Actives(s, f, {}) && Earlies(p, me, s, f, {}) && Sents(p, me, s, f) && Done(s, f)
    requires g == f.(pending := g.pending, joins := g.joins)
    ensures Knows(p, me, g) && Actives(s, g, {}) && Earlies(p, me, s, g, {}) && Sents(p, me, s, g) && Done(s, g)
  {
  }

  /** A released action whose counter has reached zero has no unfinished precursor. */
  lemma ReadyWhenZero(p: Program, me: nat, s: State, f: Fields, open: set<Id>, b: Id)
    requires Knows(p, me, f) && Pends(p, me, s, f, open) && Joins(f) && b in f.acts && f.joins[b] == 0
    requires b !in s.started
    ensures Ready(p, s, b)
  {
    CountZero(f.pending, b);
    forall c | (c, b) in p.edges ensures c in s.cleared {
      var e := (c, b);
      assert e.0 in s.cleared || e in f.pending;
    }
  }

  /** An initial action can start. */
  lemma InitialReady(p: Program, o: Outline, me: nat, s: State, f: Fields, buf: seq<Val>, open: set<Id>, b: Id)
    requires Agrees(p, o, me, s, f, buf, open, {}, {}) && b in f.initial
    ensures Ready(p, s, b) && b in f.acts
    ensures Agrees(p, o, me, s, f.(initial := f.initial - {b}), buf, open, {b}, {})
  {
    hide Control, EarlyOk, Count;
    ReadyWhenZero(p, me, s, f, open, b);
  }

  /** Once none of `ac`'s dependencies is pending, its clearing is over. */
  lemma CloseAgrees(p: Program, o: Outline, me: nat, s: State, f: Fields, buf: seq<Val>, open: set<Id>, ac: Id)
    requires Agrees(p, o, me, s, f, buf, open + {ac}, {}, {}) && (forall e | e in f.pending :: e.0 != ac)
    ensures Agrees(p, o, me, s, f, buf, open, {}, {})
  {
    hide Control, SentOk, EarlyOk, Count;
  }

  // ---------------------------------------------------------------- facts the executor's code relies on

  lemma Known(p: Program, o: Outline, me: nat, s: State, f: Fields, buf: seq<Val>,
              open: set<Id>, hand: set<Id>, waking: set<Id>)
    requires Agrees(p, o, me, s, f, buf, open, hand, waking)
    ensures Control(p, o, s) && Sound(p) && Shaped(p, s) && |buf| == p.size && me < p.n && s.mem[me] == buf
  {
    hide Control, Earlies, Sents, Pends, Joins, Initials, Actives, Done;
    Progressed(p, o, s);
  }

  lemma KnownAction(p: Program, o: Outline, me: nat, s: State, f: Fields, buf: seq<Val>,
                    open: set<Id>, hand: set<Id>, waking: set<Id>, b: Id)
    requires Agrees(p, o, me, s, f, buf, open, hand, waking) && b in f.acts
    ensures b in p.acts && b.rank == me && f.acts[b] == p.acts[b] && Near(p, b)
    ensures b.kind.Shuffle? ==> forall x | x in p.acts[b].copies :: x < |buf| && p.acts[b].copies[x] < |buf|
  {
    hide Control, Earlies, Sents, Pends, Joins, Initials, Actives, Done;
    Progressed(p, o, s);
    SoundNear(p, b);
  }

  lemma ReceivedBuffer(p: Program, s: State, id: Id)
    requires Shaped(p, s) && Near(p, id) && Enabled(p, s, EReceive(id)) && Active(s, Mate(id))
    ensures Apply(p, s, EReceive(id)).mem[id.partner] ==
              Taken(p, s.mem[id.partner], p.acts[Mate(id)], Proto(p, id).Eager?, Data(p, s, id))
  {
    ReceivedMemory(p, s, id);
  }

  lemma EagerEnabled(p: Program, me: nat, s: State, m: Msg)
    requires EarlyOk(p, me, s, m) && m.kind.Eager? && Active(s, Key(m))
    ensures Enabled(p, s, EReceive(m.id)) && m.id.partner == me && Proto(p, m.id).Eager? && m.data == Data(p, s, m.id)
  {
  }

  lemma MonotoneStart(p: Program, s: State, b: Id)
    requires Shaped(p, s) && Near(p, b) && Ready(p, s, b)
    ensures b !in s.started
    ensures s.started + {b} <= Started(p, s, b).started && s.cleared <= Started(p, s, b).cleared
  {
  }

  lemma MonotoneEvent(p: Program, s: State, e: Event)
    requires Shaped(p, s) && Near(p, e.id) && Enabled(p, s, e)
    ensures s.started <= Apply(p, s, e).started && s.cleared <= Apply(p, s, e).cleared
  {
  }

  lemma FewerLeft(all: set<Id>, a: set<Id>, b: set<Id>)
    requires a <= b
    ensures |all - b| <= |all - a|
  {
    SubsetSize(all - b, all - a);
  }

  lemma OneFewerLeft(all: set<Id>, a: set<Id>, b: set<Id>, id: Id)
    requires a <= b && id in all && id in b && id !in a
    ensures |all - b| < |all - a|
  {
    SubsetSize(all - b, (all - a) - {id});
  }

  lemma {:induction false} SubsetSize<T>(x: set<T>, y: set<T>)
    requires x <= y
    ensures |x| <= |y| && (|x| == |y| ==> x == y)
    decreases x
  {
    if x != {} {
      var d :| d in x;
      SubsetSize(x - {d}, y - {d});
    }
  }

  lemma FinishingKnown(p: Program, o: Outline, me: nat, s: State, f: Fields, buf: seq<Val>, open: set<Id>, ac: Id)
    requires Finishing(p, o, me, s, f, buf, open, ac)
    ensures Sound(p) && Shaped(p, s) && ac in s.cleared && !f.complete && f.finalized == 0
  {
    hide Control;
    Progressed(p, o, s);
  }

  lemma NowActive(p: Program, o: Outline, me: nat, s: State, f: Fields, buf: seq<Val>, open: set<Id>, b: Id)
    requires Agrees(p, o, me, s, f, buf, open, {}, {}) && b in f.active
    ensures Active(s, b)
  {
    hide Control, Earlies, Sents, Pends, Joins, Initials, Done;
  }

  lemma NoneLeft(pending: seq<(Id, Id)>, ac: Id)
    requires !exists i :: 0 <= i < |pending| && pending[i].0 == ac
    ensures forall e | e in pending :: e.0 != ac
  {
  }

  lemma NoneFor(early: seq<Msg>, ac: Id)
    requires !exists i :: 0 <= i < |early| && Key(early[i]) == ac
    ensures forall m | m in early :: Key(m) != ac
  {
  }
}
