/**
 * The global transition system: every rank runs its DAG, messages of the
 * eager, get and put protocols are in flight, and any enabled event may come
 * next.  Memory is read and written late: a send's source is read when the
 * network injects it (not when the send starts), and an RDMA payload lands in
 * the receiver's memory before the receiver is told.
 */
module Fabric {
  import opened Actions

  /**
   * Messages are named by the send they serve.  `headers` are rendezvous
   * requests, `posted` transfers handed to the network, `payloads` data in
   * flight, `landed` RDMA completions, `acks` send completions.  A header or an
   * eager payload may wait here as long as its action is not active: this
   * covers the network and the actors' early-message queues alike.
   * `written` is an auxiliary record of the updates that have taken effect.
   */
  datatype State = State(
    started: set<Id>,
    cleared: set<Id>,
    written: set<Id>,
    mem: seq<seq<Val>>,
    headers: multiset<Id>,
    posted: multiset<Id>,
    payloads: multiset<Id>,
    landed: multiset<Id>,
    acks: multiset<Id>,
    wire: map<Id, seq<Val>>,
    failed: bool)

  datatype Event =
    | EStart(id: Id)
    | EHeader(id: Id)
    | EInject(id: Id)
    | ELand(id: Id)
    | EReceive(id: Id)
    | EAck(id: Id)

  predicate Active(s: State, id: Id) {
    id in s.started && id !in s.cleared
  }

  ghost predicate Shaped(p: Program, s: State) {
    && |s.mem| == p.n
    && (forall r | 0 <= r < p.n :: |s.mem[r]| == p.size)
  }

  /** The data a transfer carries; blank until the network has read the source. */
  ghost function Data(p: Program, s: State, id: Id): (data: seq<Val>)
    requires id in p.acts
    ensures |data| == p.acts[id].nelems
  {
    if id in s.wire && |s.wire[id]| == p.acts[id].nelems then s.wire[id]
    else seq(p.acts[id].nelems, _ => multiset{})
  }

  ghost predicate Ready(p: Program, s: State, id: Id) {
    && id in p.acts
    && id !in s.started
    && (forall c | (c, id) in p.edges :: c in s.cleared)
  }

  /** What the runtime allows next; headers and eager payloads wait for their action. */
  ghost predicate Enabled(p: Program, s: State, e: Event) {
    match e
    case EStart(id) => Ready(p, s, id)
    case EHeader(id) =>
      && IsTransfer(p, id) && s.headers[id] > 0
      && Active(s, if Proto(p, id).Put? then id else Mate(id))
    case EInject(id) => IsTransfer(p, id) && s.posted[id] > 0
    case ELand(id) => IsTransfer(p, id) && s.payloads[id] > 0 && !Proto(p, id).Eager?
    case EReceive(id) =>
      && IsTransfer(p, id)
      && (if Proto(p, id).Eager? then s.payloads[id] > 0 && Active(s, Mate(id)) else s.landed[id] > 0)
    case EAck(id) => IsTransfer(p, id) && s.acks[id] > 0
  }

  /** `m` with `data` stored from address `lo` on. */
  ghost function Stored(m: seq<Val>, lo: nat, data: seq<Val>): (r: seq<Val>)
    requires lo + |data| <= |m|
    ensures |r| == |m|
    ensures forall x: nat | x < |m| :: r[x] == if Span(x, lo, |data|) then data[x - lo] else m[x]
  {
    seq(|m|, (x: nat) requires x < |m| => if Span(x, lo, |data|) then data[x - lo] else m[x])
  }

  /** `m` with `data` combined into it from address `lo` on. */
  ghost function Combine(m: seq<Val>, lo: nat, data: seq<Val>): (r: seq<Val>)
    requires lo + |data| <= |m|
    ensures |r| == |m|
    ensures forall x: nat | x < |m| :: r[x] == if Span(x, lo, |data|) then m[x] + data[x - lo] else m[x]
  {
    seq(|m|, (x: nat) requires x < |m| => if Span(x, lo, |data|) then m[x] + data[x - lo] else m[x])
  }

  ghost function Copied(m: seq<Val>, copies: map<nat, nat>): (r: seq<Val>)
    requires forall x | x in copies :: copies[x] < |m|
    ensures |r| == |m|
    ensures forall x: nat | x < |m| :: r[x] == if x in copies then m[copies[x]] else m[x]
  {
    seq(|m|, (x: nat) requires x < |m| && (x in copies ==> copies[x] < |m|) =>
      if x in copies then m[copies[x]] else m[x])
  }

  ghost function Started(p: Program, s: State, id: Id): (t: State)
    requires Shaped(p, s) && Near(p, id)
    ensures Shaped(p, t)
  {
    var u := s.(started := s.started + {id});
    match id.kind
    case Send =>
      (match Proto(p, id)
       case Eager => u.(posted := s.posted + multiset{id})
       case Get => u.(headers := s.headers + multiset{id})
       case Put => u)
    case Recv =>
      if Proto(p, id).Put? then u.(headers := s.headers + multiset{Mate(id)}) else u
    case Shuffle =>
      u.(cleared := s.cleared + {id},
         written := s.written + {id},
         mem := s.mem[id.rank := Copied(s.mem[id.rank], p.acts[id].copies)])
    case Join => u.(cleared := s.cleared + {id})
  }

  ghost function Injected(p: Program, s: State, id: Id): (t: State)
    requires Shaped(p, s) && Near(p, id) && id.kind.Send?
    ensures Shaped(p, t)
  {
    var a := p.acts[id];
    s.(posted := s.posted - multiset{id},
       payloads := s.payloads + multiset{id},
       acks := s.acks + multiset{id},
       wire := s.wire[id := s.mem[id.rank][Addr(p, a)..Addr(p, a) + a.nelems]])
  }

  /** The network stores an RDMA payload whether or not anyone is prepared for it. */
  ghost function Landing(p: Program, s: State, id: Id): (t: State)
    requires Shaped(p, s) && Near(p, id) && id.kind.Send?
    ensures Shaped(p, t)
  {
    var to := Mate(id);
    var a := p.acts[to];
    var lo := if a.mode.RecvReduce? then Land(p, a) else Addr(p, a);
    s.(payloads := s.payloads - multiset{id},
       landed := s.landed + multiset{id},
       written := if a.mode.RecvReduce? then s.written else s.written + {to},
       mem := s.mem[to.rank := Stored(s.mem[to.rank], lo, Data(p, s, id))])
  }

  /** The receiver's memory once the action has taken the data. */
  ghost function Taken(p: Program, m: seq<Val>, a: Action, eager: bool, data: seq<Val>): (r: seq<Val>)
    requires |m| == p.size && |data| == a.nelems && Addr(p, a) + a.nelems <= p.size
    requires a.mode.RecvReduce? ==> Land(p, a) + a.nelems <= p.size
    ensures |r| == |m|
  {
    if a.mode.RecvReduce? then
      Combine(m, Addr(p, a), if eager then data else m[Land(p, a)..Land(p, a) + a.nelems])
    else if eager then Stored(m, Addr(p, a), data)
    else m
  }

  ghost function Received(p: Program, s: State, id: Id): (t: State)
    requires Shaped(p, s) && Near(p, id) && id.kind.Send?
    ensures Shaped(p, t)
  {
    var to := Mate(id);
    if !Active(s, to) then s.(failed := true)
    else
      var eager := Proto(p, id).Eager?;
      s.(payloads := if eager then s.payloads - multiset{id} else s.payloads,
         landed := if eager then s.landed else s.landed - multiset{id},
         cleared := s.cleared + {to},
         written := s.written + {to},
         mem := s.mem[to.rank := Taken(p, s.mem[to.rank], p.acts[to], eager, Data(p, s, id))])
  }

  ghost function Acked(p: Program, s: State, id: Id): State {
    if !Active(s, id) then s.(failed := true)
    else s.(acks := s.acks - multiset{id}, cleared := s.cleared + {id})
  }

  ghost function Apply(p: Program, s: State, e: Event): (t: State)
    requires Shaped(p, s) && Enabled(p, s, e) && Near(p, e.id)
    ensures Shaped(p, t)
  {
    match e
    case EStart(id) => Started(p, s, id)
    case EHeader(id) => s.(headers := s.headers - multiset{id}, posted := s.posted + multiset{id})
    case EInject(id) => Injected(p, s, id)
    case ELand(id) => Landing(p, s, id)
    case EReceive(id) => Received(p, s, id)
    case EAck(id) => Acked(p, s, id)
  }

  ghost function Initial(mem: seq<seq<Val>>): State {
    State({}, {}, {}, mem, multiset{}, multiset{}, multiset{}, multiset{}, multiset{}, map[], false)
  }

  /** `es` is a run: every event is enabled when it happens. */
  ghost predicate IsRun(p: Program, s: State, es: seq<Event>)
    requires Sound(p) && Shaped(p, s)
    decreases |es|
  {
    es == [] ||
    (Enabled(p, s, es[0]) && IsRun(p, Apply(p, s, es[0]), es[1..]))
  }

  ghost function Run(p: Program, s: State, es: seq<Event>): (t: State)
    requires Sound(p) && Shaped(p, s) && IsRun(p, s, es)
    ensures Shaped(p, t)
    decreases |es|
  {
    if es == [] then s
    else Run(p, Apply(p, s, es[0]), es[1..])
  }

  ghost predicate Stuck(p: Program, s: State) {
    forall e :: !Enabled(p, s, e)
  }
}
