/**
 * The vocabulary of the collective layer: actions, their identifiers, and the
 * per-rank communication DAGs ("programs") that the collectives build.
 *
 * A buffer element is a multiset of input elements.  A plain datum is a
 * singleton; combining two elements with the reduction operator is multiset
 * union.  Multisets are the free commutative monoid, so two equal results stay
 * equal under every commutative, associative operator.
 */
module Actions {

  /** One element of one rank's input buffer. */
  datatype Token = Token(rank: nat, index: nat)

  type Val = multiset<Token>

  datatype Option<+T> = None | Some(value: T)

  /** A plain datum as an element. */
  function AsVal(held: Option<Token>): Option<Val> {
    if held.Some? then Some(multiset{held.value}) else None
  }

  datatype Kind = Send | Recv | Shuffle | Join

  /** What Action::messageId packs into one integer, plus the rank that owns the action. */
  datatype Id = Id(rank: nat, kind: Kind, round: nat, partner: nat)

  /** Where an action finds its data: SendAction::buf_type_t and RecvAction::buf_type_t. */
  datatype Mode = SendInPlace | SendTemp | RecvInPlace | RecvReduce | RecvPacked | Local

  /** `copies` gives the effect of a shuffle: destination address to source address. */
  datatype Action = Action(mode: Mode, offset: nat, nelems: nat, copies: map<nat, nat>)

  datatype Protocol = Eager | Get | Put

  datatype Config = Config(eagerCutoff: nat, useGet: bool)

  /**
   * All ranks' DAGs.  Each rank addresses one memory of `size` elements: the
   * result buffer starts at 0, the receive and send workspaces at `recvBase`
   * and `sendBase` (both 0 where the collective aliases them to the result).
   */
  datatype Program = Program(
    n: nat,
    acts: map<Id, Action>,
    edges: set<(Id, Id)>,
    cfg: Config,
    recvBase: nat,
    sendBase: nat,
    size: nat)

  function Mate(id: Id): Id {
    Id(id.partner, if id.kind.Send? then Recv else Send, id.round, id.rank)
  }

  function ProtocolFor(c: Config, nelems: nat): Protocol {
    if nelems < c.eagerCutoff then Eager else if c.useGet then Get else Put
  }

  predicate Span(x: int, lo: int, len: int) {
    lo <= x < lo + len
  }

  function Addr(p: Program, a: Action): nat {
    match a.mode
    case SendTemp => p.sendBase + a.offset
    case RecvPacked => p.recvBase + a.offset
    case _ => a.offset
  }

  /** Where an RDMA payload of a reducing receive lands before it is combined. */
  function Land(p: Program, a: Action): nat {
    p.recvBase + a.offset
  }

  predicate IsTransfer(p: Program, id: Id) {
    id in p.acts && id.kind.Send?
  }

  function Proto(p: Program, id: Id): Protocol
    requires id in p.acts
  {
    ProtocolFor(p.cfg, p.acts[id].nelems)
  }

  /** The action changes element `x` of its rank's buffers when it takes effect. */
  predicate Updates(p: Program, id: Id, x: nat)
    requires id in p.acts
  {
    var a := p.acts[id];
    match id.kind
    case Recv => Span(x, Addr(p, a), a.nelems)
    case Shuffle => x in a.copies
    case _ => false
  }

  /** The scratch region an RDMA payload overwrites before a reducing receive completes. */
  predicate Lands(p: Program, id: Id, x: nat)
    requires id in p.acts
  {
    var a := p.acts[id];
    id.kind.Recv? && a.mode.RecvReduce? && Span(x, Land(p, a), a.nelems)
  }

  predicate Writes(p: Program, id: Id, x: nat)
    requires id in p.acts
  {
    Updates(p, id, x) || Lands(p, id, x)
  }

  predicate Reads(p: Program, id: Id, x: nat)
    requires id in p.acts
  {
    var a := p.acts[id];
    match id.kind
    case Send => Span(x, Addr(p, a), a.nelems)
    case Shuffle => x in a.copies.Values
    case _ => false
  }

  /** Both actions touch `x` and at least one of them writes it. */
  predicate Clash(p: Program, a: Id, b: Id, x: nat)
    requires a in p.acts && b in p.acts
  {
    || (Writes(p, a, x) && (Reads(p, b, x) || Writes(p, b, x)))
    || (Writes(p, b, x) && Reads(p, a, x))
  }

  /** A send and the receive it feeds: same round, same length, each naming the other's rank. */
  predicate Paired(p: Program, id: Id)
    requires id in p.acts
  {
    && id.partner < p.n
    && id.partner != id.rank
    && Mate(id) in p.acts
    && p.acts[Mate(id)].nelems == p.acts[id].nelems
  }

  predicate SoundAction(p: Program, id: Id)
    requires id in p.acts
  {
    var a := p.acts[id];
    && id.rank < p.n
    && match id.kind
       case Send =>
         && (a.mode.SendInPlace? || a.mode.SendTemp?) && Paired(p, id)
         && Addr(p, a) + a.nelems <= p.size
       case Recv =>
         && Addr(p, a) + a.nelems <= p.size
         && (a.mode.RecvInPlace? || a.mode.RecvReduce? || a.mode.RecvPacked?)
         && Paired(p, id)
         && (a.mode.RecvReduce? ==>
               && Land(p, a) + a.nelems <= p.size
               && (Addr(p, a) + a.nelems <= Land(p, a) || Land(p, a) + a.nelems <= Addr(p, a)))
         && (a.mode.RecvPacked? ==> a.offset == 0)
       case Shuffle => forall x | x in a.copies :: x < p.size && a.copies[x] < p.size
       case Join => true
  }

  /** The action is sound, and so is the receive it feeds. */
  predicate Near(p: Program, id: Id) {
    && id in p.acts
    && SoundAction(p, id)
    && (id.kind.Send? ==> SoundAction(p, Mate(id)))
  }

  /** Structural soundness of a program; every schedule in this project meets it. */
  ghost predicate Sound(p: Program) {
    && (forall id | id in p.acts :: SoundAction(p, id))
    && (forall a, b | (a, b) in p.edges :: a in p.acts && b in p.acts && a.rank == b.rank)
  }

  lemma SoundNear(p: Program, id: Id)
    requires Sound(p) && id in p.acts
    ensures Near(p, id)
  {
    assert SoundAction(p, id);
  }
}
