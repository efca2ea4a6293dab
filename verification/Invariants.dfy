/**
 * What every step of the fabric keeps: for any sound program order (no action
 * starts before its precursors are done) and conservation of messages per
 * transfer; with a valid outline also agreement of memory and in-flight data
 * with it.
 */
module Invariants {
  import opened Actions
  import opened Fabric
  import opened Outlines

  function B(b: bool): int { if b then 1 else 0 }

  ghost predicate Basic(p: Program, s: State) {
    && Shaped(p, s)
    && s.cleared <= s.started
    && s.written <= s.started
    && (forall id | id in s.started :: id in p.acts)
    && (forall id | id in s.started && (id.kind.Shuffle? || id.kind.Join?) :: id in s.cleared)
    && (forall a, b | (a, b) in p.edges && b in s.started :: a in s.cleared)
    && !s.failed
  }

  /** Who opens a transfer: the receiver under the put protocol, else the sender. */
  function Opener(p: Program, id: Id): Id
    requires id in p.acts
  {
    if Proto(p, id).Put? then Mate(id) else id
  }

  /**
   * Conservation for one transfer: once opened, it is in exactly one stage as
   * seen from the receiver and in exactly one stage as seen from the sender.
   */
  ghost predicate Flow(p: Program, s: State, id: Id)
    requires IsTransfer(p, id)
  {
    var due := B(Opener(p, id) in s.started);
    && s.headers[id] + s.posted[id] + s.payloads[id] + s.landed[id] + B(Mate(id) in s.cleared) == due
    && s.headers[id] + s.posted[id] + s.acks[id] + B(id in s.cleared) == due
    && (Proto(p, id).Eager? ==> s.headers[id] == 0 && s.landed[id] == 0)
    && (s.posted[id] + s.payloads[id] + s.landed[id] + s.acks[id] > 0 ==> id in s.started)
    && (s.posted[id] + s.payloads[id] + s.landed[id] > 0 && !Proto(p, id).Eager? ==> Mate(id) in s.started)
  }

  function InFlight(s: State, id: Id): nat {
    s.headers[id] + s.posted[id] + s.payloads[id] + s.landed[id] + s.acks[id]
  }

  ghost predicate NoStrays(p: Program, s: State) {
    forall id | InFlight(s, id) > 0 :: IsTransfer(p, id)
  }

  ghost predicate Flows(p: Program, s: State) {
    && NoStrays(p, s)
    && (forall id | IsTransfer(p, id) :: Flow(p, s, id))
  }

  /** `written` records exactly the updates that have reached memory. */
  ghost predicate Mark(p: Program, s: State, id: Id)
    requires id in p.acts
  {
    && (id.kind.Recv? ==>
          (id in s.written <==> id in s.cleared || (s.landed[Mate(id)] > 0 && !p.acts[id].mode.RecvReduce?)))
    && (id.kind.Shuffle? ==> (id in s.written <==> id in s.cleared))
  }

  ghost predicate Marks(p: Program, s: State) {
    forall id | id in p.acts :: Mark(p, s, id)
  }

  /** Data in flight is what the outline predicts for its source at the send's time. */
  ghost predicate Carries(p: Program, o: Outline, s: State, id: Id)
    requires IsTransfer(p, id)
  {
    s.payloads[id] > 0 || s.landed[id] > 0 ==>
      forall i: nat | i < p.acts[id].nelems ::
        var want := o.val(o.when(id), id.rank, Addr(p, p.acts[id]) + i);
        want.Some? ==> Data(p, s, id)[i] == want.value
  }

  /** Landed data waits undisturbed in the receiver's scratch region. */
  ghost predicate Holds(p: Program, s: State, id: Id)
    requires Shaped(p, s) && Near(p, id) && id.kind.Send?
  {
    var to := Mate(id);
    s.landed[id] > 0 && p.acts[to].mode.RecvReduce? ==>
      forall i: nat | i < p.acts[to].nelems ::
        s.mem[to.rank][Land(p, p.acts[to]) + i] == Data(p, s, id)[i]
  }

  ghost predicate Wires(p: Program, o: Outline, s: State)
    requires Sound(p) && Shaped(p, s)
  {
    && (forall id | IsTransfer(p, id) :: Carries(p, o, s, id))
    && (forall id | IsTransfer(p, id) :: Holds(p, s, id))
  }

  /** The updates of `x` on rank `r` that have happened are exactly those before time `t`. */
  ghost predicate UpTo(p: Program, o: Outline, s: State, r: nat, x: nat, t: nat) {
    forall w | w in p.acts && w.rank == r && Updates(p, w, x) :: w in s.written <==> o.when(w) < t
  }

  ghost predicate Cells(p: Program, o: Outline, s: State)
    requires Shaped(p, s)
  {
    forall r, x, t | 0 <= r < p.n && 0 <= x < p.size && UpTo(p, o, s, r, x, t) && o.val(t, r, x).Some? ::
      s.mem[r][x] == o.val(t, r, x).value
  }

  /** Order and conservation, for any sound program whose dependencies and transfers are not circular. */
  ghost predicate Control(p: Program, o: Outline, s: State) {
    Sound(p) && Timed(p, o) && Basic(p, s) && Flows(p, s)
  }

  /** With a valid outline also the data. */
  ghost predicate Inv(p: Program, o: Outline, s: State) {
    && Valid(p, o)
    && Basic(p, s)
    && Flows(p, s)
    && Marks(p, s)
    && Wires(p, o, s)
    && Cells(p, o, s)
  }

  lemma InvControls(p: Program, o: Outline, s: State)
    requires Inv(p, o, s)
    ensures Control(p, o, s)
  {
    hide Timed, Backed, RaceFree, Explained, Basic, Flows, Marks, Wires, Cells;
  }

  // ---------------------------------------------------------------- order

  /** An action that the DAG puts before a started one is done. */
  lemma {:induction false} OrderedDone(p: Program, o: Outline, s: State, a: Id, b: Id)
    requires Sound(p) && Timed(p, o) && Backed(p, o) && Basic(p, s)
    requires a in p.acts && b in p.acts && o.ord(a, b)
    requires b in s.started || Ready(p, s, b)
    ensures a in s.cleared
    decreases o.when(b)
  {
    var c :| LastStep(p, o, a, b, c);
    assert (c, b) in p.edges;
    if c != a {
      OrderedDone(p, o, s, a, c);
    }
  }

  /** No buffer race: two unfinished actions of one rank never touch the same element with a write. */
  lemma ActiveDisjoint(p: Program, o: Outline, s: State, a: Id, b: Id, x: nat)
    requires Sound(p) && Timed(p, o) && Backed(p, o) && RaceFree(p, o) && Basic(p, s)
    requires a in p.acts && b in p.acts && a != b && a.rank == b.rank
    requires Active(s, a)
    requires Active(s, b) || Ready(p, s, b)
    ensures !Clash(p, a, b, x)
  {
    if Clash(p, a, b, x) {
      if o.ord(a, b) {
        OrderedDone(p, o, s, a, b);
      } else {
        OrderedDone(p, o, s, b, a);
      }
    }
  }
}
