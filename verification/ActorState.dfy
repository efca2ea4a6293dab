/**
 * What one rank's executor records, as values, and how it agrees with the
 * fabric: the abstraction relation that the executor's methods maintain.
 */
module ActorState {
  import opened Actions
  import opened Fabric
  import opened Outlines
  import opened Invariants

  /** A small message: an eager payload, or a get or put header. */
  datatype Msg = Msg(kind: Protocol, id: Id, data: seq<Val>)

  /** Calls into the transport: what this rank has sent. */
  datatype Sent = EagerSend(id: Id) | GetHeader(id: Id) | PutHeader(id: Id) | GetRequest(id: Id) | PutData(id: Id)

  /**
   * `initial`, `pending`, `active`, `joins` are initial_actions_, pending_comms_
   * (precursor, dependent), active_comms_ and the actions' join_counter;
   * `early` holds pending_send_headers_ and pending_recv_headers_.
   */
  datatype Fields = Fields(
    acts: map<Id, Action>,
    initial: set<Id>,
    pending: seq<(Id, Id)>,
    joins: map<Id, nat>,
    active: set<Id>,
    early: seq<Msg>,
    sent: multiset<Sent>,
    complete: bool,
    finalized: nat)

  /** How many entries of the multimap name `b` as the dependent action. */
  function Count(pending: seq<(Id, Id)>, b: Id): nat {
    if pending == [] then 0
    else Count(pending[..|pending| - 1], b) + (if pending[|pending| - 1].1 == b then 1 else 0)
  }

  lemma {:induction false} CountZero(pending: seq<(Id, Id)>, b: Id)
    ensures Count(pending, b) == 0 <==> forall e | e in pending :: e.1 != b
  {
    if pending != [] {
      var front := pending[..|pending| - 1];
      CountZero(front, b);
      assert pending == front + [pending[|pending| - 1]];
    }
  }

  function Without(pending: seq<(Id, Id)>, i: nat): seq<(Id, Id)>
    requires i < |pending|
  {
    pending[..i] + pending[i + 1..]
  }

  lemma {:induction false} CountWithout(pending: seq<(Id, Id)>, i: nat, b: Id)
    requires i < |pending|
    ensures Count(Without(pending, i), b) == Count(pending, b) - (if pending[i].1 == b then 1 else 0)
    decreases |pending|
  {
    var n := |pending| - 1;
    if i == n {
      assert Without(pending, i) == pending[..n];
    } else {
      var rest := Without(pending, i);
      assert rest[..|rest| - 1] == Without(pending[..n], i);
      CountWithout(pending[..n], i, b);
    }
  }

  /** The action a small message waits for. */
  function Key(m: Msg): Id {
    if m.kind.Put? then m.id else Mate(m.id)
  }

  /** The executor knows exactly its rank's share of the program. */
  ghost predicate Knows(p: Program, me: nat, f: Fields) {
    && (forall id :: id in f.acts <==> id in p.acts && id.rank == me)
    && (forall id | id in f.acts :: f.acts[id] == p.acts[id])
  }

  /** Unreleased dependencies are pending; released ones are gone, but for those of `open` precursors. */
  ghost predicate Pends(p: Program, me: nat, s: State, f: Fields, open: set<Id>) {
    && (forall e | e in f.pending :: e in p.edges && e.1.rank == me)
    && (forall e | e in p.edges && e.1.rank == me && e.0 !in s.cleared :: e in f.pending)
    && (forall e | e in f.pending && e.0 in s.cleared :: e.0 in open)
  }

  /** An action's join counter is its number of entries in the multimap. */
  ghost predicate Joins(f: Fields) {
    forall b | b in f.acts :: b in f.joins && f.joins[b] == Count(f.pending, b)
  }

  /** An unstarted action that is not `hand`led right now is initial iff its counter is 0. */
  ghost predicate Initials(s: State, f: Fields, hand: set<Id>) {
    && (forall b | b in f.initial :: b in f.acts)
    && (forall b | b in f.acts ::
          b in f.initial <==> b !in s.started && b !in hand && Count(f.pending, b) == 0)
    && (forall b | b in f.acts && (b in s.started || b in hand) :: Count(f.pending, b) == 0)
  }

  /** Active communications, plus those whose clearing is under way. */
  ghost predicate Actives(s: State, f: Fields, clearing: set<Id>) {
    && (forall b | b in f.active :: b in f.acts)
    && (forall b | b in f.acts :: b in f.active <==> Active(s, b) || b in clearing)
  }

  ghost predicate EarlyOk(p: Program, me: nat, s: State, m: Msg) {
    && IsTransfer(p, m.id)
    && m.kind == Proto(p, m.id)
    && Key(m).rank == me
    && (if m.kind.Eager? then s.payloads[m.id] > 0 && m.data == Data(p, s, m.id) else s.headers[m.id] > 0)
  }

  /** Early messages are real, distinct, and none waits for an action that is active (except `waking`). */
  ghost predicate Earlies(p: Program, me: nat, s: State, f: Fields, waking: set<Id>) {
    && (forall m | m in f.early :: EarlyOk(p, me, s, m))
    && (forall i, j | 0 <= i < j < |f.early| :: f.early[i].id != f.early[j].id)
    && (forall m | m in f.early :: Active(s, Key(m)) ==> Key(m) in waking)
  }

  /** Everything the protocol calls for has been sent, once. */
  ghost predicate SentOk(p: Program, me: nat, s: State, f: Fields, id: Id)
    requires IsTransfer(p, id)
  {
    && (id.rank == me ==>
          && f.sent[EagerSend(id)] == B(Proto(p, id).Eager? && id in s.started)
          && f.sent[GetHeader(id)] == B(Proto(p, id).Get? && id in s.started)
          && f.sent[PutData(id)] == B(Proto(p, id).Put? && Mate(id) in s.started && s.headers[id] == 0))
    && (id.partner == me ==>
          && f.sent[PutHeader(id)] == B(Proto(p, id).Put? && Mate(id) in s.started)
          && f.sent[GetRequest(id)] == B(Proto(p, id).Get? && id in s.started && s.headers[id] == 0))
  }

  /** The call is for a transfer of the program, and this rank is the one to make it. */
  predicate IsOwnCall(p: Program, me: nat, c: Sent) {
    && IsTransfer(p, c.id)
    && match c
       case EagerSend(_) | GetHeader(_) | PutData(_) => c.id.rank == me
       case PutHeader(_) | GetRequest(_) => c.id.partner == me
  }

  /** And nothing else has been sent. */
  ghost predicate OwnCalls(p: Program, me: nat, f: Fields) {
    forall c | c in f.sent :: IsOwnCall(p, me, c)
  }

  ghost predicate Sents(p: Program, me: nat, s: State, f: Fields) {
    && (forall id | IsTransfer(p, id) :: SentOk(p, me, s, f, id))
    && OwnCalls(p, me, f)
  }

  ghost predicate AllCleared(s: State, f: Fields) {
    forall b | b in f.acts :: b in s.cleared
  }

  /** Finalization has happened, once, exactly if everything is done. */
  ghost predicate Done(s: State, f: Fields) {
    (f.complete <==> AllCleared(s, f)) && f.finalized == (if f.complete then 1 else 0)
  }

  /** The abstraction relation; the sets describe calls in progress and are empty in between. */
  ghost predicate Agrees(p: Program, o: Outline, me: nat, s: State, f: Fields, buf: seq<Val>,
                         open: set<Id>, hand: set<Id>, waking: set<Id>)
  {
    && Control(p, o, s) && me < p.n && |s.mem| == p.n && s.mem[me] == buf
    && Knows(p, me, f)
    && Pends(p, me, s, f, open)
    && Joins(f)
    && Initials(s, f, hand)
    && Actives(s, f, {})
    && Earlies(p, me, s, f, waking)
    && Sents(p, me, s, f)
    && Done(s, f)
  }

  /** As `Agrees`, for the moment when action `ac` has just finished but is not yet cleared. */
  ghost predicate Finishing(p: Program, o: Outline, me: nat, s: State, f: Fields, buf: seq<Val>,
                            open: set<Id>, ac: Id)
  {
    && Control(p, o, s) && me < p.n && |s.mem| == p.n && s.mem[me] == buf
    && Knows(p, me, f)
    && Pends(p, me, s, f, open + {ac})
    && Joins(f)
    && Initials(s, f, {})
    && (Actives(s, f, {ac}) || Actives(s, f, {}))
    && Earlies(p, me, s, f, {})
    && Sents(p, me, s, f)
    && ac in f.acts && ac in s.cleared
    && !f.complete && f.finalized == 0
  }

  // ---------------------------------------------------------------- building the DAG

  /** Nothing has been started: the containers describe the DAG built so far. */
  ghost predicate Built(f: Fields) {
    && Joins(f)
    && (forall b | b in f.initial :: b in f.acts)
    && (forall b | b in f.acts :: b in f.initial <==> Count(f.pending, b) == 0)
    && (forall e | e in f.pending :: e.1 in f.acts)
    && f.active == {} && f.early == [] && f.sent == multiset{} && !f.complete && f.finalized == 0
  }

  lemma CountAppend(pending: seq<(Id, Id)>, e: (Id, Id), b: Id)
    ensures Count(pending + [e], b) == Count(pending, b) + (if e.1 == b then 1 else 0)
  {
    assert (pending + [e])[..|pending|] == pending;
  }

  /** A new action has no dependencies yet. */
  function WithAction(f: Fields, ac: Id, action: Action): Fields {
    if ac in f.acts then f else f.(acts := f.acts[ac := action], joins := f.joins[ac := 0])
  }

  lemma NewActionFree(f: Fields, ac: Id, action: Action)
    requires Built(f)
    ensures var g := WithAction(f, ac, action);
            && Joins(g) && ac in g.acts && ac in g.joins && g.joins[ac] == Count(g.pending, ac)
            && (forall b | b in g.acts && b != ac :: b in g.initial <==> Count(g.pending, b) == 0)
            && (forall b | b in g.initial :: b in g.acts) && (forall e | e in g.pending :: e.1 in g.acts)
            && (ac in g.initial ==> Count(g.pending, ac) == 0)
  {
    CountZero(f.pending, ac);
    hide Count;
  }

  lemma EdgeBuilt(f: Fields, pre: Id, ac: Id, action: Action)
    requires Built(f)
    ensures var g := WithAction(f, ac, action);
            && ac in g.joins
            && Built(g.(initial := g.initial - {ac}, pending := g.pending + [(pre, ac)],
                        joins := g.joins[ac := g.joins[ac] + 1]))
  {
    hide Count;
    NewActionFree(f, ac, action);
    forall b ensures Count(f.pending + [(pre, ac)], b) == Count(f.pending, b) + (if ac == b then 1 else 0) {
      CountAppend(f.pending, (pre, ac), b);
    }
  }

  lemma InitialBuilt(f: Fields, ac: Id, action: Action)
    requires Built(f)
    ensures var g := WithAction(f, ac, action);
            && ac in g.joins
            && Built(if g.joins[ac] == 0 then g.(initial := g.initial + {ac}) else g)
  {
    hide Count;
    NewActionFree(f, ac, action);
  }
}
