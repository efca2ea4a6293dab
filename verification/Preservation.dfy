/** Every event keeps the invariants, cluster by cluster. */
module Preservation {
  import opened Actions
  import opened Fabric
  import opened Outlines
  import opened Invariants

  // ---------------------------------------------------------------- order and conservation

  lemma StartKeepsBasic(p: Program, s: State, id: Id)
    requires Near(p, id) && Basic(p, s) && Ready(p, s, id)
    ensures Basic(p, Started(p, s, id))
  {
  }

  /** Conservation alone rules out the runtime's aborts: a completion always finds its action active. */
  lemma CompletionExpected(p: Program, s: State, e: Event)
    requires Near(p, e.id) && Enabled(p, s, e) && s.cleared <= s.started
    requires e.EReceive? || e.EAck?
    requires Flow(p, s, e.id)
    ensures e.EReceive? ==> Active(s, Mate(e.id))
    ensures e.EAck? ==> Active(s, e.id)
  {
  }

  lemma TransferKeepsBasic(p: Program, s: State, e: Event)
    requires Near(p, e.id) && Basic(p, s) && Enabled(p, s, e) && !e.EStart?
    requires Flow(p, s, e.id)
    ensures Basic(p, Apply(p, s, e))
  {
    hide Injected, Landing, Received, Acked, Near;
    if e.EReceive? || e.EAck? {
      CompletionExpected(p, s, e);
    }
    match e
    case EHeader(id) => HeaderKeepsBasic(p, s, id);
    case EInject(id) => InjectKeepsBasic(p, s, id);
    case ELand(id) => LandKeepsBasic(p, s, id);
    case EReceive(id) => ReceiveKeepsBasic(p, s, id);
    case EAck(id) => AckKeepsBasic(p, s, id);
  }

  lemma HeaderKeepsBasic(p: Program, s: State, id: Id)
    requires Near(p, id) && Basic(p, s) && Enabled(p, s, EHeader(id))
    ensures Basic(p, Apply(p, s, EHeader(id)))
  {
    hide SoundAction;
  }

  lemma InjectKeepsBasic(p: Program, s: State, id: Id)
    requires Near(p, id) && Basic(p, s) && id.kind.Send?
    ensures Basic(p, Injected(p, s, id))
  {
    hide SoundAction;
  }

  lemma LandKeepsBasic(p: Program, s: State, id: Id)
    requires Near(p, id) && Basic(p, s) && Enabled(p, s, ELand(id)) && Flow(p, s, id)
    ensures Basic(p, Landing(p, s, id))
  {
    hide SoundAction, Stored, Data;
  }

  lemma ReceiveKeepsBasic(p: Program, s: State, id: Id)
    requires Near(p, id) && Basic(p, s) && id.kind.Send? && Active(s, Mate(id))
    ensures Basic(p, Received(p, s, id))
  {
    hide SoundAction, Taken, Data;
  }

  lemma AckKeepsBasic(p: Program, s: State, id: Id)
    requires Near(p, id) && Basic(p, s) && Active(s, id)
    ensures Basic(p, Acked(p, s, id))
  {
    hide SoundAction;
  }

  lemma OpenKeepsFlow(p: Program, s: State, id: Id, i: Id)
    requires Shaped(p, s) && Near(p, id) && Ready(p, s, id) && s.cleared <= s.started
    requires IsTransfer(p, i) && Flow(p, s, i)
    requires id == i || id == Mate(i)
    ensures Flow(p, Started(p, s, id), i)
  {
    assert Mate(Mate(i)) == i;
    if id != i {
      assert Proto(p, id) == Proto(p, i);
    }
  }

  /** Starting an action sends messages only for the transfer it belongs to. */
  lemma OtherCounts(p: Program, s: State, id: Id, i: Id)
    requires Shaped(p, s) && Near(p, id)
    requires i.kind.Send? && id != i && id != Mate(i)
    ensures var t := Started(p, s, id);
            && t.headers[i] == s.headers[i] && t.posted[i] == s.posted[i] && t.payloads == s.payloads
            && t.landed == s.landed && t.acks == s.acks
            && (i in t.started <==> i in s.started) && (Mate(i) in t.started <==> Mate(i) in s.started)
            && (i in t.cleared <==> i in s.cleared) && (Mate(i) in t.cleared <==> Mate(i) in s.cleared)
  {
    hide SoundAction, Copied, Proto;
    assert id.kind.Recv? ==> Mate(Mate(id)) == id;
  }

  lemma StartKeepsFlow(p: Program, s: State, id: Id, i: Id)
    requires Shaped(p, s) && Near(p, id) && Ready(p, s, id) && s.cleared <= s.started
    requires IsTransfer(p, i) && Flow(p, s, i)
    ensures Flow(p, Started(p, s, id), i)
  {
    hide Started;
    if id == i || id == Mate(i) {
      OpenKeepsFlow(p, s, id, i);
    } else {
      OtherCounts(p, s, id, i);
    }
  }

  lemma HeaderKeepsFlow(p: Program, s: State, id: Id, i: Id)
    requires Shaped(p, s) && Near(p, id) && Enabled(p, s, EHeader(id)) && s.cleared <= s.started
    requires IsTransfer(p, i) && Flow(p, s, i) && Flow(p, s, id)
    ensures Flow(p, Apply(p, s, EHeader(id)), i)
  {
  }

  lemma InjectKeepsFlow(p: Program, s: State, id: Id, i: Id)
    requires Shaped(p, s) && Near(p, id) && Enabled(p, s, EInject(id))
    requires IsTransfer(p, i) && Flow(p, s, i)
    ensures Flow(p, Injected(p, s, id), i)
  {
  }

  lemma LandKeepsFlow(p: Program, s: State, id: Id, i: Id)
    requires Shaped(p, s) && Near(p, id) && Enabled(p, s, ELand(id))
    requires IsTransfer(p, i) && Flow(p, s, i)
    ensures Flow(p, Landing(p, s, id), i)
  {
  }

  lemma ReceiveKeepsFlow(p: Program, s: State, id: Id, i: Id)
    requires Shaped(p, s) && Near(p, id) && Enabled(p, s, EReceive(id)) && s.cleared <= s.started
    requires IsTransfer(p, i) && Flow(p, s, i) && Flow(p, s, id)
    ensures Flow(p, Received(p, s, id), i)
  {
    CompletionExpected(p, s, EReceive(id));
    assert Mate(Mate(id)) == id && Mate(Mate(i)) == i;
  }

  lemma AckKeepsFlow(p: Program, s: State, id: Id, i: Id)
    requires Shaped(p, s) && Near(p, id) && Enabled(p, s, EAck(id)) && s.cleared <= s.started
    requires IsTransfer(p, i) && Flow(p, s, i) && Flow(p, s, id)
    ensures Flow(p, Acked(p, s, id), i)
  {
    CompletionExpected(p, s, EAck(id));
  }

  lemma StartStraysNot(p: Program, s: State, id: Id, i: Id)
    requires Shaped(p, s) && Near(p, id) && Ready(p, s, id)
    requires InFlight(s, i) > 0 ==> IsTransfer(p, i)
    ensures InFlight(Started(p, s, id), i) > 0 ==> IsTransfer(p, i)
  {
    if i != id && !(id.kind.Recv? && i == Mate(id)) {
      var t := Started(p, s, id);
      assert t.headers[i] == s.headers[i] && t.posted[i] == s.posted[i];
    }
  }

  lemma TransferStraysNot(p: Program, s: State, e: Event, i: Id)
    requires Shaped(p, s) && Near(p, e.id) && Enabled(p, s, e) && !e.EStart?
    requires InFlight(s, i) > 0 ==> IsTransfer(p, i)
    ensures InFlight(Apply(p, s, e), i) > 0 ==> IsTransfer(p, i)
  {
  }

  lemma FlowKept(p: Program, s: State, e: Event, i: Id)
    requires Shaped(p, s) && Near(p, e.id) && Enabled(p, s, e) && s.cleared <= s.started
    requires IsTransfer(p, i) && Flow(p, s, i) && (!e.EStart? ==> Flow(p, s, e.id))
    ensures Flow(p, Apply(p, s, e), i)
  {
    hide Flow, Started, Injected, Landing, Received, Acked;
    match e
    case EStart(id) => StartKeepsFlow(p, s, id, i);
    case EHeader(id) => HeaderKeepsFlow(p, s, id, i);
    case EInject(id) => InjectKeepsFlow(p, s, id, i);
    case ELand(id) => LandKeepsFlow(p, s, id, i);
    case EReceive(id) => ReceiveKeepsFlow(p, s, id, i);
    case EAck(id) => AckKeepsFlow(p, s, id, i);
  }

  lemma FlowsKept(p: Program, s: State, e: Event)
    requires Sound(p) && Basic(p, s) && Flows(p, s) && Enabled(p, s, e)
    ensures Flows(p, Apply(p, s, e))
  {
    forall i | InFlight(Apply(p, s, e), i) > 0 ensures IsTransfer(p, i) {
      if e.EStart? {
        StartStraysNot(p, s, e.id, i);
      } else {
        TransferStraysNot(p, s, e, i);
      }
    }
    forall i | IsTransfer(p, i) ensures Flow(p, Apply(p, s, e), i) {
      FlowKept(p, s, e, i);
    }
  }

  lemma BasicKept(p: Program, s: State, e: Event)
    requires Basic(p, s) && Flows(p, s) && Near(p, e.id) && Enabled(p, s, e)
    ensures Basic(p, Apply(p, s, e))
  {
    hide Basic;
    if e.EStart? {
      StartKeepsBasic(p, s, e.id);
    } else {
      assert Flow(p, s, e.id);
      TransferKeepsBasic(p, s, e);
    }
  }

  /** Every event keeps order and conservation, whatever the program computes. */
  lemma ControlKept(p: Program, o: Outline, s: State, e: Event)
    requires Control(p, o, s) && Enabled(p, s, e)
    ensures Near(p, e.id) && Shaped(p, s)
    ensures Control(p, o, Apply(p, s, e))
  {
    hide Apply, Timed, Flows;
    assert e.id in p.acts;
    SoundNear(p, e.id);
    BasicKept(p, s, e);
    FlowsKept(p, s, e);
  }

  /** The invariant before anything has happened. */
  lemma ControlInitial(p: Program, o: Outline, mem: seq<seq<Val>>)
    requires Sound(p) && Timed(p, o) && Shaped(p, Initial(mem))
    ensures Control(p, o, Initial(mem))
  {
  }

  // ---------------------------------------------------------------- data

  lemma StartKeepsMark(p: Program, s: State, id: Id, w: Id)
    requires Shaped(p, s) && Near(p, id) && Ready(p, s, id) && s.written <= s.started && s.cleared <= s.started
    requires w in p.acts && Mark(p, s, w)
    ensures Mark(p, Started(p, s, id), w)
  {
  }

  lemma OtherKeepsMark(p: Program, s: State, e: Event, w: Id)
    requires Shaped(p, s) && Near(p, e.id) && Enabled(p, s, e) && !e.EStart?
    requires w in p.acts && w.kind.Recv? && Mark(p, s, w) && Mate(w) != e.id && Mate(e.id) != w
    ensures Mark(p, Apply(p, s, e), w)
  {
    assert Apply(p, s, e).landed[Mate(w)] == s.landed[Mate(w)];
  }

  lemma TransferKeepsMark(p: Program, s: State, e: Event, w: Id)
    requires Shaped(p, s) && Near(p, e.id) && Enabled(p, s, e) && !e.EStart? && s.cleared <= s.started
    requires w in p.acts && Near(p, w) && Mark(p, s, w) && Flow(p, s, e.id)
    ensures Mark(p, Apply(p, s, e), w)
  {
    if e.EReceive? || e.EAck? {
      CompletionExpected(p, s, e);
    }
    assert Mate(Mate(e.id)) == e.id;
    if w.kind.Recv? && w != Mate(e.id) {
      assert Mate(Mate(w)) == w;
      OtherKeepsMark(p, s, e, w);
    }
  }
}
