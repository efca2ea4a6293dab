/** Memory and in-flight data agree with the outline after every event. */
module Agreement {
  import opened Actions
  import opened Fabric
  import opened Outlines
  import opened Invariants
  import opened Preservation

  /** The action whose data an event may store. */
  function Writer(e: Event): Id {
    if e.EStart? then e.id else Mate(e.id)
  }

  lemma LandOnlyWriter(p: Program, s: State, id: Id, r: nat, x: nat)
    requires Shaped(p, s) && Near(p, id) && id.kind.Send? && r < p.n && x < p.size
    requires !(r == id.partner && Writes(p, Mate(id), x))
    ensures Landing(p, s, id).mem[r][x] == s.mem[r][x]
  {
  }

  lemma ReceiveOnlyWriter(p: Program, s: State, id: Id, r: nat, x: nat)
    requires Shaped(p, s) && Near(p, id) && id.kind.Send? && r < p.n && x < p.size
    requires !(r == id.partner && Writes(p, Mate(id), x))
    ensures Received(p, s, id).mem[r][x] == s.mem[r][x]
  {
  }

  /** Memory changes only where the event's action writes. */
  lemma OnlyWriter(p: Program, s: State, e: Event, r: nat, x: nat)
    requires Shaped(p, s) && Near(p, e.id) && Enabled(p, s, e)
    requires r < p.n && x < p.size
    requires !(r == Writer(e).rank && Writer(e) in p.acts && Writes(p, Writer(e), x))
    ensures Apply(p, s, e).mem[r][x] == s.mem[r][x]
  {
    hide Landing, Received;
    match e
    case ELand(id) => LandOnlyWriter(p, s, id, r, x);
    case EReceive(id) => ReceiveOnlyWriter(p, s, id, r, x);
    case _ =>
  }

  /** When an unfinished action is about to touch `x`, exactly the earlier updates have happened. */
  lemma Current(p: Program, o: Outline, s: State, a: Id, x: nat)
    requires Valid(p, o) && Basic(p, s) && Marks(p, s)
    requires a in p.acts && (Active(s, a) || Ready(p, s, a)) && (a.kind.Send? || a !in s.written)
    requires Reads(p, a, x) || Updates(p, a, x)
    ensures UpTo(p, o, s, a.rank, x, o.when(a))
  {
    forall w | w in p.acts && w.rank == a.rank && Updates(p, w, x)
      ensures w in s.written <==> o.when(w) < o.when(a)
    {
      if w != a {
        assert Clash(p, a, w, x);
        assert Mark(p, s, w);
        if o.ord(w, a) {
          OrderedDone(p, o, s, w, a);
        } else {
          assert o.ord(a, w);
          if w in s.started {
            OrderedDone(p, o, s, a, w);
          }
        }
      }
    }
  }

  /** A prediction stands back to the last update. */
  lemma {:induction false} FrameBack(p: Program, o: Outline, r: nat, x: nat, t1: nat, t2: nat)
    requires Framed(p, o) && r < p.n && x < p.size && t1 <= t2 && o.val(t2, r, x).Some?
    requires forall t | t1 <= t < t2 :: Idle(p, o, t, r, x)
    ensures o.val(t1, r, x) == o.val(t2, r, x)
    decreases t2 - t1
  {
    if t1 < t2 {
      assert Idle(p, o, t2 - 1, r, x);
      assert o.val((t2 - 1) + 1, r, x).Some?;
      FrameBack(p, o, r, x, t1, t2 - 1);
    }
  }

  /** Storing what the outline predicts for the next instant keeps the element in agreement. */
  lemma UpdatedCell(p: Program, o: Outline, s: State, t: State, w: Id, x: nat, v: Val, at: nat)
    requires Framed(p, o) && w in p.acts && w.rank < p.n && x < p.size && Updates(p, w, x)
    requires UpTo(p, o, s, w.rank, x, o.when(w)) && t.written == s.written + {w}
    requires o.val(o.when(w) + 1, w.rank, x).Some? ==> v == o.val(o.when(w) + 1, w.rank, x).value
    requires UpTo(p, o, t, w.rank, x, at) && o.val(at, w.rank, x).Some?
    ensures v == o.val(at, w.rank, x).value
  {
    assert w in t.written;
    assert o.when(w) < at;
    forall i | o.when(w) + 1 <= i < at ensures Idle(p, o, i, w.rank, x) {
      forall u | u in p.acts && u.rank == w.rank && Updates(p, u, x) ensures o.when(u) != i {
      }
    }
    FrameBack(p, o, w.rank, x, o.when(w) + 1, at);
  }

  /** An element nobody wrote stays in agreement. */
  lemma UntouchedCell(p: Program, o: Outline, s: State, t: State, r: nat, x: nat, at: nat)
    requires Shaped(p, s) && Cells(p, o, s) && r < p.n && x < p.size
    requires forall w | w in p.acts && w.rank == r && Updates(p, w, x) :: w in t.written <==> w in s.written
    requires UpTo(p, o, t, r, x, at) && o.val(at, r, x).Some?
    ensures s.mem[r][x] == o.val(at, r, x).value
  {
    assert UpTo(p, o, s, r, x, at);
  }

  ghost predicate Same(p: Program, s: State, t: State, r: nat, x: nat)
    requires Shaped(p, s) && Shaped(p, t) && r < p.n && x < p.size
  {
    t.mem[r][x] == s.mem[r][x]
  }

  /** Action `w` takes effect between `s` and `t`, storing what the outline predicts. */
  ghost predicate Stores(p: Program, o: Outline, s: State, t: State, w: Id)
    requires Shaped(p, s) && Shaped(p, t)
  {
    && w in p.acts && w.rank < p.n
    && t.written == s.written + {w}
    && (forall x: nat | x < p.size && Updates(p, w, x) ::
          && UpTo(p, o, s, w.rank, x, o.when(w))
          && (o.val(o.when(w) + 1, w.rank, x).Some? ==>
                t.mem[w.rank][x] == o.val(o.when(w) + 1, w.rank, x).value))
    && (forall r: nat, x: nat | r < p.n && x < p.size && !(r == w.rank && Writes(p, w, x)) :: Same(p, s, t, r, x))
  }

  lemma StoreKeepsCells(p: Program, o: Outline, s: State, t: State, w: Id)
    requires Framed(p, o) && ScratchBlank(p, o)
    requires Shaped(p, s) && Shaped(p, t) && Cells(p, o, s) && Stores(p, o, s, t, w)
    ensures Cells(p, o, t)
  {
    forall r: nat, x: nat, at: nat | r < p.n && x < p.size && UpTo(p, o, t, r, x, at) && o.val(at, r, x).Some?
      ensures t.mem[r][x] == o.val(at, r, x).value
    {
      if r == w.rank && Updates(p, w, x) {
        UpdatedCell(p, o, s, t, w, x, t.mem[r][x], at);
      } else {
        assert r == w.rank ==> !Lands(p, w, x);
        assert Same(p, s, t, r, x);
        UntouchedCell(p, o, s, t, r, x, at);
      }
    }
  }

  /** Nothing took effect; at most scratch elements changed. */
  lemma ScratchKeepsCells(p: Program, o: Outline, s: State, t: State, w: Id)
    requires ScratchBlank(p, o) && Shaped(p, s) && Shaped(p, t) && Cells(p, o, s) && t.written == s.written
    requires forall r: nat, x: nat | r < p.n && x < p.size && !(w in p.acts && r == w.rank && Lands(p, w, x)) ::
               Same(p, s, t, r, x)
    ensures Cells(p, o, t)
  {
    forall r: nat, x: nat, at: nat | r < p.n && x < p.size && UpTo(p, o, t, r, x, at) && o.val(at, r, x).Some?
      ensures t.mem[r][x] == o.val(at, r, x).value
    {
      assert Same(p, s, t, r, x);
      UntouchedCell(p, o, s, t, r, x, at);
    }
  }

  lemma ShuffleCell(p: Program, o: Outline, s: State, id: Id, x: nat)
    requires Inv(p, o, s) && Shaped(p, s) && Near(p, id) && Ready(p, s, id) && id.kind.Shuffle?
    requires x < p.size && x in p.acts[id].copies
    ensures UpTo(p, o, s, id.rank, x, o.when(id))
    ensures o.val(o.when(id) + 1, id.rank, x).Some? ==>
              s.mem[id.rank][p.acts[id].copies[x]] == o.val(o.when(id) + 1, id.rank, x).value
  {
    hide Wires, Flows, Sound, Framed, RecvsExplained, ScratchBlank;
    Current(p, o, s, id, x);
    Current(p, o, s, id, p.acts[id].copies[x]);
  }

  lemma ShuffleStores(p: Program, o: Outline, s: State, id: Id)
    requires Inv(p, o, s) && Shaped(p, s) && Near(p, id) && Ready(p, s, id) && id.kind.Shuffle?
    ensures Stores(p, o, s, Started(p, s, id), id)
  {
    hide Inv, UpTo;
    forall x: nat | x < p.size && Updates(p, id, x)
      ensures UpTo(p, o, s, id.rank, x, o.when(id))
      ensures o.val(o.when(id) + 1, id.rank, x).Some? ==>
                Started(p, s, id).mem[id.rank][x] == o.val(o.when(id) + 1, id.rank, x).value
    {
      ShuffleCell(p, o, s, id, x);
    }
  }

  /** What landing stores is what the outline predicts. */
  lemma LandedValue(p: Program, o: Outline, s: State, id: Id, i: nat)
    requires Shaped(p, s) && Near(p, id) && id.kind.Send? && !p.acts[Mate(id)].mode.RecvReduce?
    requires i < p.acts[id].nelems && RecvExplained(p, o, id, i)
    requires s.payloads[id] > 0 && Carries(p, o, s, id)
    ensures var to := Mate(id);
            var x := Addr(p, p.acts[to]) + i;
            o.val(o.when(id) + 1, to.rank, x).Some? ==>
              Landing(p, s, id).mem[to.rank][x] == o.val(o.when(id) + 1, to.rank, x).value
  {
  }

  lemma ReceivedMemory(p: Program, s: State, id: Id)
    requires Shaped(p, s) && Near(p, id) && id.kind.Send? && Active(s, Mate(id))
    ensures Received(p, s, id).mem[id.partner] ==
              Taken(p, s.mem[id.partner], p.acts[Mate(id)], Proto(p, id).Eager?, Data(p, s, id))
    ensures Received(p, s, id).written == s.written + {Mate(id)}
  {
  }

  /** What receiving stores is the payload, or the payload combined with the old element. */
  lemma TakenValue(p: Program, s: State, id: Id, i: nat)
    requires Shaped(p, s) && Near(p, id) && id.kind.Send? && i < p.acts[id].nelems && Holds(p, s, id)
    requires if Proto(p, id).Eager? then s.payloads[id] > 0 else s.landed[id] > 0
    requires Proto(p, id).Eager? || p.acts[Mate(id)].mode.RecvReduce?
    ensures var a := p.acts[Mate(id)];
            var m := s.mem[id.partner];
            var x := Addr(p, a) + i;
            var d := Data(p, s, id);
            Taken(p, m, a, Proto(p, id).Eager?, d)[x] == if a.mode.RecvReduce? then m[x] + d[i] else d[i]
  {
  }

  /** What receiving stores is what the outline predicts. */
  lemma ReceivedValue(p: Program, o: Outline, s: State, id: Id, i: nat)
    requires Shaped(p, s) && Near(p, id) && id.kind.Send? && Active(s, Mate(id))
    requires Proto(p, id).Eager? || p.acts[Mate(id)].mode.RecvReduce?
    requires i < p.acts[id].nelems && RecvExplained(p, o, id, i)
    requires if Proto(p, id).Eager? then s.payloads[id] > 0 else s.landed[id] > 0
    requires Carries(p, o, s, id) && Holds(p, s, id)
    requires var x := Addr(p, p.acts[Mate(id)]) + i;
             o.val(o.when(id), id.partner, x).Some? ==> s.mem[id.partner][x] == o.val(o.when(id), id.partner, x).value
    ensures var x := Addr(p, p.acts[Mate(id)]) + i;
            o.val(o.when(id) + 1, id.partner, x).Some? ==>
              Received(p, s, id).mem[id.partner][x] == o.val(o.when(id) + 1, id.partner, x).value
  {
    ReceivedMemory(p, s, id);
    TakenValue(p, s, id, i);
    hide Received, Taken, Holds, Shaped;
  }

  /** Before its update the receiver is active and unwritten. */
  lemma Awaiting(p: Program, o: Outline, s: State, id: Id)
    requires Inv(p, o, s)
    requires (Enabled(p, s, ELand(id)) && !p.acts[Mate(id)].mode.RecvReduce?)
             || (Enabled(p, s, EReceive(id)) && (Proto(p, id).Eager? || p.acts[Mate(id)].mode.RecvReduce?))
    ensures Near(p, id) && Mate(Mate(id)) == id && o.when(Mate(id)) == o.when(id)
    ensures Active(s, Mate(id)) && Mate(id) !in s.written
  {
    assert Flow(p, s, id) && SoundAction(p, id) && Mark(p, s, Mate(id));
  }

  /** All that is known about a transfer and the element `x` its receiver is about to update. */
  lemma Expected(p: Program, o: Outline, s: State, id: Id, x: nat)
    requires Inv(p, o, s) && IsTransfer(p, id) && Near(p, id) && x < p.size && Updates(p, Mate(id), x)
    requires Active(s, Mate(id)) && Mate(id) !in s.written && Mate(Mate(id)) == id
    ensures Span(x, Addr(p, p.acts[Mate(id)]), p.acts[id].nelems)
    ensures RecvExplained(p, o, id, x - Addr(p, p.acts[Mate(id)]))
    ensures Carries(p, o, s, id) && Holds(p, s, id)
    ensures UpTo(p, o, s, id.partner, x, o.when(Mate(id)))
    ensures o.val(o.when(Mate(id)), id.partner, x).Some? ==>
              s.mem[id.partner][x] == o.val(o.when(Mate(id)), id.partner, x).value
  {
    Current(p, o, s, Mate(id), x);
  }

  lemma LandedCell(p: Program, o: Outline, s: State, id: Id, x: nat)
    requires Inv(p, o, s) && Shaped(p, s) && Near(p, id) && Enabled(p, s, ELand(id))
    requires !p.acts[Mate(id)].mode.RecvReduce?
    requires x < p.size && Updates(p, Mate(id), x)
    ensures UpTo(p, o, s, id.partner, x, o.when(Mate(id)))
    ensures o.val(o.when(Mate(id)) + 1, id.partner, x).Some? ==>
              Landing(p, s, id).mem[id.partner][x] == o.val(o.when(Mate(id)) + 1, id.partner, x).value
  {
    hide Inv, Landing, RecvExplained, Carries, Holds, UpTo, Updates;
    Awaiting(p, o, s, id);
    Expected(p, o, s, id, x);
    var i := x - Addr(p, p.acts[Mate(id)]);
    assert Addr(p, p.acts[Mate(id)]) + i == x;
    LandedValue(p, o, s, id, i);
  }

  lemma LandedMarks(p: Program, s: State, id: Id)
    requires Shaped(p, s) && Near(p, id) && id.kind.Send?
    ensures Landing(p, s, id).written ==
              if p.acts[Mate(id)].mode.RecvReduce? then s.written else s.written + {Mate(id)}
  {
  }

  /** An RDMA payload for a non-reducing receive: landing is the update. */
  lemma LandStores(p: Program, o: Outline, s: State, id: Id)
    requires Inv(p, o, s) && Shaped(p, s) && Near(p, id) && Enabled(p, s, ELand(id))
    requires !p.acts[Mate(id)].mode.RecvReduce?
    ensures Stores(p, o, s, Landing(p, s, id), Mate(id))
  {
    hide Inv, Landing, UpTo, Updates, Lands;
    LandedMarks(p, s, id);
    var t := Landing(p, s, id);
    var to := Mate(id);
    assert to.rank == id.partner;
    forall x: nat | x < p.size && Updates(p, to, x)
      ensures UpTo(p, o, s, to.rank, x, o.when(to))
      ensures o.val(o.when(to) + 1, to.rank, x).Some? ==>
                t.mem[to.rank][x] == o.val(o.when(to) + 1, to.rank, x).value
    {
      LandedCell(p, o, s, id, x);
    }
    forall r: nat, x: nat | r < p.n && x < p.size && !(r == to.rank && Writes(p, to, x))
      ensures Same(p, s, t, r, x)
    {
      LandOnlyWriter(p, s, id, r, x);
    }
  }

  lemma ReceivedCell(p: Program, o: Outline, s: State, id: Id, x: nat)
    requires Inv(p, o, s) && Shaped(p, s) && Near(p, id) && Enabled(p, s, EReceive(id))
    requires Proto(p, id).Eager? || p.acts[Mate(id)].mode.RecvReduce?
    requires x < p.size && Updates(p, Mate(id), x)
    ensures UpTo(p, o, s, id.partner, x, o.when(Mate(id)))
    ensures o.val(o.when(Mate(id)) + 1, id.partner, x).Some? ==>
              Received(p, s, id).mem[id.partner][x] == o.val(o.when(Mate(id)) + 1, id.partner, x).value
  {
    hide Inv, Received, RecvExplained, Carries, Holds, UpTo, Updates;
    Awaiting(p, o, s, id);
    Expected(p, o, s, id, x);
    var i := x - Addr(p, p.acts[Mate(id)]);
    assert Addr(p, p.acts[Mate(id)]) + i == x;
    ReceivedValue(p, o, s, id, i);
  }

  /** An eager payload, or the combining step of a reducing receive. */
  lemma ReceiveStores(p: Program, o: Outline, s: State, id: Id)
    requires Inv(p, o, s) && Shaped(p, s) && Near(p, id) && Enabled(p, s, EReceive(id))
    requires Proto(p, id).Eager? || p.acts[Mate(id)].mode.RecvReduce?
    ensures Stores(p, o, s, Received(p, s, id), Mate(id))
  {
    hide Inv, Received, Taken, UpTo, Updates, Lands;
    Awaiting(p, o, s, id);
    ReceivedMemory(p, s, id);
    var t := Received(p, s, id);
    var to := Mate(id);
    assert to.rank == id.partner;
    forall x: nat | x < p.size && Updates(p, to, x)
      ensures UpTo(p, o, s, to.rank, x, o.when(to))
      ensures o.val(o.when(to) + 1, to.rank, x).Some? ==>
                t.mem[to.rank][x] == o.val(o.when(to) + 1, to.rank, x).value
    {
      ReceivedCell(p, o, s, id, x);
    }
    forall r: nat, x: nat | r < p.n && x < p.size && !(r == to.rank && Writes(p, to, x))
      ensures Same(p, s, t, r, x)
    {
      ReceiveOnlyWriter(p, s, id, r, x);
    }
  }

  /** An event that neither writes memory nor marks an update. */
  lemma QuietKeepsCells(p: Program, o: Outline, s: State, t: State)
    requires Shaped(p, s) && Shaped(p, t) && Cells(p, o, s) && t.written == s.written && t.mem == s.mem
    ensures Cells(p, o, t)
  {
    forall r: nat, x: nat, at: nat | r < p.n && x < p.size && UpTo(p, o, t, r, x, at) && o.val(at, r, x).Some?
      ensures t.mem[r][x] == o.val(at, r, x).value
    {
      UntouchedCell(p, o, s, t, r, x, at);
    }
  }

  lemma StartKeepsCells(p: Program, o: Outline, s: State, id: Id)
    requires Inv(p, o, s) && Shaped(p, s) && Near(p, id) && Ready(p, s, id)
    ensures Cells(p, o, Started(p, s, id))
  {
    hide Cells, Stores, Valid, Basic, Flows, Marks, Wires, UpTo, Ready;
    if id.kind.Shuffle? {
      ShuffleStores(p, o, s, id);
      ValidParts(p, o);
      StoreKeepsCells(p, o, s, Started(p, s, id), id);
    } else {
      QuietKeepsCells(p, o, s, Started(p, s, id));
    }
  }

  lemma ValidParts(p: Program, o: Outline)
    requires Valid(p, o)
    ensures Sound(p) && Timed(p, o) && Backed(p, o) && RaceFree(p, o)
    ensures Framed(p, o) && RecvsExplained(p, o) && ShufflesExplained(p, o) && ScratchBlank(p, o)
  {
  }

  lemma LandKeepsCells(p: Program, o: Outline, s: State, id: Id)
    requires Inv(p, o, s) && Shaped(p, s) && Near(p, id) && Enabled(p, s, ELand(id))
    ensures Cells(p, o, Landing(p, s, id))
  {
    hide Cells, Stores, Valid, Basic, Flows, Marks, Wires, UpTo, Landing, Updates, Lands;
    ValidParts(p, o);
    var t := Landing(p, s, id);
    LandedMarks(p, s, id);
    if p.acts[Mate(id)].mode.RecvReduce? {
      forall r: nat, x: nat
        | r < p.n && x < p.size && !(Mate(id) in p.acts && r == Mate(id).rank && Lands(p, Mate(id), x))
        ensures Same(p, s, t, r, x)
      {
        ScratchOnly(p, s, id, r, x);
      }
      ScratchKeepsCells(p, o, s, t, Mate(id));
    } else {
      LandStores(p, o, s, id);
      StoreKeepsCells(p, o, s, t, Mate(id));
    }
  }

  lemma ScratchOnly(p: Program, s: State, id: Id, r: nat, x: nat)
    requires Shaped(p, s) && Near(p, id) && id.kind.Send? && p.acts[Mate(id)].mode.RecvReduce?
    requires r < p.n && x < p.size && !(r == id.partner && Lands(p, Mate(id), x))
    ensures Same(p, s, Landing(p, s, id), r, x)
  {
  }

  lemma ReceiveKeepsCells(p: Program, o: Outline, s: State, id: Id)
    requires Inv(p, o, s) && Shaped(p, s) && Near(p, id) && Enabled(p, s, EReceive(id))
    ensures Cells(p, o, Received(p, s, id))
  {
    hide Cells, Stores, Valid, Basic, Flows, Marks, Wires, UpTo, Received, Updates, Lands;
    ValidParts(p, o);
    if Proto(p, id).Eager? || p.acts[Mate(id)].mode.RecvReduce? {
      ReceiveStores(p, o, s, id);
      StoreKeepsCells(p, o, s, Received(p, s, id), Mate(id));
    } else {
      CompletionQuiet(p, o, s, id);
      QuietKeepsCells(p, o, s, Received(p, s, id));
    }
  }

  /** Completing a landed non-reducing receive changes no memory. */
  lemma CompletionQuiet(p: Program, o: Outline, s: State, id: Id)
    requires Inv(p, o, s) && Shaped(p, s) && Near(p, id) && Enabled(p, s, EReceive(id))
    requires !Proto(p, id).Eager? && !p.acts[Mate(id)].mode.RecvReduce?
    ensures Received(p, s, id).mem == s.mem && Received(p, s, id).written == s.written
  {
    hide Valid, Basic, Wires, Cells;
    assert Flow(p, s, id) && Mark(p, s, Mate(id));
    assert Mate(Mate(id)) == id;
  }

  // ---------------------------------------------------------------- data in flight

  lemma InjectedData(p: Program, s: State, id: Id, i: nat)
    requires Shaped(p, s) && Near(p, id) && id.kind.Send? && i < p.acts[id].nelems
    ensures Data(p, Injected(p, s, id), id)[i] == s.mem[id.rank][Addr(p, p.acts[id]) + i]
  {
  }

  /** The network reads a source that still holds the value the send was meant to carry. */
  lemma InjectCarries(p: Program, o: Outline, s: State, id: Id)
    requires Inv(p, o, s) && Shaped(p, s) && Near(p, id) && Enabled(p, s, EInject(id))
    ensures Carries(p, o, Injected(p, s, id), id)
  {
    hide Inv, Injected;
    var a := p.acts[id];
    forall i: nat | i < a.nelems && o.val(o.when(id), id.rank, Addr(p, a) + i).Some?
      ensures Data(p, Injected(p, s, id), id)[i] == o.val(o.when(id), id.rank, Addr(p, a) + i).value
    {
      SourceCurrent(p, o, s, id, Addr(p, a) + i);
      InjectedData(p, s, id, i);
    }
  }

  lemma SourceCurrent(p: Program, o: Outline, s: State, id: Id, x: nat)
    requires Inv(p, o, s) && Shaped(p, s) && IsTransfer(p, id) && s.posted[id] > 0 && id.rank < p.n && x < p.size
    requires Reads(p, id, x)
    ensures o.val(o.when(id), id.rank, x).Some? ==> s.mem[id.rank][x] == o.val(o.when(id), id.rank, x).value
  {
    hide Valid, Basic, Wires;
    assert Flow(p, s, id);
    PostedActive(p, s, id);
    Current(p, o, s, id, x);
  }

  lemma PostedActive(p: Program, s: State, id: Id)
    requires IsTransfer(p, id) && Flow(p, s, id) && s.posted[id] > 0
    ensures Active(s, id)
  {
  }

  lemma DataKept(p: Program, s: State, e: Event, i: Id)
    requires Shaped(p, s) && Near(p, e.id) && Enabled(p, s, e) && IsTransfer(p, i)
    requires e.EInject? ==> e.id != i
    ensures Data(p, Apply(p, s, e), i) == Data(p, s, i)
  {
  }

  lemma DataOnlyInjected(p: Program, s: State, e: Event, i: Id)
    requires Shaped(p, s) && Near(p, e.id) && Enabled(p, s, e)
    requires e.EInject? ==> e.id != i
    ensures Apply(p, s, e).payloads[i] + Apply(p, s, e).landed[i] <= s.payloads[i] + s.landed[i]
  {
    hide Started, Injected, Landing, Received, Near, Shaped;
    match e
    case EStart(id) => StartSendsNoData(p, s, id);
    case EInject(id) => InjectsOneTransfer(p, s, id, i);
    case ELand(id) => LandingMovesData(p, s, id, i);
    case EReceive(id) => ReceivingTakesData(p, s, id, i);
    case _ =>
  }

  lemma StartSendsNoData(p: Program, s: State, id: Id)
    requires Shaped(p, s) && Near(p, id)
    ensures Started(p, s, id).payloads == s.payloads && Started(p, s, id).landed == s.landed
  {
  }

  lemma InjectsOneTransfer(p: Program, s: State, id: Id, i: Id)
    requires Shaped(p, s) && Near(p, id) && id.kind.Send? && id != i
    ensures Injected(p, s, id).payloads[i] == s.payloads[i] && Injected(p, s, id).landed == s.landed
  {
  }

  lemma LandingMovesData(p: Program, s: State, id: Id, i: Id)
    requires Shaped(p, s) && Near(p, id) && id.kind.Send? && s.payloads[id] > 0
    ensures Landing(p, s, id).payloads[i] + Landing(p, s, id).landed[i] == s.payloads[i] + s.landed[i]
  {
  }

  lemma ReceivingTakesData(p: Program, s: State, id: Id, i: Id)
    requires Shaped(p, s) && Near(p, id) && id.kind.Send?
    ensures Received(p, s, id).payloads[i] <= s.payloads[i] && Received(p, s, id).landed[i] <= s.landed[i]
  {
  }

  lemma CarriesKept(p: Program, o: Outline, s: State, e: Event, i: Id)
    requires Shaped(p, s) && Near(p, e.id) && Enabled(p, s, e) && IsTransfer(p, i)
    requires e.EInject? ==> e.id != i
    requires Carries(p, o, s, i)
    ensures Carries(p, o, Apply(p, s, e), i)
  {
    hide Data, Apply, Enabled;
    DataKept(p, s, e, i);
    DataOnlyInjected(p, s, e, i);
  }

  /** While data waits in scratch, no other event touches it. */
  lemma ScratchSafe(p: Program, o: Outline, s: State, e: Event, i: Id, x: nat)
    requires Inv(p, o, s) && Enabled(p, s, e) && IsTransfer(p, i) && i.partner < p.n && x < p.size
    requires s.landed[i] > 0 && Mate(i) in p.acts && Lands(p, Mate(i), x)
    requires e.EStart? || e.ELand? || e.EReceive?
    requires Writer(e) != Mate(i) && Writer(e).rank == i.partner && Writer(e) in p.acts
    ensures !Writes(p, Writer(e), x)
  {
    hide Wires, Cells, Marks;
    assert Flow(p, s, i);
    assert !e.EStart? ==> Flow(p, s, e.id);
    assert SoundAction(p, i);
    hide Explained;
    ActiveDisjoint(p, o, s, Mate(i), Writer(e), x);
  }

  lemma LandHolds(p: Program, s: State, id: Id)
    requires Shaped(p, s) && Near(p, id) && id.kind.Send? && p.acts[Mate(id)].mode.RecvReduce?
    ensures Holds(p, Landing(p, s, id), id)
  {
    var t := Landing(p, s, id);
    assert Data(p, t, id) == Data(p, s, id);
  }

  lemma LandedOnlyByLanding(p: Program, s: State, e: Event, i: Id)
    requires Shaped(p, s) && Near(p, e.id) && Enabled(p, s, e) && IsTransfer(p, i)
    requires Apply(p, s, e).landed[i] > 0
    ensures s.landed[i] > 0 || e == ELand(i)
  {
  }

  lemma ScratchKept(p: Program, o: Outline, s: State, e: Event, i: Id, x: nat)
    requires Inv(p, o, s) && Shaped(p, s) && Near(p, e.id) && Near(p, i) && Enabled(p, s, e) && IsTransfer(p, i)
    requires x < p.size && s.landed[i] > 0 && Lands(p, Mate(i), x)
    requires Writer(e) != Mate(i)
    ensures Same(p, s, Apply(p, s, e), i.partner, x)
  {
    hide Inv, Apply, Writes, Lands;
    if e.EStart? || e.ELand? || e.EReceive? {
      if Writer(e).rank == i.partner && Writer(e) in p.acts {
        ScratchSafe(p, o, s, e, i, x);
      }
      OnlyWriter(p, s, e, i.partner, x);
    } else {
      MemoryQuiet(p, s, e);
    }
  }

  lemma MemoryQuiet(p: Program, s: State, e: Event)
    requires Shaped(p, s) && Near(p, e.id) && Enabled(p, s, e)
    requires !(e.EStart? || e.ELand? || e.EReceive?)
    ensures Apply(p, s, e).mem == s.mem
  {
  }

  /** A second writer event on the same receive would mean its data is no longer waiting. */
  lemma SameWriter(p: Program, s: State, e: Event, i: Id)
    requires Shaped(p, s) && Near(p, e.id) && Near(p, i) && IsTransfer(p, i) && Enabled(p, s, e)
    requires Flow(p, s, i) && s.landed[i] > 0 && Writer(e) == Mate(i)
    ensures Apply(p, s, e).landed[i] == 0 || Apply(p, s, e).mem == s.mem
  {
    assert Mate(Mate(i)) == i;
    if !e.EStart? {
      assert e.id.kind.Send? && Mate(Mate(e.id)) == e.id;
    }
  }

  lemma HoldsKept(p: Program, o: Outline, s: State, e: Event, i: Id)
    requires Inv(p, o, s) && Shaped(p, s) && Near(p, e.id) && Near(p, i) && IsTransfer(p, i) && Enabled(p, s, e)
    requires Flow(p, s, i) && Holds(p, s, i)
    ensures Holds(p, Apply(p, s, e), i)
  {
    hide Inv, Apply, Flow, Data, Enabled;
    var t := Apply(p, s, e);
    var to := Mate(i);
    if t.landed[i] > 0 && p.acts[to].mode.RecvReduce? {
      LandedOnlyByLanding(p, s, e, i);
      if e == ELand(i) {
        HoldsLanded(p, s, e, i);
      } else {
        if e.EInject? && e.id == i {
          InjectNotLanded(p, s, i);
        }
        DataKept(p, s, e, i);
        if Writer(e) == to {
          SameWriter(p, s, e, i);
        } else {
          forall k: nat | k < p.acts[to].nelems
            ensures t.mem[to.rank][Land(p, p.acts[to]) + k] == Data(p, t, i)[k]
          {
            ScratchKept(p, o, s, e, i, Land(p, p.acts[to]) + k);
          }
        }
      }
    }
  }

  lemma HoldsLanded(p: Program, s: State, e: Event, i: Id)
    requires Shaped(p, s) && Near(p, i) && IsTransfer(p, i) && e == ELand(i) && Enabled(p, s, e)
    requires p.acts[Mate(i)].mode.RecvReduce?
    ensures Holds(p, Apply(p, s, e), i)
  {
    LandHolds(p, s, i);
  }

  lemma InjectNotLanded(p: Program, s: State, i: Id)
    requires Shaped(p, s) && Near(p, i) && IsTransfer(p, i) && Enabled(p, s, EInject(i)) && Flow(p, s, i)
    ensures Apply(p, s, EInject(i)).landed[i] == 0
  {
  }

  // ---------------------------------------------------------------- every step

  lemma WiresKept(p: Program, o: Outline, s: State, e: Event)
    requires Inv(p, o, s) && Shaped(p, s) && Near(p, e.id) && Enabled(p, s, e)
    ensures Wires(p, o, Apply(p, s, e))
  {
    hide Valid, Basic, Marks, Cells, Carries, Holds, Flow, Apply, Enabled;
    forall i | IsTransfer(p, i)
      ensures Near(p, i) && Carries(p, o, Apply(p, s, e), i) && Holds(p, Apply(p, s, e), i)
    {
      ValidNear(p, o, i);
      HoldsKept(p, o, s, e, i);
      if e == EInject(i) {
        InjectCarriesApply(p, o, s, i);
      } else {
        CarriesKept(p, o, s, e, i);
      }
    }
  }

  lemma InjectCarriesApply(p: Program, o: Outline, s: State, id: Id)
    requires Inv(p, o, s) && Shaped(p, s) && Near(p, id) && Enabled(p, s, EInject(id))
    ensures Carries(p, o, Apply(p, s, EInject(id)), id)
  {
    hide Inv;
    InjectCarries(p, o, s, id);
  }

  lemma ValidNear(p: Program, o: Outline, id: Id)
    requires Valid(p, o) && id in p.acts
    ensures Near(p, id)
  {
    hide Timed, Backed, RaceFree, Explained;
    assert SoundAction(p, id);
  }

  lemma MarksKept(p: Program, o: Outline, s: State, e: Event)
    requires Inv(p, o, s) && Shaped(p, s) && Near(p, e.id) && Enabled(p, s, e)
    ensures Marks(p, Apply(p, s, e))
  {
    hide Wires, Cells, Mark, Apply, Timed, Backed, RaceFree, Explained, Sound;
    forall w | w in p.acts ensures Mark(p, Apply(p, s, e), w) {
      ValidNear(p, o, w);
      if e.EStart? {
        StartKeepsMarkApply(p, s, e, w);
      } else {
        assert Flow(p, s, e.id);
        TransferKeepsMark(p, s, e, w);
      }
    }
  }

  lemma StartKeepsMarkApply(p: Program, s: State, e: Event, w: Id)
    requires Shaped(p, s) && Near(p, e.id) && Enabled(p, s, e) && s.written <= s.started && s.cleared <= s.started
    requires e.EStart? && w in p.acts && Mark(p, s, w)
    ensures Mark(p, Apply(p, s, e), w)
  {
    StartKeepsMark(p, s, e.id, w);
  }

  lemma CellsKept(p: Program, o: Outline, s: State, e: Event)
    requires Inv(p, o, s) && Shaped(p, s) && Near(p, e.id) && Enabled(p, s, e)
    ensures Cells(p, o, Apply(p, s, e))
  {
    hide Cells, Valid, Basic, Flows, Marks, Wires, Started, Received, Landing;
    match e
    case EStart(id) => StartKeepsCells(p, o, s, id);
    case ELand(id) => LandKeepsCells(p, o, s, id);
    case EReceive(id) => ReceiveKeepsCells(p, o, s, id);
    case _ => QuietKeepsCells(p, o, s, Apply(p, s, e));
  }

  /** Every event of the fabric keeps the invariant. */
  lemma InvKept(p: Program, o: Outline, s: State, e: Event)
    requires Inv(p, o, s) && Enabled(p, s, e)
    ensures Near(p, e.id) && Shaped(p, s)
    ensures Inv(p, o, Apply(p, s, e))
  {
    hide Apply, Valid, Flows, Marks, Wires, Cells;
    assert e.id in p.acts;
    ValidNear(p, o, e.id);
    ValidParts(p, o);
    BasicKept(p, s, e);
    FlowsKept(p, s, e);
    MarksKept(p, o, s, e);
    WiresKept(p, o, s, e);
    CellsKept(p, o, s, e);
  }

  /** A memory that begins as the outline says satisfies the invariant. */
  lemma InvInitial(p: Program, o: Outline, mem: seq<seq<Val>>)
    requires Valid(p, o) && Begins(p, o, mem)
    ensures Inv(p, o, Initial(mem))
  {
    var s := Initial(mem);
    hide Valid;
    forall r: nat, x: nat, t: nat | r < p.n && x < p.size && UpTo(p, o, s, r, x, t) && o.val(t, r, x).Some?
      ensures s.mem[r][x] == o.val(t, r, x).value
    {
      forall i | 0 <= i < t ensures Idle(p, o, i, r, x) {
      }
      ValidParts(p, o);
      FrameBack(p, o, r, x, 0, t);
    }
  }
}
