/**
 * The engine of one rank: it keeps the running collectives, holds messages of
 * collectives that the rank has not started, and reports completions.
 */
module Engine {
  import opened Actions

  /** A collective's type and tag; tags are not reused. */
  datatype Key = Key(ty: nat, tag: nat)

  /** What NetworkMessage::type() tells about a collective message. */
  datatype Stage = SmsgSend | PostedSend | GetPayload | PutPayload | GetNack | PayloadSentAck | GetSentAck | PutSentAck

  datatype Work = Work(key: Key, stage: Stage, domSender: nat, domRecver: nat, round: nat) {

    /** domTargetRank: payloads and headers are for the receiver, acknowledgements for the sender. */
    function DomTargetRank(): nat {
      match stage
      case SmsgSend | PostedSend | GetPayload | PutPayload | GetNack => domRecver
      case PayloadSentAck | GetSentAck | PutSentAck => domSender
    }

    function Reverse(): Work {
      this.(domSender := domRecver, domRecver := domSender)
    }
  }

  /**
   * The actors' own rule: after receiving these messages, does the actor of
   * the collective put its done notification?  Nothing is assumed about it.
   */
  type Rule = (Key, seq<Work>) -> bool

  /** The actor has put its done notification after some of the messages; it stays complete. */
  predicate Ripe(rule: Rule, k: Key, ms: seq<Work>) {
    rule(k, ms) || (ms != [] && Ripe(rule, k, ms[..|ms| - 1]))
  }

  lemma RipeNext(rule: Rule, k: Key, ms: seq<Work>, m: Work)
    ensures Ripe(rule, k, ms + [m]) <==> Ripe(rule, k, ms) || rule(k, ms + [m])
  {
    assert (ms + [m])[..|ms|] == ms;
  }

  lemma RipeAtStart(rule: Rule, k: Key)
    ensures Ripe(rule, k, []) <==> rule(k, [])
  {
  }

  lemma {:induction false} RipeStays(rule: Rule, k: Key, ms: seq<Work>, more: seq<Work>)
    ensures Ripe(rule, k, ms) ==> Ripe(rule, k, ms + more)
    decreases |more|
  {
    if more == [] {
      assert ms + more == ms;
    } else {
      var front := more[..|more| - 1];
      RipeStays(rule, k, ms, front);
      assert ms + more == (ms + front) + [more[|more| - 1]];
      RipeNext(rule, k, ms + front, more[|more| - 1]);
    }
  }

  /** What happens at one rank: it starts a collective, or a message arrives. */
  datatype Event = EStart(key: Key) | EArrive(msg: Work)

  function ArrivedOf(es: seq<Event>, k: Key): seq<Work> {
    if es == [] then []
    else
      var e := es[|es| - 1];
      ArrivedOf(es[..|es| - 1], k) + if e.EArrive? && e.msg.key == k then [e.msg] else []
  }

  /** Done messages called for: one if the rank has started the collective and its messages complete the actor. */
  function Dones(rule: Rule, es: seq<Event>, k: Key): nat {
    if EStart(k) in es && !rule(k, []) && Ripe(rule, k, ArrivedOf(es, k)) then 1 else 0
  }

  lemma Grown(es: seq<Event>, e: Event)
    ensures forall k ::
              ArrivedOf(es + [e], k) == ArrivedOf(es, k) + if e.EArrive? && e.msg.key == k then [e.msg] else []
    ensures forall k :: EStart(k) in es + [e] <==> EStart(k) in es || e == EStart(k)
  {
    assert (es + [e])[..|es|] == es;
  }

  /** Maps that agree but for one key. */
  lemma Entries<T>(m: map<Key, T>, n: map<Key, T>, k: Key)
    requires m - {k} == n - {k}
    ensures forall j :: j != k ==> (j in m <==> j in n)
    ensures forall j :: j != k && j in n ==> n[j] == m[j]
  {
    forall j | j != k
      ensures j in m <==> j in n
      ensures j in n ==> n[j] == m[j]
    {
      assert j in m <==> j in m - {k};
      assert j in n <==> j in n - {k};
      assert j in n ==> n[j] == (n - {k})[j] == (m - {k})[j];
    }
  }

  lemma Without<T>(m: map<Key, T>, k: Key, v: T)
    ensures m[k := v] - {k} == m - {k} && m[k := v] - {k} - {k} == m - {k} && m - {k} - {k} == m - {k}
  {
  }

  /** A collective with one actor per rank. */
  class Collective {
    const key: Key
    const me: nat
    const persistent: bool
    const rule: Rule
    var started: bool
    var actors: set<nat>
    var refcounts: map<nat, nat>
    var received: seq<Work>
    var strays: seq<Work>
    var complete: bool

    constructor (key: Key, me: nat, persistent: bool, rule: Rule)
      ensures this.key == key && this.me == me && this.persistent == persistent && this.rule == rule && New()
    {
      this.key, this.me, this.persistent, this.rule := key, me, persistent, rule;
      started, complete := false, false;
      actors, refcounts, received, strays := {}, map[], [], [];
    }

    ghost predicate New()
      reads this
    {
      !started && actors == {} && refcounts == map[] && received == [] && strays == [] && !complete
    }

    /** Started, with its one actor in the state its rule gives. */
    ghost predicate Serving(k: Key, rank: nat, how: Rule)
      reads this
    {
      && key == k && me == rank && rule == how && started && strays == [] && actors == {me}
      && complete == Ripe(rule, key, received)
      && refcounts == if complete then map[] else map[me := 1]
    }

    method InitActors()
      modifies this`actors, this`refcounts
      ensures actors == old(actors) + {me} && refcounts == old(refcounts)[me := |actors|]
    {
      actors := actors + {me};
      refcounts := refcounts[me := |actors|];
    }

    /** start: the actor starts; `finished` if it puts its done notification right away. */
    method Start() returns (finished: bool)
      modifies this`started, this`complete
      ensures started && complete == (old(complete) || rule(key, received)) && finished == (complete && !old(complete))
    {
      started := true;
      finished := !complete && rule(key, received);
      complete := complete || finished;
    }

    /**
     * recv: hand the message to the actor it is for.  `finished` if the actor
     * just put its done notification, `done` if it is complete.
     */
    method Recv(msg: Work) returns (finished: bool, done: bool)
      modifies this`received, this`strays, this`complete
      ensures if msg.DomTargetRank() in actors then
                && received == old(received) + [msg] && strays == old(strays)
                && complete == (old(complete) || rule(key, received)) && done == complete
              else
                received == old(received) && strays == old(strays) + [msg] && complete == old(complete) && !done
      ensures finished == (complete && !old(complete))
    {
      if msg.DomTargetRank() !in actors {
        strays := strays + [msg];
        return false, false;
      }
      received := received + [msg];
      finished := !complete && rule(key, received);
      complete := complete || finished;
      done := complete;
    }

    /** actorDone: drop the rank's reference; report when it, and when the whole collective, is finished. */
    method ActorDone(rank: nat) returns (generateCqMsg: bool, deleteCollective: bool)
      requires rank in refcounts && refcounts[rank] > 0
      modifies this`refcounts
      ensures generateCqMsg == (old(refcounts)[rank] == 1)
      ensures refcounts == if generateCqMsg then old(refcounts) - {rank}
                           else old(refcounts)[rank := old(refcounts)[rank] - 1]
      ensures deleteCollective == (refcounts == map[])
    {
      refcounts := refcounts[rank := refcounts[rank] - 1];
      generateCqMsg := refcounts[rank] == 0;
      if generateCqMsg {
        refcounts := refcounts - {rank};
      }
      deleteCollective := refcounts == map[];
    }
  }

  class CollectiveEngine {
    const me: nat
    var collectives: map<Key, Collective>
    var pendingMsgs: map<Key, seq<Work>>
    var toDelete: seq<Collective>
    // per key: everything that has arrived, the collective that has left the table, and dropped messages
    ghost var arrived: map<Key, seq<Work>>
    ghost var gone: map<Key, Collective>
    ghost var dropped: map<Key, seq<Work>>
    ghost const rule: Rule

    ghost function Arrived(k: Key): seq<Work>
      reads this
    {
      if k in arrived then arrived[k] else []
    }

    ghost function Pending(k: Key): seq<Work>
      reads this
    {
      if k in pendingMsgs then pendingMsgs[k] else []
    }

    ghost function Dropped(k: Key): seq<Work>
      reads this
    {
      if k in dropped then dropped[k] else []
    }

    ghost predicate Started(k: Key)
      reads this
    {
      k in collectives || k in gone
    }

    ghost function All(): set<Collective>
      reads this
    {
      collectives.Values + gone.Values
    }

    /** What the actor of `k` has been given. */
    ghost function Delivered(k: Key): seq<Work>
      reads this, All()
    {
      if k in collectives then collectives[k].received else if k in gone then gone[k].received else []
    }

    /**
     * Every message that has arrived was handed to its actor, in order, or is
     * kept; kept messages are for a collective not started or one that has
     * left the table.  Messages are dropped only if the actor completes in its
     * start, before any message.
     */
    ghost predicate Accounted(k: Key)
      reads this, All()
    {
      && Arrived(k) == Dropped(k) + Delivered(k) + Pending(k)
      && !(k in collectives && k in gone)
      && (k in collectives ==> Pending(k) == [] && InTable(k))
      && (k in gone ==> gone[k].Serving(k, me, rule) && gone[k].complete && !gone[k].persistent)
      && (Dropped(k) != [] ==> Started(k) && rule(k, []))
      && (forall m | m in Pending(k) :: m.key == k && m.DomTargetRank() == me)
    }

    ghost predicate InTable(k: Key)
      requires k in collectives
      reads this, collectives[k]
    {
      collectives[k].Serving(k, me, rule) && (collectives[k].complete ==> collectives[k].persistent)
    }

    /** Only collectives that have left the table are to be deleted, each once. */
    ghost predicate Listed()
      reads this
    {
      && (forall c | c in toDelete :: c.key in gone && gone[c.key] == c)
      && (forall i, j | 0 <= i < j < |toDelete| :: toDelete[i] != toDelete[j])
    }

    ghost predicate Valid()
      reads this, All()
    {
      Listed() && forall k :: Accounted(k)
    }

    constructor (me: nat, ghost rule: Rule)
      ensures this.me == me && this.rule == rule && Valid()
      ensures collectives == map[] && gone == map[]
      ensures Books([], multiset{})
    {
      this.me, this.rule := me, rule;
      collectives, pendingMsgs, toDelete := map[], map[], [];
      arrived, gone, dropped := map[], map[], map[];
      new;
      assert forall k :: Book([], multiset{}, k);
    }

    /** cleanUp: finished collectives are deleted at the next message. */
    method CleanUp()
      requires Valid()
      modifies this`toDelete
      ensures toDelete == [] && Valid()
    {
      toDelete := [];
      forall k ensures Accounted(k) {
        assert old(Accounted(k));
      }
    }

    /** finishCollective: a completed collective leaves the table, unless it is persistent. */
    method FinishCollective(coll: Collective)
      requires coll.key in collectives && collectives[coll.key] == coll
      requires coll.refcounts == map[coll.me := 1]
      modifies this`collectives, this`pendingMsgs, this`toDelete, this`gone, this`dropped, coll`refcounts
      ensures coll.refcounts == map[]
      ensures pendingMsgs == old(pendingMsgs) - {coll.key}
      ensures dropped == old(dropped)[coll.key := old(Dropped(coll.key)) + old(Pending(coll.key))]
      ensures if coll.persistent then
                collectives == old(collectives) && toDelete == old(toDelete) && gone == old(gone)
              else
                && collectives == old(collectives) - {coll.key} && toDelete == old(toDelete) + [coll]
                && gone == old(gone)[coll.key := coll]
    {
      var deliverCqMsg, deleteCollective := coll.ActorDone(coll.me);
      assert map[coll.me := 1] - {coll.me} == map[];
      if !deliverCqMsg {
        return;
      }
      if deleteCollective && !coll.persistent {
        collectives := collectives - {coll.key};
        toDelete := toDelete + [coll];
        gone := gone[coll.key := coll];
      }
      dropped := dropped[coll.key := Dropped(coll.key) + Pending(coll.key)];
      pendingMsgs := pendingMsgs - {coll.key};
    }

    /** `coll` is where a collective with its history belongs: in the table, or gone once complete. */
    ghost predicate Placed(coll: Collective)
      reads this, coll
    {
      && coll.Serving(coll.key, me, rule)
      && (coll.key in collectives <==> coll.persistent || !coll.complete)
      && (coll.key in collectives ==> collectives[coll.key] == coll)
      && (coll.key in gone <==> coll.key !in collectives)
      && (coll.key in gone ==> gone[coll.key] == coll)
    }

    /** Only the entries of `k` have changed. */
    twostate predicate Only(k: Key)
      reads this
    {
      && collectives - {k} == old(collectives) - {k}
      && gone - {k} == old(gone) - {k}
      && pendingMsgs - {k} == old(pendingMsgs) - {k}
      && dropped - {k} == old(dropped) - {k}
      && arrived - {k} == old(arrived) - {k}
    }

    /** `coll` has been added to the list exactly if it has left the table. */
    twostate predicate ListedIfLeft(new coll: Collective)
      reads this
    {
      toDelete == old(toDelete) + if coll.key in old(collectives) && coll.key !in collectives then [coll] else []
    }

    /**
     * Collective::recv and the notification it may cause; the done message, if
     * the actor is complete.  The collective may have finished before.
     */
    method Deliver(coll: Collective, msg: Work) returns (dmsg: Option<Key>)
      requires Placed(coll) && msg.DomTargetRank() == me && Pending(coll.key) == []
      modifies this`collectives, this`pendingMsgs, this`toDelete, this`gone, this`dropped, coll
      ensures Placed(coll) && Only(coll.key) && arrived == old(arrived)
      ensures coll.received == old(coll.received) + [msg]
      ensures Pending(coll.key) == [] && Dropped(coll.key) == old(Dropped(coll.key))
      ensures ListedIfLeft(coll) && (coll.key in collectives ==> coll.key in old(collectives))
      ensures dmsg == if Ripe(rule, coll.key, coll.received) then Some(coll.key) else None
    {
      RipeNext(rule, coll.key, coll.received, msg);
      var finished, done := coll.Recv(msg);
      if finished {
        FinishCollective(coll);
      }
      dmsg := if done then Some(coll.key) else None;
    }

    /** The rest of the engine's books after the entries of one key, and its collective, changed. */
    twostate lemma OthersKept(k: Key, new colls: set<Collective>)
      requires old(Valid())
      requires Only(k)
      requires Accounted(k)
      requires Listed()
      requires forall c | c in colls :: c.key == k
      requires unchanged(old(All()) - colls)
      ensures Valid()
      ensures forall j | j != k :: Delivered(j) == old(Delivered(j))
    {
      Untouched(k);
      forall j
        ensures Accounted(j)
        ensures j != k ==> Delivered(j) == old(Delivered(j))
      {
        assert old(Accounted(j));
        if j != k {
          assert j in collectives ==> collectives[j] in old(All());
          assert j in gone ==> gone[j] in old(All());
        }
      }
    }

    twostate lemma Untouched(k: Key)
      requires Only(k)
      ensures forall j :: j != k ==> (j in collectives <==> j in old(collectives))
      ensures forall j :: j != k && j in collectives ==> collectives[j] == old(collectives[j])
      ensures forall j :: j != k ==> (j in gone <==> j in old(gone))
      ensures forall j :: j != k && j in gone ==> gone[j] == old(gone[j])
      ensures forall j :: j != k ==> Pending(j) == old(Pending(j)) && Dropped(j) == old(Dropped(j))
      ensures forall j :: j != k ==> Arrived(j) == old(Arrived(j))
    {
      Entries(old(collectives), collectives, k);
      Entries(old(gone), gone, k);
      Entries(old(pendingMsgs), pendingMsgs, k);
      Entries(old(dropped), dropped, k);
      Entries(old(arrived), arrived, k);
    }

    /** The list after at most the collective of `k` has left the table. */
    twostate lemma ListedKept(k: Key, new left: seq<Collective>)
      requires old(Listed())
      requires Only(k)
      requires toDelete == old(toDelete) + left && |left| <= 1
      requires forall c | c in left :: c.key == k && k in gone && gone[k] == c && k !in old(gone)
      requires k in old(gone) ==> k in gone && gone[k] == old(gone[k])
      ensures Listed()
    {
      Untouched(k);
      forall c | c in toDelete ensures c.key in gone && gone[c.key] == c {
        if c !in left {
          assert c in old(toDelete);
        }
      }
      forall i, j | 0 <= i < j < |toDelete| ensures toDelete[i] != toDelete[j] {
        assert toDelete[i] == old(toDelete)[i];
        if j < |old(toDelete)| {
          assert toDelete[j] == old(toDelete)[j];
        } else {
          assert toDelete[j] == left[0] && toDelete[i] in old(toDelete);
        }
      }
    }

    twostate lemma SameCollectives(k: Key, new colls: set<Collective>)
      requires Only(k)
      requires k in collectives ==> collectives[k] in old(All()) + colls
      requires k in gone ==> gone[k] in old(All()) + colls
      ensures All() <= old(All()) + colls
    {
      Untouched(k);
      forall c | c in All() && c !in colls ensures c in old(All()) {
        if c in collectives.Values {
          var j :| j in collectives && collectives[j] == c;
          assert j != k ==> old(collectives[j]) == c;
        } else {
          var j :| j in gone && gone[j] == c;
          assert j != k ==> old(gone[j]) == c;
        }
      }
    }

    /** The books of a collective that is where it belongs. */
    lemma PlacedIsAccounted(coll: Collective)
      requires Placed(coll) && Pending(coll.key) == [] && Arrived(coll.key) == Dropped(coll.key) + coll.received
      requires Dropped(coll.key) != [] ==> rule(coll.key, [])
      ensures Accounted(coll.key) && Started(coll.key) && Delivered(coll.key) == coll.received
    {
    }

    lemma TableIsPlaced(k: Key)
      requires Valid() && k in collectives
      ensures Placed(collectives[k]) && collectives[k].key == k && collectives[k].me == me && Pending(k) == []
      ensures Arrived(k) == Dropped(k) + collectives[k].received && (Dropped(k) != [] ==> rule(k, []))
    {
      assert Accounted(k);
    }

    /** A message for a collective that is not in the table waits. */
    method Keep(msg: Work)
      requires Valid() && msg.key !in collectives && msg.DomTargetRank() == me
      modifies this`pendingMsgs, this`arrived
      ensures Valid() && Only(msg.key)
      ensures Arrived(msg.key) == old(Arrived(msg.key)) + [msg]
      ensures forall k :: Delivered(k) == old(Delivered(k))
    {
      var key := msg.key;
      assert Accounted(key);
      arrived := arrived[key := Arrived(key) + [msg]];
      var kept := if key in pendingMsgs then pendingMsgs[key] else [];
      pendingMsgs := pendingMsgs[key := kept + [msg]];
      OthersKept(key, {});
    }

    /** A message for a collective in the table. */
    method Hand(coll: Collective, msg: Work) returns (dmsg: Option<Key>)
      requires Valid() && msg.key in collectives && collectives[msg.key] == coll && msg.DomTargetRank() == me
      modifies this`collectives, this`pendingMsgs, this`toDelete, this`gone, this`dropped, this`arrived, coll
      ensures Valid() && Only(msg.key) && All() <= old(All()) && Started(msg.key)
      ensures Arrived(msg.key) == old(Arrived(msg.key)) + [msg]
      ensures Dropped(msg.key) == old(Dropped(msg.key))
      ensures Delivered(msg.key) == old(Delivered(msg.key)) + [msg]
      ensures forall k | k != msg.key :: Delivered(k) == old(Delivered(k))
      ensures toDelete == old(toDelete) + if msg.key in collectives then [] else [coll]
      ensures dmsg == if Ripe(rule, msg.key, Delivered(msg.key)) then Some(msg.key) else None
    {
      hide Accounted, Collective.Serving, Ripe, Listed;
      TableIsPlaced(msg.key);
      arrived := arrived[msg.key := Arrived(msg.key) + [msg]];
      dmsg := Deliver(coll, msg);
      PlacedIsAccounted(coll);
      ListedKept(msg.key, if msg.key in collectives then [] else [coll]);
      OthersKept(msg.key, {coll});
      SameCollectives(msg.key, {coll});
    }

    /**
     * incoming: a message for a collective in the table goes to its actor, any
     * other message is kept.  The done message is returned if the actor is
     * complete once it has taken the message.
     */
    method Incoming(msg: Work) returns (dmsg: Option<Key>)
      requires Valid() && msg.DomTargetRank() == me
      modifies this`collectives, this`pendingMsgs, this`toDelete, this`gone, this`dropped, this`arrived
      modifies collectives.Values
      ensures Valid() && Only(msg.key) && All() <= old(All())
      ensures Arrived(msg.key) == old(Arrived(msg.key)) + [msg]
      ensures Dropped(msg.key) == old(Dropped(msg.key))
      ensures Started(msg.key) <==> old(Started(msg.key))
      ensures Delivered(msg.key) == old(Delivered(msg.key)) + if msg.key in old(collectives) then [msg] else []
      ensures forall k | k != msg.key :: Delivered(k) == old(Delivered(k))
      ensures toDelete == if msg.key in old(collectives) && msg.key !in collectives then [old(collectives[msg.key])]
                          else []
      ensures dmsg == if msg.key in old(collectives) && Ripe(rule, msg.key, Delivered(msg.key)) then Some(msg.key)
                      else None
    {
      CleanUp();
      if msg.key !in collectives {
        Keep(msg);
        dmsg := None;
      } else {
        ghost var coll := collectives[msg.key];
        dmsg := Hand(collectives[msg.key], msg);
        assert [] + [coll] == [coll];
      }
    }

    /**
     * deliverPending: what was kept goes to the actor, in order of arrival.
     * The actor may complete at any of these messages, and the result of the
     * last one is returned; it is a done message if and only if the actor is
     * complete and there was a message at all.
     */
    method DeliverPending(coll: Collective) returns (dmsg: Option<Key>)
      requires Placed(coll) && forall m | m in Pending(coll.key) :: m.DomTargetRank() == me
      modifies this`collectives, this`pendingMsgs, this`toDelete, this`gone, this`dropped, coll
      ensures Placed(coll) && Only(coll.key) && arrived == old(arrived)
      ensures coll.received == old(coll.received) + old(Pending(coll.key))
      ensures Pending(coll.key) == [] && Dropped(coll.key) == old(Dropped(coll.key))
      ensures ListedIfLeft(coll) && (coll.key in collectives ==> coll.key in old(collectives))
      ensures dmsg == if old(Pending(coll.key)) != [] && Ripe(rule, coll.key, coll.received) then Some(coll.key)
                      else None
    {
      var pending := if coll.key in pendingMsgs then pendingMsgs[coll.key] else [];
      pendingMsgs := pendingMsgs - {coll.key};
      dmsg := None;
      for i := 0 to |pending|
        invariant Placed(coll) && Only(coll.key) && arrived == old(arrived)
        invariant coll.received == old(coll.received) + pending[..i]
        invariant Pending(coll.key) == [] && Dropped(coll.key) == old(Dropped(coll.key))
        invariant ListedIfLeft(coll) && (coll.key in collectives ==> coll.key in old(collectives))
        invariant dmsg == if i > 0 && Ripe(rule, coll.key, coll.received) then Some(coll.key) else None
      {
        assert pending[..i + 1] == pending[..i] + [pending[i]];
        dmsg := Deliver(coll, pending[i]);
      }
      assert pending[..|pending|] == pending;
    }

    lemma NotStarted(k: Key)
      requires Valid() && !Started(k)
      ensures Dropped(k) == [] && Arrived(k) == Pending(k) && forall m | m in Pending(k) :: m.DomTargetRank() == me
    {
      assert Accounted(k);
    }

    /** The table entry and the actor's start, with the notification this may cause. */
    method Enter(coll: Collective)
      requires coll.New() && coll.me == me && coll.rule == rule && !Started(coll.key)
      modifies this`collectives, this`pendingMsgs, this`toDelete, this`gone, this`dropped, coll
      ensures Placed(coll) && Only(coll.key) && arrived == old(arrived) && coll.received == []
      ensures if rule(coll.key, []) then
                Pending(coll.key) == [] && Dropped(coll.key) == old(Dropped(coll.key)) + old(Pending(coll.key))
              else
                Pending(coll.key) == old(Pending(coll.key)) && Dropped(coll.key) == old(Dropped(coll.key))
      ensures toDelete == old(toDelete) + if coll.key in collectives then [] else [coll]
    {
      hide Ripe;
      RipeAtStart(rule, coll.key);
      coll.InitActors();
      collectives := collectives[coll.key := coll];
      assert coll.actors == {me} && coll.refcounts == map[me := 1];
      var finished := coll.Start();
      label L:
      if finished {
        FinishCollective(coll);
      }
      Without(old(collectives), coll.key, coll);
      Without(old@L(gone), coll.key, coll);
      Without(old@L(dropped), coll.key, Dropped(coll.key));
    }

    /**
     * startCollective: the collective is entered in the table, started, and
     * given what arrived early.  If the actor completes in its start, what was
     * kept is dropped and no done message is returned.
     */
    method StartCollective(coll: Collective) returns (dmsg: Option<Key>)
      requires Valid() && coll.New() && coll.me == me && coll.rule == rule && !Started(coll.key)
      modifies this`collectives, this`pendingMsgs, this`toDelete, this`gone, this`dropped, coll
      ensures Valid() && Only(coll.key) && All() <= old(All()) + {coll}
      ensures arrived == old(arrived) && Placed(coll) && Started(coll.key) && Pending(coll.key) == []
      ensures if rule(coll.key, []) then
                Delivered(coll.key) == [] && Dropped(coll.key) == Arrived(coll.key)
              else
                Delivered(coll.key) == Arrived(coll.key) && Dropped(coll.key) == []
      ensures forall k | k != coll.key :: Delivered(k) == old(Delivered(k))
      ensures toDelete == old(toDelete) + if coll.key in collectives then [] else [coll]
      ensures dmsg == if !rule(coll.key, []) && Ripe(rule, coll.key, Arrived(coll.key)) then Some(coll.key) else None
    {
      hide Accounted, Collective.Serving, Listed;
      NotStarted(coll.key);
      Enter(coll);
      dmsg := DeliverPending(coll);
      PlacedIsAccounted(coll);
      ListedKept(coll.key, if coll.key in collectives then [] else [coll]);
      OthersKept(coll.key, {coll});
      SameCollectives(coll.key, {coll});
    }

    // -------------------------------------------------------------- whole runs

    /** No collective of this engine is persistent. */
    ghost predicate Passing()
      reads this
    {
      forall c | c in All() :: !c.persistent
    }

    /** A collective is in the table exactly as long as its actor is not complete. */
    lemma Settled(k: Key)
      requires Valid() && Passing()
      ensures k in collectives ==> Delivered(k) == Arrived(k) && !Ripe(rule, k, Arrived(k)) && !rule(k, [])
      ensures k in gone && !rule(k, []) ==> Ripe(rule, k, Arrived(k))
      ensures k in gone && !rule(k, []) ==> Delivered(k) <= Arrived(k) && Ripe(rule, k, Delivered(k))
    {
      assert Accounted(k);
      if k in collectives {
        assert collectives[k] in All();
        RipeStays(rule, k, [], Delivered(k));
        assert [] + Delivered(k) == Delivered(k);
      } else if k in gone && !rule(k, []) {
        RipeStays(rule, k, Delivered(k), Pending(k));
        assert Arrived(k) == Delivered(k) + Pending(k);
      }
    }

    /** What has happened so far, and the done messages returned for it. */
    ghost predicate Books(es: seq<Event>, dones: multiset<Key>)
      reads this
    {
      forall k :: Book(es, dones, k)
    }

    ghost predicate Book(es: seq<Event>, dones: multiset<Key>, k: Key)
      reads this
    {
      && Arrived(k) == ArrivedOf(es, k)
      && (Started(k) <==> EStart(k) in es)
      && dones[k] == Dones(rule, es, k)
    }

    /** An event of one key changes no other key's book. */
    twostate lemma BooksKept(new es: seq<Event>, new e: Event, new k: Key,
                             new dones: multiset<Key>, new after: multiset<Key>)
      requires old(Books(es, dones))
      requires Only(k)
      requires Book(es + [e], after, k)
      requires if e.EStart? then e.key == k else e.msg.key == k
      requires forall j | j != k :: after[j] == dones[j]
      ensures Books(es + [e], after)
    {
      hide Ripe;
      Untouched(k);
      Grown(es, e);
      forall j ensures Book(es + [e], after, j) {
        assert old(Book(es, dones, j));
        assert j != k ==> ArrivedOf(es + [e], j) == ArrivedOf(es, j);
        assert j != k ==> (Started(j) <==> old(Started(j))) && Arrived(j) == old(Arrived(j));
        assert j != k ==> (EStart(j) in es + [e] <==> EStart(j) in es);
      }
    }

    method Arrive(msg: Work, ghost es: seq<Event>, dones: multiset<Key>) returns (after: multiset<Key>)
      requires Valid() && Passing() && Books(es, dones) && msg.DomTargetRank() == me
      modifies this`collectives, this`pendingMsgs, this`toDelete, this`gone, this`dropped, this`arrived
      modifies collectives.Values
      ensures Valid() && Passing() && All() <= old(All()) && Books(es + [EArrive(msg)], after)
    {
      hide Accounted, Ripe;
      Settled(msg.key);
      RipeStays(rule, msg.key, Arrived(msg.key), [msg]);
      assert Book(es, dones, msg.key);
      var dmsg := Incoming(msg);
      after := if dmsg.Some? then dones + multiset{dmsg.value} else dones;
      Grown(es, EArrive(msg));
      BooksKept(es, EArrive(msg), msg.key, dones, after);
    }

    method Begin(coll: Collective, ghost es: seq<Event>, dones: multiset<Key>) returns (after: multiset<Key>)
      requires Valid() && Passing() && Books(es, dones) && EStart(coll.key) !in es
      requires coll.New() && coll.me == me && coll.rule == rule && !coll.persistent
      modifies this`collectives, this`pendingMsgs, this`toDelete, this`gone, this`dropped, coll
      ensures Valid() && Passing() && All() <= old(All()) + {coll} && Books(es + [EStart(coll.key)], after)
    {
      hide Accounted, Ripe, Placed;
      ghost var k := coll.key;
      assert Book(es, dones, k);
      var dmsg := StartCollective(coll);
      after := if dmsg.Some? then dones + multiset{dmsg.value} else dones;
      Grown(es, EStart(k));
      assert Arrived(k) == ArrivedOf(es + [EStart(k)], k);
      assert after[k] == Dones(rule, es + [EStart(k)], k);
      BooksKept(es, EStart(k), k, dones, after);
    }

    lemma Reported(es: seq<Event>, dones: multiset<Key>, k: Key)
      requires Valid() && Passing() && Books(es, dones)
      ensures dones[k] == Dones(rule, es, k)
      ensures EStart(k) in es && !rule(k, []) ==>
                && Delivered(k) <= ArrivedOf(es, k)
                && (Delivered(k) == ArrivedOf(es, k) || Ripe(rule, k, Delivered(k)))
    {
      hide Accounted, Ripe;
      Settled(k);
      assert Book(es, dones, k);
    }
  }

  /** Acknowledgements and payloads come to the right rank, and a tag is started once. */
  predicate Lawful(me: nat, es: seq<Event>) {
    && (forall e | e in es :: e.EArrive? ==> e.msg.DomTargetRank() == me)
    && (forall i, j | 0 <= i < j < |es| :: es[i].EStart? ==> es[i] != es[j])
  }

  /**
   * The engine of rank `me` over a whole run.  Whatever the interleaving of
   * starts and arrivals, and at whichever message the actors complete, the
   * calls return exactly one done message for each collective that has been
   * started and whose messages complete its actor, and none for any other; and
   * until then the actor has been handed every message, in order of arrival.
   * A collective whose actor completes in its start yields none.
   */
  method Serve(me: nat, rule: Rule, es: seq<Event>) returns (dones: multiset<Key>, ghost handed: map<Key, seq<Work>>)
    requires Lawful(me, es)
    ensures forall k :: dones[k] == Dones(rule, es, k)
    ensures forall k :: EStart(k) in es && !rule(k, []) ==>
              && k in handed && handed[k] <= ArrivedOf(es, k)
              && (handed[k] == ArrivedOf(es, k) || Ripe(rule, k, handed[k]))
  {
    hide CollectiveEngine.Valid, CollectiveEngine.Accounted, CollectiveEngine.Book;
    var engine := new CollectiveEngine(me, rule);
    dones := multiset{};
    for i := 0 to |es|
      invariant fresh(engine) && fresh(engine.All()) && engine.me == me && engine.rule == rule
      invariant engine.Valid() && engine.Passing() && engine.Books(es[..i], dones)
    {
      assert es[..i + 1] == es[..i] + [es[i]];
      match es[i] {
        case EStart(key) =>
          var coll := new Collective(key, me, false, rule);
          dones := engine.Begin(coll, es[..i], dones);
        case EArrive(msg) =>
          dones := engine.Arrive(msg, es[..i], dones);
      }
    }
    assert es[..|es|] == es;
    handed := map k | k in (set e | e in es && e.EStart? :: e.key) :: engine.Delivered(k);
    forall k
      ensures dones[k] == Dones(rule, es, k)
      ensures EStart(k) in es && !rule(k, []) ==>
                && k in handed && handed[k] <= ArrivedOf(es, k)
                && (handed[k] == ArrivedOf(es, k) || Ripe(rule, k, handed[k]))
    {
      engine.Reported(es, dones, k);
    }
  }
}
