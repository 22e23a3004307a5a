/**
 Every interleaving of the delivery protocol: broadcasts, the sends they schedule, acknowledgements,
 retry and batch passes, connects and disconnects, in any order.

 `World` holds the server, what is under way on the wire and the history of every message. The main
 results are that an accepted wake or error is in exactly one place at all times (`ExactlyOnePlace`),
 that an acknowledgement removes only what a client has received (`AckedWasReceived`), that a
 retry-class message is scheduled for sending at most four times with growing gaps
 (`RetryTransmissions`), and that best-effort messages are scheduled once, in order, in batches of at
 most ten (`BestEffortInOrder`). A scheduled send runs some time later, in any order; how often sends
 run, and what becomes of queued messages, is the subject of `DeliveryHistory`.
 */
module DeliveryRuns {
  import opened Common
  import opened Delivery

  datatype World = World(
    srv: Server,
    clock: real,
    outbox: multiset<Outgoing>,    // scheduled sends that have not run
    wire: seq<Outgoing>,           // scheduled sends that have run, in that order
    received: set<Message>,        // reliable messages some client has received
    acks: set<string>,             // correlation ids some client has acknowledged
    accepted: seq<Message>,        // reliable messages given to `broadcast`, in order
    acked: seq<Message>,           // removed from the table by an acknowledgement
    handed: seq<Message>,          // sent once by an offline flush and forgotten
    dropped: seq<Message>,         // given up by the retry loop
    sent: map<string, seq<real>>,  // times at which each reliable message was scheduled or handed over
    bestEffort: seq<Message>,      // best-effort messages given to `broadcast`
    emitted: seq<seq<Message>>,    // batches scheduled, in that order
    shown: seq<Message>)           // messages the clients have emitted to their users, those of one send once

  datatype Event =
    | Publish(m: Message, now: real)
    | Transmit(o: Outgoing, reached: set<nat>)
    | AckArrives(id: string)
    | RetryPasses(now: real)
    | BatchPasses
    | Connects(client: nat, closed: set<nat>, now: real)
    | Disconnects(client: nat)

  const Start := World(Server({}, [], [], []), 0.0, multiset{}, [], {}, {}, [], [], [], [], map[], [], [], [])

  /** Which events can happen. Correlation ids of reliable messages are fresh, time does not go back. */
  ghost predicate Enabled(w: World, ev: Event) {
    match ev
    case Publish(m, now) => now >= w.clock && (Reliable(m) ==> FreshId(w, m.corrId))
    case Transmit(o, reached) => o in w.outbox && reached <= w.srv.clients
    case AckArrives(id) => id in w.acks
    case RetryPasses(now) => now >= w.clock
    case BatchPasses => true
    case Connects(client, closed, now) => now >= w.clock && client !in closed
    case Disconnects(_) => true
  }

  ghost predicate FreshId(w: World, id: string) {
    forall m :: m in w.accepted ==> m.corrId != id
  }

  /** The messages an acknowledgement takes out of the table. */
  function Removed(ps: seq<Pending>, id: string): seq<Message> {
    if ps == [] then []
    else (if ps[0].msg.corrId == id then [ps[0].msg] else []) + Removed(ps[1..], id)
  }

  function Stamp(sent: map<string, seq<real>>, ms: seq<Message>, now: real): map<string, seq<real>> {
    map id | id in sent :: if id in Ids(ms) then sent[id] + [now] else sent[id]
  }

  function BatchesOf(os: seq<Outgoing>): seq<seq<Message>> {
    if os == [] then [] else (if os[0].Batch? then [os[0].events] else []) + BatchesOf(os[1..])
  }

  function Step(w: World, ev: Event): World {
    match ev
    case Publish(m, now) =>
      var (srv, out) := Broadcast(w.srv, m, now);
      var w1 := w.(srv := srv, clock := now, outbox := w.outbox + multiset(out), emitted := w.emitted + BatchesOf(out));
      if Reliable(m) then
        w1.(accepted := w.accepted + [m], sent := w.sent[m.corrId := if out == [] then [] else [now]])
      else if Classify(m.kind).BestEffort? then w1.(bestEffort := w.bestEffort + [m])
      else w1
    case Transmit(o, reached) =>
      var w1 := w.(srv := w.srv.(clients := reached), outbox := w.outbox - multiset{o}, wire := w.wire + [o]);
      if reached == {} then w1 else Receive(w1.(shown := w.shown + ClientEvents(o)), o)
    case AckArrives(id) =>
      w.(srv := Ack(w.srv, id), acked := w.acked + Removed(w.srv.pending, id))
    case RetryPasses(now) =>
      var (srv, out) := RetryTick(w.srv, now);
      w.(srv := srv, clock := now, outbox := w.outbox + multiset(out),
         dropped := w.dropped + Expired(w.srv.pending, now),
         sent := if w.srv.clients == {} then w.sent else Stamp(w.sent, Resends(w.srv.pending, now), now))
    case BatchPasses =>
      var (srv, out) := BatchTick(w.srv);
      w.(srv := srv, outbox := w.outbox + multiset(out), emitted := w.emitted + BatchesOf(out))
    case Connects(client, closed, now) =>
      var (srv, out) := Connect(w.srv, client);
      // One-step flush: every queued message reaches at least the client that just connected.
      w.(srv := if w.srv.offline == [] then srv else srv.(clients := srv.clients - closed), clock := now,
         received := w.received + (set m | m in w.srv.offline),
         acks := w.acks + (set m | m in w.srv.offline && m.corrId != "" :: m.corrId),
         handed := w.handed + w.srv.offline, shown := w.shown + w.srv.offline,
         sent := Stamp(w.sent, w.srv.offline, now))
    case Disconnects(client) => w.(srv := Disconnect(w.srv, client))
  }

  /** A client handles what reached it, and acknowledges it when `ClientAck` says so. */
  function Receive(w: World, o: Outgoing): World {
    var got := if o.Single? && Reliable(o.msg) then {o.msg} else {};
    match ClientAck(o)
    case Some(id) => w.(received := w.received + got, acks := w.acks + {id})
    case None => w.(received := w.received + got)
  }

  ghost predicate ValidRun(w: World, evs: seq<Event>)
    decreases |evs|
  {
    evs == [] || (Enabled(w, evs[0]) && ValidRun(Step(w, evs[0]), evs[1..]))
  }

  function Run(w: World, evs: seq<Event>): World
    decreases |evs|
  {
    if evs == [] then w else Run(Step(w, evs[0]), evs[1..])
  }

  // ----- the invariant -----

  /** How often a message occurs in a list, and in the pending-ack table. */
  function Count(ms: seq<Message>, m: Message): nat {
    if ms == [] then 0 else (if ms[0] == m then 1 else 0) + Count(ms[1..], m)
  }

  function CountPending(ps: seq<Pending>, m: Message): nat {
    if ps == [] then 0 else (if ps[0].msg == m then 1 else 0) + CountPending(ps[1..], m)
  }

  /** In how many of the places a message can be in it is, occurrences counted. */
  ghost function Places(w: World, m: Message): nat {
    CountPending(w.srv.pending, m) + Count(w.srv.offline, m) +
    Count(w.acked, m) + Count(w.handed, m) + Count(w.dropped, m)
  }

  ghost predicate Conserved(w: World) {
    forall m :: Places(w, m) == Count(w.accepted, m)
  }

  ghost predicate DistinctIds(ms: seq<Message>) {
    forall i, j :: 0 <= i < j < |ms| ==> ms[i].corrId != ms[j].corrId
  }

  ghost predicate WellFormed(w: World) {
    && UniqueKeys(w.srv.pending)
    && DistinctIds(w.accepted)
    && (forall m :: m in w.accepted ==> Reliable(m))
    && (forall e :: e in w.srv.pending ==> e.cls == Classify(e.msg.kind))
  }

  ghost predicate WireSound(w: World) {
    && (forall o :: o in w.outbox && o.Single? && Reliable(o.msg) ==> o.msg in w.accepted)
    && (forall m :: m in w.received ==> m in w.accepted)
    && (forall id :: id in w.acks ==> exists m :: m in w.received && m.corrId == id)
    && (forall m :: m in w.acked || m in w.handed ==> m in w.received)
    && (forall m :: m in w.dropped ==> Classify(m.kind).Retry?)
  }

  /** Least time between scheduling transmission `j` of a message and the next one. */
  function Gap(cls: Reliability, j: nat): real {
    if cls.Retry? then (if j == 0 then 0.1 else Backoff(j)) else GUARANTEED_INTERVAL
  }

  ghost predicate Spaced(cls: Reliability, ts: seq<real>) {
    forall j :: 0 <= j < |ts| - 1 ==> ts[j + 1] - ts[j] >= Gap(cls, j)
  }

  /** The next transmission may not be scheduled before this time. */
  ghost function NextSlot(cls: Reliability, ts: seq<real>): real
    requires ts != []
  {
    ts[|ts| - 1] + Gap(cls, |ts| - 1)
  }

  ghost predicate TimedMessage(w: World, m: Message) {
    && m.corrId in w.sent
    && Spaced(Classify(m.kind), w.sent[m.corrId])
    && (Classify(m.kind).Retry? ==> |w.sent[m.corrId]| <= 4)
  }

  ghost predicate TimedEntry(w: World, e: Pending) {
    && e.msg.corrId in w.sent
    && var ts := w.sent[e.msg.corrId];
    && ts != []
    && e.nextRetry == NextSlot(e.cls, ts)
    && (e.cls.Retry? ==> |ts| == e.retries + 1 && e.retries <= MAX_RETRIES)
  }

  ghost predicate TimedQueued(w: World, m: Message) {
    && m.corrId in w.sent
    && var ts := w.sent[m.corrId];
    && (ts != [] ==> w.clock >= NextSlot(Classify(m.kind), ts))
    && (Classify(m.kind).Retry? ==> |ts| <= MAX_RETRIES)
  }

  ghost predicate Timed(w: World) {
    && (forall m :: m in w.accepted ==> TimedMessage(w, m))
    && (forall e :: e in w.srv.pending ==> TimedEntry(w, e))
    && (forall m :: m in w.srv.offline ==> TimedQueued(w, m))
  }

  function Concat(bs: seq<seq<Message>>): seq<Message> {
    if bs == [] then [] else Concat(bs[..|bs| - 1]) + bs[|bs| - 1]
  }

  ghost predicate Batched(w: World) {
    && Concat(w.emitted) + w.srv.batch == w.bestEffort
    && |w.srv.batch| < BATCH_LIMIT
    && forall b :: b in w.emitted ==> 1 <= |b| <= BATCH_LIMIT
  }

  ghost predicate Inv(w: World) {
    WellFormed(w) && Conserved(w) && WireSound(w) && Timed(w) && Batched(w)
  }

  // ----- conservation -----

  lemma {:induction false} CountAppend(a: seq<Message>, b: seq<Message>, m: Message)
    ensures Count(a + b, m) == Count(a, m) + Count(b, m)
  {
    if a == [] {
      assert a + b == b;
    } else {
      assert (a + b)[1..] == a[1..] + b;
      CountAppend(a[1..], b, m);
    }
  }

  lemma {:induction false} CountMember(ms: seq<Message>, m: Message)
    ensures Count(ms, m) > 0 <==> m in ms
    ensures DistinctIds(ms) ==> Count(ms, m) <= 1
  {
    if ms == [] {
    } else {
      CountMember(ms[1..], m);
    }
  }

  lemma CountCons(e: Pending, rest: seq<Pending>, m: Message)
    ensures CountPending([e] + rest, m) == (if e.msg == m then 1 else 0) + CountPending(rest, m)
  {
  }

  lemma {:induction false} CountEntry(ps: seq<Pending>, m: Message)
    ensures CountPending(ps, m) > 0 <==> exists e :: e in ps && e.msg == m
  {
    if ps == [] {
    } else {
      CountEntry(ps[1..], m);
      assert forall e :: e in ps <==> e == ps[0] || e in ps[1..];
    }
  }

  lemma {:induction false} RemovedConserves(ps: seq<Pending>, id: string, m: Message)
    ensures CountPending(ps, m) == CountPending(Remove(ps, id), m) + Count(Removed(ps, id), m)
  {
    if ps == [] {
    } else {
      RemovedConserves(ps[1..], id, m);
      CountCons(ps[0], Remove(ps[1..], id), m);
      assert [] + Removed(ps[1..], id) == Removed(ps[1..], id);
      assert ([ps[0].msg] + Removed(ps[1..], id))[1..] == Removed(ps[1..], id);
    }
  }

  lemma AgedMessage(e: Pending, now: real)
    ensures Aged(e, now).msg == e.msg && Aged(e, now).cls == e.cls
  {
  }

  lemma {:induction false} SurvivorsConserve(ps: seq<Pending>, now: real, m: Message)
    ensures CountPending(ps, m) == CountPending(Survivors(ps, now), m) + Count(Expired(ps, now), m)
  {
    if ps == [] {
    } else {
      SurvivorsConserve(ps[1..], now, m);
      AgedMessage(ps[0], now);
      CountCons(Aged(ps[0], now), Survivors(ps[1..], now), m);
      assert [] + Expired(ps[1..], now) == Expired(ps[1..], now);
      assert [] + Survivors(ps[1..], now) == Survivors(ps[1..], now);
      assert ([ps[0].msg] + Expired(ps[1..], now))[1..] == Expired(ps[1..], now);
    }
  }

  lemma {:induction false} WaitingConserves(ps: seq<Pending>, now: real, m: Message)
    ensures CountPending(ps, m)
         == CountPending(Waiting(ps, now), m) + Count(Resends(ps, now), m) + Count(Expired(ps, now), m)
  {
    if ps == [] {
    } else {
      var e, rest := ps[0], ps[1..];
      WaitingConserves(rest, now, m);
      CountCons(e, Waiting(rest, now), m);
      CountAppend([e.msg], Expired(rest, now), m);
      CountAppend([e.msg], Resends(rest, now), m);
      assert [] + Expired(rest, now) == Expired(rest, now) && [] + Resends(rest, now) == Resends(rest, now);
      assert [] + Waiting(rest, now) == Waiting(rest, now);
      if !Due(e, now) {
        assert Waiting(ps, now) == [e] + Waiting(rest, now);
      } else if Expires(e, now) {
        assert Expired(ps, now) == [e.msg] + Expired(rest, now);
      } else {
        assert Resends(ps, now) == [e.msg] + Resends(rest, now);
      }
    }
  }

  lemma {:induction false} PutConserves(ps: seq<Pending>, e: Pending, m: Message)
    requires forall x :: x in ps ==> x.msg.corrId != e.msg.corrId
    ensures CountPending(Put(ps, e), m) == CountPending(ps, m) + if m == e.msg then 1 else 0
  {
    if ps == [] {
    } else {
      PutConserves(ps[1..], e, m);
      CountCons(ps[0], Put(ps[1..], e), m);
    }
  }

  /** Overwriting: the message that waited under the key is gone, the new one takes its place. */
  lemma {:induction false} PutOverwrites(ps: seq<Pending>, e: Pending) returns (old': Message)
    requires e.msg.corrId in Keys(ps)
    ensures old'.corrId == e.msg.corrId
    ensures forall m ::
      CountPending(Put(ps, e), m) + (if m == old' then 1 else 0)
      == CountPending(ps, m) + (if m == e.msg then 1 else 0)
  {
    if ps[0].msg.corrId == e.msg.corrId {
      old' := ps[0].msg;
      forall m { CountCons(e, ps[1..], m); }
    } else {
      var k :| 0 <= k < |ps| && Keys(ps)[k] == e.msg.corrId;
      assert Keys(ps[1..])[k - 1] == e.msg.corrId;
      old' := PutOverwrites(ps[1..], e);
      forall m { CountCons(ps[0], Put(ps[1..], e), m); }
    }
  }

  lemma KeyHasEntry(ps: seq<Pending>, id: string)
    ensures id in Keys(ps) <==> exists e :: e in ps && e.msg.corrId == id
  {
  }

  lemma PlacedIsAccepted(w: World, m: Message)
    requires Conserved(w)
    ensures (exists e :: e in w.srv.pending && e.msg == m)
         || m in w.srv.offline || m in w.acked || m in w.handed || m in w.dropped
       <==> m in w.accepted
  {
    CountEntry(w.srv.pending, m);
    CountMember(w.srv.offline, m);
    CountMember(w.acked, m);
    CountMember(w.handed, m);
    CountMember(w.dropped, m);
    CountMember(w.accepted, m);
    assert Places(w, m) == Count(w.accepted, m);
  }

  /** The table entry that publishing a reliable message to connected clients creates. */
  function NewEntry(m: Message, now: real): Pending {
    Pending(m, Classify(m.kind), 0, now + if Classify(m.kind).Guaranteed? then GUARANTEED_INTERVAL else 0.1)
  }

  /**
   Publishing keeps every message accounted for, except that a reliable message sent to connected
   clients under a correlation id that is still pending overwrites the message waiting there.
   */
  lemma PublishConserves(w: World, m: Message, now: real)
    requires Conserved(w)
    ensures Conserved(Step(w, Publish(m, now)))
       <==> !(Reliable(m) && w.srv.clients != {} && m.corrId in Keys(w.srv.pending))
  {
    var w' := Step(w, Publish(m, now));
    var ps := w.srv.pending;
    if !Reliable(m) {
      assert forall x :: Places(w', x) == Places(w, x);
    } else if w.srv.clients == {} {
      forall x ensures Places(w', x) == Count(w'.accepted, x) {
        CountAppend(w.srv.offline, [m], x);
        CountAppend(w.accepted, [m], x);
      }
    } else {
      var e := NewEntry(m, now);
      assert w'.srv.pending == Put(ps, e);
      KeyHasEntry(ps, m.corrId);
      if m.corrId in Keys(ps) {
        var lost := PutOverwrites(ps, e);
        CountAppend(w.accepted, [m], lost);
        assert Places(w', lost) < Count(w'.accepted, lost);
      } else {
        forall x ensures Places(w', x) == Count(w'.accepted, x) {
          PutConserves(ps, e, x);
          CountAppend(w.accepted, [m], x);
        }
      }
    }
  }

  lemma AckConserves(w: World, id: string)
    requires Conserved(w)
    ensures Conserved(Step(w, AckArrives(id)))
  {
    var w' := Step(w, AckArrives(id));
    forall x ensures Places(w', x) == Count(w'.accepted, x) {
      RemovedConserves(w.srv.pending, id, x);
      CountAppend(w.acked, Removed(w.srv.pending, id), x);
    }
  }

  lemma RetryConserves(w: World, now: real)
    requires Conserved(w)
    ensures Conserved(Step(w, RetryPasses(now)))
  {
    var w' := Step(w, RetryPasses(now));
    var ps := w.srv.pending;
    forall x ensures Places(w', x) == Count(w'.accepted, x) {
      CountAppend(w.dropped, Expired(ps, now), x);
      if w.srv.clients == {} {
        WaitingConserves(ps, now, x);
        CountAppend(w.srv.offline, Resends(ps, now), x);
      } else {
        SurvivorsConserve(ps, now, x);
      }
    }
  }

  lemma ConnectConserves(w: World, client: nat, closed: set<nat>, now: real)
    requires Conserved(w)
    ensures Conserved(Step(w, Connects(client, closed, now)))
  {
    var w' := Step(w, Connects(client, closed, now));
    forall x ensures Places(w', x) == Count(w'.accepted, x) {
      CountAppend(w.handed, w.srv.offline, x);
    }
  }

  lemma StepConserves(w: World, ev: Event)
    requires Conserved(w) && Enabled(w, ev)
    ensures Conserved(Step(w, ev))
  {
    match ev
    case Publish(m, now) =>
      PublishConserves(w, m, now);
      KeyHasEntry(w.srv.pending, m.corrId);
      forall e | e in w.srv.pending ensures e.msg in w.accepted { PlacedIsAccepted(w, e.msg); }
    case AckArrives(id) => AckConserves(w, id);
    case RetryPasses(now) => RetryConserves(w, now);
    case Connects(client, closed, now) => ConnectConserves(w, client, closed, now);
    case _ =>
      var w' := Step(w, ev);
      assert forall x :: Places(w', x) == Places(w, x);
  }

  // ----- identity: one message per correlation id, one place per message -----

  lemma SameId(w: World, a: Message, b: Message)
    requires DistinctIds(w.accepted) && a in w.accepted && b in w.accepted && a.corrId == b.corrId
    ensures a == b
  {
  }

  lemma NotBoth(w: World, e: Pending, m: Message)
    requires WellFormed(w) && Conserved(w) && e in w.srv.pending && m in w.srv.offline
    ensures e.msg.corrId != m.corrId
  {
    PlacedIsAccepted(w, e.msg);
    PlacedIsAccepted(w, m);
    if e.msg.corrId == m.corrId {
      SameId(w, e.msg, m);
      CountEntry(w.srv.pending, m);
      CountMember(w.srv.offline, m);
      CountMember(w.accepted, m);
      assert false;
    }
  }

  lemma IdMember(ms: seq<Message>, id: string)
    ensures id in Ids(ms) <==> exists m :: m in ms && m.corrId == id
  {
  }

  lemma {:induction false} RemovedElements(ps: seq<Pending>, id: string)
    ensures forall m :: m in Removed(ps, id) ==> m.corrId == id && exists e :: e in ps && e.msg == m
  {
    if ps == [] {
    } else {
      RemovedElements(ps[1..], id);
      assert forall e :: e in ps <==> e == ps[0] || e in ps[1..];
    }
  }

  lemma StepWellFormed(w: World, ev: Event)
    requires WellFormed(w) && Conserved(w) && Enabled(w, ev)
    ensures WellFormed(Step(w, ev))
  {
    var ps := w.srv.pending;
    match ev
    case Publish(m, now) =>
      if Reliable(m) {
        PutMembers(ps, NewEntry(m, now));
        PutUnique(ps, NewEntry(m, now));
      }
    case AckArrives(id) => RemoveElements(ps, id);
    case RetryPasses(now) =>
      SurvivorsValid(ps, now);
      PassElements(ps, now);
      forall e ensures Aged(e, now).msg == e.msg && Aged(e, now).cls == e.cls { AgedMessage(e, now); }
    case _ =>
  }

  // ----- soundness of acknowledgements -----

  lemma ReceiveSound(w: World, o: Outgoing)
    requires WireSound(w) && (o.Single? && Reliable(o.msg) ==> o.msg in w.accepted)
    ensures WireSound(Receive(w, o))
  {
  }

  lemma AckSound(w: World, id: string)
    requires WellFormed(w) && Conserved(w) && WireSound(w) && id in w.acks
    ensures WireSound(Step(w, AckArrives(id)))
  {
    RemovedElements(w.srv.pending, id);
    forall m | m in Removed(w.srv.pending, id) ensures m in w.received {
      PlacedIsAccepted(w, m);
      var r :| r in w.received && r.corrId == id;
      SameId(w, m, r);
    }
  }

  lemma ConnectSound(w: World, client: nat, closed: set<nat>, now: real)
    requires Conserved(w) && WireSound(w)
    ensures WireSound(Step(w, Connects(client, closed, now)))
  {
    var w' := Step(w, Connects(client, closed, now));
    forall m | m in w.srv.offline ensures m in w.accepted { PlacedIsAccepted(w, m); }
    forall id | id in w'.acks ensures exists m :: m in w'.received && m.corrId == id {
      if id in w.acks {
        var m :| m in w.received && m.corrId == id;
        assert m in w'.received;
      } else {
        var m :| m in w.srv.offline && m.corrId == id;
        assert m in w'.received;
      }
    }
  }

  lemma RetrySound(w: World, now: real)
    requires WellFormed(w) && Conserved(w) && WireSound(w)
    ensures WireSound(Step(w, RetryPasses(now)))
  {
    PassElements(w.srv.pending, now);
    forall e | e in w.srv.pending ensures e.msg in w.accepted { PlacedIsAccepted(w, e.msg); }
    var w' := Step(w, RetryPasses(now));
    forall o | o in w'.outbox && o.Single? && Reliable(o.msg) ensures o.msg in w'.accepted {
      if o !in w.outbox {
        assert o in Singles(Resends(w.srv.pending, now));
        assert o.msg in Resends(w.srv.pending, now);
      }
    }
  }

  lemma StepWireSound(w: World, ev: Event)
    requires WellFormed(w) && Conserved(w) && WireSound(w) && Enabled(w, ev)
    ensures WireSound(Step(w, ev))
  {
    match ev
    case Publish(m, now) => PublishSound(w, m, now);
    case Transmit(o, reached) =>
      var w1 := w.(srv := w.srv.(clients := reached), outbox := w.outbox - multiset{o}, wire := w.wire + [o]);
      ReceiveSound(w1, o);
    case AckArrives(id) => AckSound(w, id);
    case RetryPasses(now) => RetrySound(w, now);
    case Connects(client, closed, now) => ConnectSound(w, client, closed, now);
    case _ =>
  }

  lemma PublishSound(w: World, m: Message, now: real)
    requires WireSound(w)
    ensures WireSound(Step(w, Publish(m, now)))
  {
  }

  // ----- timing -----

  lemma PublishTimed(w: World, m: Message, now: real)
    requires WellFormed(w) && Conserved(w) && Timed(w) && Enabled(w, Publish(m, now))
    ensures Timed(Step(w, Publish(m, now)))
  {
    var w' := Step(w, Publish(m, now));
    forall e | e in w.srv.pending ensures e.msg in w.accepted { PlacedIsAccepted(w, e.msg); }
    forall x | x in w.srv.offline ensures x in w.accepted { PlacedIsAccepted(w, x); }
    if Reliable(m) {
      PutMembers(w.srv.pending, NewEntry(m, now));
      if w.srv.clients == {} { NewTimed(w, w', m, now, []); } else { NewTimed(w, w', m, now, [now]); }
    } else {
      ClockTimed(w, w');
    }
  }

  /** A fresh message joins the queue unsent, or the table with its first send scheduled. */
  lemma NewTimed(w: World, w': World, m: Message, now: real, ts: seq<real>)
    requires Timed(w) && Reliable(m) && FreshId(w, m.corrId) && now >= w.clock && w'.clock == now
    requires forall e :: e in w.srv.pending ==> e.msg in w.accepted
    requires forall x :: x in w.srv.offline ==> x in w.accepted
    requires w'.accepted == w.accepted + [m] && w'.sent == w.sent[m.corrId := ts] && (ts == [] || ts == [now])
    requires forall e :: e in w'.srv.pending ==> e in w.srv.pending || (ts == [now] && e == NewEntry(m, now))
    requires forall x :: x in w'.srv.offline ==> x in w.srv.offline || (ts == [] && x == m)
    ensures Timed(w')
  {
    forall x | x in w'.accepted ensures TimedMessage(w', x) {
      if x != m { assert TimedMessage(w, x); }
    }
    forall e | e in w'.srv.pending ensures TimedEntry(w', e) {
      if e in w.srv.pending { assert TimedEntry(w, e); }
    }
    forall x | x in w'.srv.offline ensures TimedQueued(w', x) {
      if x in w.srv.offline { assert TimedQueued(w, x); }
    }
  }

  /** Nothing but the clock and unrelated fields changed. */
  lemma ClockTimed(w: World, w': World)
    requires Timed(w) && w'.clock >= w.clock && w'.sent == w.sent
    requires forall x :: x in w'.accepted ==> x in w.accepted
    requires forall e :: e in w'.srv.pending ==> e in w.srv.pending
    requires forall x :: x in w'.srv.offline ==> x in w.srv.offline
    ensures Timed(w')
  {
  }

  lemma SpacedSnoc(cls: Reliability, ts: seq<real>, now: real)
    requires Spaced(cls, ts) && (ts != [] ==> now >= NextSlot(cls, ts))
    ensures Spaced(cls, ts + [now])
  {
  }

  /** A due entry that is not given up is scheduled in its slot and waits for the next one. */
  lemma ResentEntry(w: World, w': World, e: Pending, now: real)
    requires TimedEntry(w, e) && TimedMessage(w, e.msg) && e.cls == Classify(e.msg.kind) && Reliable(e.msg)
    requires Due(e, now) && !Expires(e, now)
    requires e.msg.corrId in w'.sent && w'.sent[e.msg.corrId] == w.sent[e.msg.corrId] + [now]
    ensures TimedMessage(w', e.msg) && TimedEntry(w', Aged(e, now))
  {
  }

  lemma RetryTimedOnline(w: World, now: real)
    requires WellFormed(w) && Conserved(w) && Timed(w) && now >= w.clock && w.srv.clients != {}
    ensures Timed(Step(w, RetryPasses(now)))
  {
    var w' := Step(w, RetryPasses(now));
    var ps := w.srv.pending;
    var again := Resends(ps, now);
    PassElements(ps, now);
    CollectedKeys(ps, now);
    forall e | e in ps ensures e.msg in w.accepted { PlacedIsAccepted(w, e.msg); }
    forall x | x in w'.accepted ensures TimedMessage(w', x) {
      assert TimedMessage(w, x);
      if x.corrId in Ids(again) {
        IdMember(again, x.corrId);
        var y :| y in again && y.corrId == x.corrId;
        var e :| e in ps && e.msg == y && Due(e, now) && !Expires(e, now);
        SameId(w, x, y);
        ResentEntry(w, w', e, now);
      }
    }
    forall e' | e' in w'.srv.pending ensures TimedEntry(w', e') {
      var e :| e in ps && !Expires(e, now) && e' == Aged(e, now);
      assert TimedEntry(w, e) && TimedMessage(w, e.msg);
      if Due(e, now) { ResentEntry(w, w', e, now); }
    }
    forall x | x in w'.srv.offline ensures TimedQueued(w', x) {
      assert TimedQueued(w, x);
      if x.corrId in Ids(again) {
        IdMember(again, x.corrId);
        var y :| y in again && y.corrId == x.corrId;
        var e :| e in ps && e.msg == y;
        NotBoth(w, e, x);
      }
    }
  }

  lemma RetryTimedOffline(w: World, now: real)
    requires WellFormed(w) && Timed(w) && now >= w.clock && w.srv.clients == {}
    ensures Timed(Step(w, RetryPasses(now)))
  {
    var w' := Step(w, RetryPasses(now));
    var ps := w.srv.pending;
    PassElements(ps, now);
    forall x | x in w'.accepted ensures TimedMessage(w', x) { assert TimedMessage(w, x); }
    forall e | e in w'.srv.pending ensures TimedEntry(w', e) { assert TimedEntry(w, e); }
    forall x | x in w'.srv.offline ensures TimedQueued(w', x) {
      if x in w.srv.offline {
        assert TimedQueued(w, x);
      } else {
        var e :| e in ps && e.msg == x && Due(e, now) && !Expires(e, now);
        assert TimedEntry(w, e);
      }
    }
  }

  lemma ConnectTimed(w: World, client: nat, closed: set<nat>, now: real)
    requires WellFormed(w) && Conserved(w) && Timed(w) && now >= w.clock
    ensures Timed(Step(w, Connects(client, closed, now)))
  {
    var w' := Step(w, Connects(client, closed, now));
    forall x | x in w'.accepted ensures TimedMessage(w', x) {
      assert TimedMessage(w, x);
      if x.corrId in Ids(w.srv.offline) {
        IdMember(w.srv.offline, x.corrId);
        var y :| y in w.srv.offline && y.corrId == x.corrId;
        PlacedIsAccepted(w, y);
        SameId(w, x, y);
        assert TimedQueued(w, x);
        SpacedSnoc(Classify(x.kind), w.sent[x.corrId], now);
      }
    }
    forall e | e in w'.srv.pending ensures TimedEntry(w', e) {
      assert TimedEntry(w, e);
      if e.msg.corrId in Ids(w.srv.offline) {
        IdMember(w.srv.offline, e.msg.corrId);
        var y :| y in w.srv.offline && y.corrId == e.msg.corrId;
        NotBoth(w, e, y);
      }
    }
  }

  lemma StepTimed(w: World, ev: Event)
    requires WellFormed(w) && Conserved(w) && Timed(w) && Enabled(w, ev)
    ensures Timed(Step(w, ev))
  {
    match ev
    case Publish(m, now) => PublishTimed(w, m, now);
    case RetryPasses(now) =>
      if w.srv.clients == {} { RetryTimedOffline(w, now); } else { RetryTimedOnline(w, now); }
    case Connects(client, closed, now) => ConnectTimed(w, client, closed, now);
    case AckArrives(id) =>
      RemoveElements(w.srv.pending, id);
      ClockTimed(w, Step(w, ev));
    case _ => ClockTimed(w, Step(w, ev));
  }

  // ----- batches -----

  lemma BatchesOfOne(o: Outgoing)
    ensures BatchesOf([o]) == if o.Batch? then [o.events] else []
  {
  }

  /** A batch leaves: the limit is reached, or the periodic pass finds something to send. */
  lemma EmitBatched(w: World, w': World, batch: seq<Message>)
    requires Batched(w) && 1 <= |batch| <= BATCH_LIMIT
    requires Concat(w.emitted) + batch == w'.bestEffort
    requires w'.emitted == w.emitted + [batch] && w'.srv.batch == []
    ensures Batched(w')
  {
  }

  lemma PublishBestEffort(w: World, m: Message, now: real)
    requires Batched(w) && Classify(m.kind).BestEffort?
    ensures Batched(Step(w, Publish(m, now)))
  {
    var w' := Step(w, Publish(m, now));
    var batch := w.srv.batch + [m];
    assert Concat(w.emitted) + batch == w.bestEffort + [m];
    if |batch| >= BATCH_LIMIT {
      BatchesOfOne(Batch(batch));
      EmitBatched(w, w', batch);
    } else {
      assert w'.srv.batch == batch;
      assert w'.emitted == w.emitted + BatchesOf([]) == w.emitted;
    }
  }

  lemma PublishOther(w: World, m: Message, now: real)
    requires Batched(w) && !Classify(m.kind).BestEffort?
    ensures Batched(Step(w, Publish(m, now)))
  {
    var w' := Step(w, Publish(m, now));
    BatchesOfOne(Single(m));
    assert BatchesOf([]) == [];
    assert w'.emitted == w.emitted && w'.srv.batch == w.srv.batch && w'.bestEffort == w.bestEffort;
  }

  /** Events that have nothing to do with best-effort messages. */
  lemma UnrelatedKeeps(w: World, ev: Event)
    requires !ev.Publish? && (ev.BatchPasses? ==> w.srv.batch == [])
    ensures var w' := Step(w, ev);
      w'.emitted == w.emitted && w'.srv.batch == w.srv.batch && w'.bestEffort == w.bestEffort
  {
  }

  lemma StepBatched(w: World, ev: Event)
    requires Batched(w)
    ensures Batched(Step(w, ev))
  {
    match ev
    case Publish(m, now) =>
      if Classify(m.kind).BestEffort? { PublishBestEffort(w, m, now); } else { PublishOther(w, m, now); }
    case BatchPasses =>
      if w.srv.batch == [] {
        UnrelatedKeeps(w, ev);
      } else {
        BatchesOfOne(Batch(w.srv.batch));
        EmitBatched(w, Step(w, ev), w.srv.batch);
      }
    case _ => UnrelatedKeeps(w, ev);
  }

  // ----- every run -----

  lemma StepInv(w: World, ev: Event)
    requires Inv(w) && Enabled(w, ev)
    ensures Inv(Step(w, ev))
  {
    StepConserves(w, ev);
    StepWellFormed(w, ev);
    StepWireSound(w, ev);
    StepTimed(w, ev);
    StepBatched(w, ev);
  }

  lemma {:induction false} RunInv(w: World, evs: seq<Event>)
    requires Inv(w) && ValidRun(w, evs)
    ensures Inv(Run(w, evs))
    decreases |evs|
  {
    if evs == [] {
    } else {
      StepInv(w, evs[0]);
      RunInv(Step(w, evs[0]), evs[1..]);
    }
  }

  /** In every interleaving, an accepted reliable message is in exactly one place, once. */
  lemma ExactlyOnePlace(evs: seq<Event>, m: Message)
    requires ValidRun(Start, evs)
    ensures var w := Run(Start, evs);
      && (m in w.accepted ==> Places(w, m) == 1)
      && (m !in w.accepted ==> Places(w, m) == 0)
      && (m in w.dropped ==> Classify(m.kind).Retry?)
  {
    RunInv(Start, evs);
    CountMember(Run(Start, evs).accepted, m);
  }

  /**
   What an acknowledgement removed some client had received. For what a flush handed over this is so by
   the definition of the one-step flush; only the acknowledgement half is a result.
   */
  lemma AckedWasReceived(evs: seq<Event>, m: Message)
    requires ValidRun(Start, evs)
    ensures var w := Run(Start, evs); m in w.acked || m in w.handed ==> m in w.received && m in w.accepted
  {
    RunInv(Start, evs);
    PlacedIsAccepted(Run(Start, evs), m);
  }

  /** A retry-class message is scheduled or handed over at most four times, at least 0.1, 0.1 and 0.2 s apart. */
  lemma RetryTransmissions(evs: seq<Event>, m: Message)
    requires ValidRun(Start, evs)
    requires m in Run(Start, evs).accepted && Classify(m.kind).Retry?
    ensures var w := Run(Start, evs);
      && m.corrId in w.sent
      && var ts := w.sent[m.corrId];
      && |ts| <= 4
      && (|ts| >= 2 ==> ts[1] - ts[0] >= 0.1)
      && (|ts| >= 3 ==> ts[2] - ts[1] >= 0.1)
      && (|ts| == 4 ==> ts[3] - ts[2] >= 0.2)
  {
    RunInv(Start, evs);
    assert TimedMessage(Run(Start, evs), m);
    assert Gap(Retry, 0) == 0.1 && Gap(Retry, 1) == 0.1 && Gap(Retry, 2) == 0.2;
  }

  /** A guaranteed message is scheduled again no sooner than half a second later. */
  lemma GuaranteedTransmissions(evs: seq<Event>, m: Message, j: nat)
    requires ValidRun(Start, evs)
    requires m in Run(Start, evs).accepted && Classify(m.kind).Guaranteed?
    ensures var w := Run(Start, evs);
      && m.corrId in w.sent
      && (j + 1 < |w.sent[m.corrId]| ==> w.sent[m.corrId][j + 1] - w.sent[m.corrId][j] >= 0.5)
  {
    RunInv(Start, evs);
    var w := Run(Start, evs);
    assert TimedMessage(w, m);
    if j + 1 < |w.sent[m.corrId]| {
      assert Gap(Guaranteed, j) == 0.5;
    }
  }

  /** Best-effort messages are scheduled once and in order, in non-empty batches of at most ten. */
  lemma BestEffortInOrder(evs: seq<Event>)
    requires ValidRun(Start, evs)
    ensures var w := Run(Start, evs);
      && Concat(w.emitted) + w.srv.batch == w.bestEffort
      && |w.srv.batch| < 10
      && forall b :: b in w.emitted ==> 1 <= |b| <= 10
  {
    RunInv(Start, evs);
  }
}
