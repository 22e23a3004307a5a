/**
 What becomes of messages over a run of the delivery protocol.

 A guaranteed message that was ever queued while nobody was connected is handed over once, by the next
 connect, and forgotten; `WakeIsForgotten` is a run in which the client leaves at once and the wake is
 gone, and `GuaranteedFate` says for every run which messages go that way. `SendsAreScheduled` ties the
 sends that actually run to those scheduled, so that their bounds carry over (`RetrySendsRun`,
 `BatchesRunOnce`).
 */
module DeliveryHistory {
  import opened Common
  import opened Delivery
  import opened DeliveryRuns

  /** The worlds of a run, from the start on: `ws[k]` is the one before event `k`. */
  ghost function Worlds(evs: seq<Event>): (ws: seq<World>)
    ensures |ws| == |evs| + 1 && ws[|evs|] == Run(Start, evs)
  {
    (if evs == [] then [] else Worlds(evs[..|evs| - 1])) + [Run(Start, evs)]
  }

  lemma {:induction false} RunSnoc(w: World, evs: seq<Event>, ev: Event)
    ensures Run(w, evs + [ev]) == Step(Run(w, evs), ev)
    ensures ValidRun(w, evs + [ev]) <==> ValidRun(w, evs) && Enabled(Run(w, evs), ev)
    decreases |evs|
  {
    var all := evs + [ev];
    if evs == [] {
      assert all[1..] == [];
    } else {
      assert all[1..] == evs[1..] + [ev];
      RunSnoc(Step(w, evs[0]), evs[1..], ev);
    }
  }

  lemma {:induction false} RunSplit(w: World, evs: seq<Event>, k: nat)
    requires k <= |evs|
    ensures Run(w, evs) == Run(Run(w, evs[..k]), evs[k..])
    ensures ValidRun(w, evs) ==> ValidRun(w, evs[..k]) && ValidRun(Run(w, evs[..k]), evs[k..])
    decreases k
  {
    if k == 0 {
      assert evs[..0] == [] && evs[0..] == evs;
    } else {
      RunSplit(Step(w, evs[0]), evs[1..], k - 1);
      assert evs[..k][1..] == evs[1..][..k - 1] && evs[1..][k - 1..] == evs[k..];
    }
  }

  // ----- queueing and hand-over -----

  /** With nobody connected: the message is published, or comes due without being given up. */
  ghost predicate Queues(w: World, ev: Event, m: Message) {
    && w.srv.clients == {}
    && match ev
       case Publish(x, _) => x == m && Reliable(m)
       case RetryPasses(now) => exists e :: e in w.srv.pending && e.msg == m && Due(e, now) && !Expires(e, now)
       case _ => false
  }

  ghost predicate EverQueued(ws: seq<World>, m: Message) {
    exists k :: 0 <= k < |ws| && m in ws[k].srv.offline
  }

  ghost predicate EverQueues(ws: seq<World>, evs: seq<Event>, m: Message)
    requires |evs| <= |ws|
  {
    exists k :: 0 <= k < |evs| && Queues(ws[k], evs[k], m)
  }

  /** A client connects while the message is in the offline queue. */
  ghost predicate HandedOver(ws: seq<World>, evs: seq<Event>, m: Message)
    requires |evs| <= |ws|
  {
    exists k :: 0 <= k < |evs| && evs[k].Connects? && m in ws[k].srv.offline
  }

  lemma StepQueue(w: World, ev: Event, m: Message)
    ensures m in Step(w, ev).srv.offline <==> Queues(w, ev, m) || (m in w.srv.offline && !ev.Connects?)
    ensures m in Step(w, ev).handed <==> m in w.handed || (ev.Connects? && m in w.srv.offline)
  {
    if ev.RetryPasses? { PassElements(w.srv.pending, ev.now); }
  }

  lemma WorldsSnoc(prev: seq<Event>, ev: Event)
    ensures Worlds(prev + [ev]) == Worlds(prev) + [Step(Run(Start, prev), ev)]
  {
    assert (prev + [ev])[..|prev|] == prev;
    RunSnoc(Start, prev, ev);
  }

  lemma EverQueuedSnoc(ws: seq<World>, w: World, m: Message)
    ensures EverQueued(ws + [w], m) <==> EverQueued(ws, m) || m in w.srv.offline
  {
    var all := ws + [w];
    assert all[|ws|] == w;
    if EverQueued(ws, m) {
      var k :| 0 <= k < |ws| && m in ws[k].srv.offline;
      assert m in all[k].srv.offline;
    }
  }

  lemma EverQueuesSnoc(ws: seq<World>, w: World, evs: seq<Event>, ev: Event, m: Message)
    requires |ws| == |evs| + 1
    ensures EverQueues(ws + [w], evs + [ev], m) <==> EverQueues(ws, evs, m) || Queues(ws[|evs|], ev, m)
  {
    var all, allEvs, n := ws + [w], evs + [ev], |evs|;
    assert all[n] == ws[n] && allEvs[n] == ev;
    if EverQueues(ws, evs, m) {
      var k :| 0 <= k < n && Queues(ws[k], evs[k], m);
      assert Queues(all[k], allEvs[k], m);
    }
    if EverQueues(all, allEvs, m) {
      var k :| 0 <= k <= n && Queues(all[k], allEvs[k], m);
      if k < n { assert Queues(ws[k], evs[k], m); }
    }
  }

  lemma HandedOverSnoc(ws: seq<World>, w: World, evs: seq<Event>, ev: Event, m: Message)
    requires |ws| == |evs| + 1
    ensures HandedOver(ws + [w], evs + [ev], m)
       <==> HandedOver(ws, evs, m) || (ev.Connects? && m in ws[|evs|].srv.offline)
  {
    var all, allEvs, n := ws + [w], evs + [ev], |evs|;
    assert all[n] == ws[n] && allEvs[n] == ev;
    if HandedOver(ws, evs, m) {
      var k :| 0 <= k < n && evs[k].Connects? && m in ws[k].srv.offline;
      assert allEvs[k].Connects? && m in all[k].srv.offline;
    }
    if HandedOver(all, allEvs, m) {
      var k :| 0 <= k <= n && allEvs[k].Connects? && m in all[k].srv.offline;
      if k < n { assert evs[k].Connects? && m in ws[k].srv.offline; }
    }
  }

  lemma {:induction false} QueueHistory(evs: seq<Event>, m: Message)
    ensures m in Run(Start, evs).handed <==> HandedOver(Worlds(evs), evs, m)
    ensures EverQueued(Worlds(evs), m) <==> EverQueues(Worlds(evs), evs, m)
    ensures m in Run(Start, evs).srv.offline ==> EverQueued(Worlds(evs), m)
    decreases |evs|
  {
    if evs == [] {
      assert Worlds(evs) == [Start];
    } else {
      var n := |evs| - 1;
      var prev, ev := evs[..n], evs[n];
      var w := Run(Start, prev);
      assert evs == prev + [ev];
      QueueHistory(prev, m);
      RunSnoc(Start, prev, ev);
      StepQueue(w, ev, m);
      WorldsSnoc(prev, ev);
      EverQueuedSnoc(Worlds(prev), Step(w, ev), m);
      EverQueuesSnoc(Worlds(prev), Step(w, ev), prev, ev, m);
      HandedOverSnoc(Worlds(prev), Step(w, ev), prev, ev, m);
    }
  }

  // ----- after the hand-over -----

  lemma HandedIsNowhereElse(w: World, m: Message, x: Message)
    requires WellFormed(w) && Conserved(w) && m in w.handed && x in w.accepted && x.corrId == m.corrId
    ensures x !in w.srv.offline && forall e :: e in w.srv.pending ==> e.msg != x
  {
    PlacedIsAccepted(w, m);
    SameId(w, m, x);
    CountMember(w.handed, m);
    CountMember(w.accepted, m);
    CountMember(w.srv.offline, m);
    CountEntry(w.srv.pending, m);
    assert Places(w, m) == 1;
  }

  /** A handed-over message is not among those the event schedules or hands over. */
  lemma NotAgain(w: World, ms: seq<Message>, m: Message)
    requires WellFormed(w) && Conserved(w) && m in w.handed
    requires forall x :: x in ms ==> x in w.srv.offline || exists e :: e in w.srv.pending && e.msg == x
    ensures m.corrId !in Ids(ms)
  {
    if m.corrId in Ids(ms) {
      IdMember(ms, m.corrId);
      var y :| y in ms && y.corrId == m.corrId;
      PlacedIsAccepted(w, y);
      HandedIsNowhereElse(w, m, y);
      assert false;
    }
  }

  /** No event touches the schedule of a message that has been handed over. */
  lemma HandedStep(w: World, ev: Event, m: Message)
    requires Inv(w) && Enabled(w, ev) && m in w.handed
    ensures var w' := Step(w, ev);
      m in w'.handed && m.corrId in w.sent && m.corrId in w'.sent && w'.sent[m.corrId] == w.sent[m.corrId]
  {
    PlacedIsAccepted(w, m);
    assert TimedMessage(w, m);
    match ev
    case RetryPasses(now) =>
      PassElements(w.srv.pending, now);
      NotAgain(w, Resends(w.srv.pending, now), m);
    case Connects(_, _, _) => NotAgain(w, w.srv.offline, m);
    case _ =>
  }

  lemma {:induction false} HandedRun(w: World, evs: seq<Event>, m: Message)
    requires Inv(w) && ValidRun(w, evs) && m in w.handed && m.corrId in w.sent
    ensures var w' := Run(w, evs); m in w'.handed && m.corrId in w'.sent && w'.sent[m.corrId] == w.sent[m.corrId]
    decreases |evs|
  {
    if evs == [] {
    } else {
      HandedStep(w, evs[0], m);
      StepInv(w, evs[0]);
      HandedRun(Step(w, evs[0]), evs[1..], m);
    }
  }

  /** Once handed over, a message is never scheduled again, acknowledged or not. */
  lemma HandedIsForgotten(evs: seq<Event>, k: nat, m: Message)
    requires ValidRun(Start, evs) && k <= |evs| && m in Run(Start, evs[..k]).handed
    ensures var w := Run(Start, evs);
      && m in w.handed && m.corrId in w.sent && m.corrId in Run(Start, evs[..k]).sent
      && w.sent[m.corrId] == Run(Start, evs[..k]).sent[m.corrId]
      && (forall e :: e in w.srv.pending ==> e.msg != m)
  {
    var before := Run(Start, evs[..k]);
    RunSplit(Start, evs, k);
    assert Inv(before) by { RunInv(Start, evs[..k]); }
    HandedFrom(before, evs[k..], m);
  }

  lemma HandedFrom(before: World, evs: seq<Event>, m: Message)
    requires Inv(before) && ValidRun(before, evs) && m in before.handed
    ensures var w := Run(before, evs);
      && m in w.handed && m.corrId in w.sent && m.corrId in before.sent && w.sent[m.corrId] == before.sent[m.corrId]
      && (forall e :: e in w.srv.pending ==> e.msg != m)
  {
    assert m.corrId in before.sent by {
      PlacedIsAccepted(before, m);
      assert TimedMessage(before, m);
    }
    HandedRun(before, evs, m);
    var w := Run(before, evs);
    assert WellFormed(w) && Conserved(w) by { RunInv(before, evs); }
    PlacedIsAccepted(w, m);
    HandedIsNowhereElse(w, m, m);
  }

  /** Pending and due with somebody connected: the message is scheduled again and stays pending. */
  lemma PendingIsResent(w: World, e: Pending, now: real)
    requires WellFormed(w) && Timed(w) && e in w.srv.pending && e.cls.Guaranteed? && e.nextRetry <= now
    requires w.srv.clients != {}
    ensures var w' := Step(w, RetryPasses(now));
      && Aged(e, now) in w'.srv.pending
      && e.msg.corrId in w.sent && e.msg.corrId in w'.sent
      && w'.sent[e.msg.corrId] == w.sent[e.msg.corrId] + [now]
      && w'.outbox[Single(e.msg)] > w.outbox[Single(e.msg)]
  {
    var again := Resends(w.srv.pending, now);
    assert TimedEntry(w, e);
    assert e.msg in again && Aged(e, now) in Survivors(w.srv.pending, now) by { PassElements(w.srv.pending, now); }
    assert e.msg.corrId in Ids(again) by { CollectedKeys(w.srv.pending, now); }
    assert Single(e.msg) in multiset(Singles(again)) by {
      var i :| 0 <= i < |again| && again[i] == e.msg;
      assert Singles(again)[i] == Single(e.msg);
    }
  }

  /**
   Where an accepted guaranteed message is after any run. It has been handed over if and only if it was
   in the offline queue when a client connected; it was ever queued if and only if it was published, or
   came due, while nobody was connected; and if it has not been handed over it is pending, queued or
   acknowledged. A message that was never queued is retried until it is acknowledged
   (`PendingIsResent`); one that was handed over is never sent again (`HandedIsForgotten`).
   */
  lemma GuaranteedFate(evs: seq<Event>, m: Message)
    requires ValidRun(Start, evs) && m in Run(Start, evs).accepted && Classify(m.kind).Guaranteed?
    ensures var w := Run(Start, evs);
      && (m in w.handed <==> HandedOver(Worlds(evs), evs, m))
      && (EverQueued(Worlds(evs), m) <==> EverQueues(Worlds(evs), evs, m))
      && (m in w.handed ==> m !in w.acked && m !in w.srv.offline && forall e :: e in w.srv.pending ==> e.msg != m)
      && (m !in w.handed ==> m in w.acked || m in w.srv.offline || exists e :: e in w.srv.pending && e.msg == m)
      && (!EverQueued(Worlds(evs), m) ==> m in w.acked || exists e :: e in w.srv.pending && e.msg == m)
  {
    var w := Run(Start, evs);
    RunInv(Start, evs);
    QueueHistory(evs, m);
    PlacedIsAccepted(w, m);
    ExactlyOnePlace(evs, m);
    CountMember(w.handed, m);
    CountMember(w.acked, m);
    CountMember(w.srv.offline, m);
    CountEntry(w.srv.pending, m);
    if m in w.handed {
      var ws := Worlds(evs);
      var k :| 0 <= k < |evs| && evs[k].Connects? && m in ws[k].srv.offline;
      assert EverQueued(ws, m);
    }
  }

  const Hey := Message(Wake, "a", "hey")

  /** The wake is published with nobody connected; a client connects, is sent it, and leaves. */
  const Forgetting := [Publish(Hey, 0.0), Connects(1, {}, 0.0), Disconnects(1)]

  /** The promise fails: unacknowledged, not pending and not queued, the wake will never be sent again. */
  lemma WakeIsForgotten()
    ensures ValidRun(Start, Forgetting)
    ensures var w := Run(Start, Forgetting);
      && w.accepted == [Hey] && w.handed == [Hey] && w.acked == [] && w.srv.pending == [] && w.srv.offline == []
  {
    var w1 := Step(Start, Publish(Hey, 0.0));
    assert w1.srv == Server({}, [Hey], [], []) && w1.accepted == [Hey];
    var w2 := Step(w1, Connects(1, {}, 0.0));
    var w3 := Step(w2, Disconnects(1));
    assert Forgetting[1..] == [Connects(1, {}, 0.0), Disconnects(1)] && Forgetting[1..][1..] == [Disconnects(1)];
    assert [Disconnects(1)][1..] == [];
    assert Run(w2, [Disconnects(1)]) == Run(w3, []);
    assert Run(w1, Forgetting[1..]) == Run(w2, [Disconnects(1)]);
    assert ValidRun(w2, [Disconnects(1)]) && ValidRun(w1, Forgetting[1..]);
  }

  const Again := Message(Wake, "a", "again")

  /** With a client connected two wakes are published under one correlation id. */
  const Reusing := [Connects(1, {}, 0.0), Publish(Hey, 0.0), Publish(Again, 0.0)]

  /** The first of them was accepted and is nowhere any more. */
  lemma ReusedIdLosesMessage()
    ensures var w := Run(Start, Reusing);
      Hey in w.accepted && Places(w, Hey) == 0 && w.srv.pending == [Pending(Again, Guaranteed, 0, 0.5)]
  {
    var w1 := Step(Start, Connects(1, {}, 0.0));
    assert w1.srv == Server({1}, [], [], []);
    var w2 := Step(w1, Publish(Hey, 0.0));
    assert w2.srv.pending == [Pending(Hey, Guaranteed, 0, 0.5)] && w2.accepted == [Hey];
    var w3 := Step(w2, Publish(Again, 0.0));
    assert w3.srv.pending == [Pending(Again, Guaranteed, 0, 0.5)] && w3.accepted == [Hey, Again];
    assert "hey"[0] != "again"[0];
    assert CountPending(w3.srv.pending, Hey) == 0 by { assert w3.srv.pending[1..] == []; }
    assert Reusing[1..] == [Publish(Hey, 0.0), Publish(Again, 0.0)] && Reusing[1..][1..] == [Publish(Again, 0.0)];
    assert [Publish(Again, 0.0)][1..] == [];
    assert Run(w2, [Publish(Again, 0.0)]) == Run(w3, []);
    assert Run(w1, Reusing[1..]) == Run(w2, [Publish(Again, 0.0)]);
  }

  // ----- sends that run -----

  function CountOut(os: seq<Outgoing>, o: Outgoing): nat {
    if os == [] then 0 else CountOut(os[..|os| - 1], o) + if os[|os| - 1] == o then 1 else 0
  }

  function CountBatch(bs: seq<seq<Message>>, b: seq<Message>): nat {
    if bs == [] then 0 else CountBatch(bs[..|bs| - 1], b) + if bs[|bs| - 1] == b then 1 else 0
  }

  /** Runs of a send and sends under way make up what was scheduled; hand-overs come on top. */
  ghost predicate MessageAccounted(w: World, m: Message) {
    && m.corrId in w.sent
    && CountOut(w.wire, Single(m)) + w.outbox[Single(m)] + Count(w.handed, m) == |w.sent[m.corrId]|
  }

  ghost predicate BatchAccounted(w: World, b: seq<Message>) {
    CountOut(w.wire, Batch(b)) + w.outbox[Batch(b)] == CountBatch(w.emitted, b)
  }

  ghost predicate SendsAccounted(w: World) {
    && (forall m :: m in w.accepted ==> MessageAccounted(w, m))
    && (forall b :: BatchAccounted(w, b))
    && (forall m :: Reliable(m) && CountOut(w.wire, Single(m)) > 0 ==> m in w.accepted)
  }

  lemma {:induction false} SinglesCount(ms: seq<Message>, m: Message)
    ensures multiset(Singles(ms))[Single(m)] == Count(ms, m)
    ensures forall b :: multiset(Singles(ms))[Batch(b)] == 0
  {
    if ms == [] {
      assert Singles(ms) == [];
    } else {
      SinglesCount(ms[1..], m);
      assert Singles(ms) == [Single(ms[0])] + Singles(ms[1..]);
    }
  }

  /** A list of accepted messages that holds a message at most once holds it exactly if it holds its id. */
  lemma IdCount(w: World, ms: seq<Message>, m: Message)
    requires DistinctIds(w.accepted) && m in w.accepted && Count(ms, m) <= 1
    requires forall x :: x in ms ==> x in w.accepted
    ensures Count(ms, m) == if m.corrId in Ids(ms) then 1 else 0
  {
    CountMember(ms, m);
    IdMember(ms, m.corrId);
    if m.corrId in Ids(ms) {
      var y :| y in ms && y.corrId == m.corrId;
      SameId(w, m, y);
    }
  }

  lemma CountOutSnoc(os: seq<Outgoing>, o: Outgoing, x: Outgoing)
    ensures CountOut(os + [o], x) == CountOut(os, x) + if x == o then 1 else 0
  {
    assert (os + [o])[..|os|] == os;
  }

  lemma CountBatchSnoc(bs: seq<seq<Message>>, b: seq<Message>, x: seq<Message>)
    ensures CountBatch(bs + [b], x) == CountBatch(bs, x) + if x == b then 1 else 0
  {
    assert (bs + [b])[..|bs|] == bs;
  }

  /** Nothing that is accounted for changes. */
  lemma QuietAccounts(w: World, w': World)
    requires SendsAccounted(w)
    requires forall o :: w'.outbox[o] == w.outbox[o]
    requires w'.wire == w.wire && w'.sent == w.sent && w'.handed == w.handed && w'.accepted == w.accepted
    requires w'.emitted == w.emitted
    ensures SendsAccounted(w')
  {
    forall m | m in w'.accepted ensures MessageAccounted(w', m) { assert MessageAccounted(w, m); }
    forall b ensures BatchAccounted(w', b) { assert BatchAccounted(w, b); }
  }

  /** A send that was under way has run. */
  lemma SendRuns(w: World, w': World, o: Outgoing)
    requires SendsAccounted(w) && o in w.outbox && (o.Single? && Reliable(o.msg) ==> o.msg in w.accepted)
    requires w'.wire == w.wire + [o] && w'.outbox == w.outbox - multiset{o}
    requires w'.sent == w.sent && w'.handed == w.handed && w'.emitted == w.emitted && w'.accepted == w.accepted
    ensures SendsAccounted(w')
  {
    forall x ensures CountOut(w'.wire, x) + w'.outbox[x] == CountOut(w.wire, x) + w.outbox[x] {
      CountOutSnoc(w.wire, o, x);
    }
    forall m | m in w'.accepted ensures MessageAccounted(w', m) { assert MessageAccounted(w, m); }
    forall b ensures BatchAccounted(w', b) { assert BatchAccounted(w, b); }
    forall m | Reliable(m) && CountOut(w'.wire, Single(m)) > 0 ensures m in w'.accepted {
      CountOutSnoc(w.wire, o, Single(m));
    }
  }

  lemma RunAccounts(w: World, o: Outgoing, reached: set<nat>)
    requires SendsAccounted(w) && WireSound(w) && o in w.outbox
    ensures SendsAccounted(Step(w, Transmit(o, reached)))
  {
    SendRuns(w, Step(w, Transmit(o, reached)), o);
  }

  /** A fresh message: nothing has been sent, and at most its first send is under way. */
  lemma NewAccounts(w: World, w': World, m: Message)
    requires SendsAccounted(w) && m !in w.accepted && Reliable(m)
    requires w'.accepted == w.accepted + [m] && w'.wire == w.wire && w'.handed == w.handed && w'.emitted == w.emitted
    requires w.outbox[Single(m)] == 0 && Count(w.handed, m) == 0
    requires m.corrId in w'.sent && |w'.sent[m.corrId]| <= 1
    requires forall x :: w'.outbox[x] == w.outbox[x] + if x == Single(m) then |w'.sent[m.corrId]| else 0
    requires forall x :: x in w.accepted ==>
      x.corrId in w'.sent && x.corrId in w.sent && w'.sent[x.corrId] == w.sent[x.corrId]
    ensures SendsAccounted(w')
  {
    forall x | x in w'.accepted ensures MessageAccounted(w', x) {
      if x != m { assert MessageAccounted(w, x); }
    }
    forall b ensures BatchAccounted(w', b) { assert BatchAccounted(w, b); }
  }

  /** What publishing a reliable message does to the histories of sends. */
  lemma PublishedReliable(w: World, m: Message, now: real)
    requires Reliable(m)
    ensures var w' := Step(w, Publish(m, now));
      && w'.accepted == w.accepted + [m] && w'.wire == w.wire && w'.handed == w.handed && w'.emitted == w.emitted
      && w'.sent == w.sent[m.corrId := if w.srv.clients == {} then [] else [now]]
      && w'.outbox == w.outbox + if w.srv.clients == {} then multiset{} else multiset{Single(m)}
  {
    var out := Broadcast(w.srv, m, now).1;
    assert out == if w.srv.clients == {} then [] else [Single(m)];
    assert multiset([Single(m)]) == multiset{Single(m)};
    BatchesOfOne(Single(m));
    assert BatchesOf(out) == [];
    assert w.emitted + [] == w.emitted;
  }

  lemma PublishReliableAccounts(w: World, m: Message, now: real)
    requires SendsAccounted(w) && Inv(w) && Enabled(w, Publish(m, now)) && Reliable(m)
    ensures SendsAccounted(Step(w, Publish(m, now)))
  {
    var w' := Step(w, Publish(m, now));
    PublishedReliable(w, m, now);
    assert m !in w.accepted && Single(m) !in w.outbox;
    assert Count(w.handed, m) == 0 by {
      PlacedIsAccepted(w, m);
      CountMember(w.handed, m);
    }
    forall x | x in w.accepted
      ensures x.corrId in w'.sent && x.corrId in w.sent && w'.sent[x.corrId] == w.sent[x.corrId]
    {
      assert MessageAccounted(w, x);
    }
    NewAccounts(w, w', m);
  }

  /** A batch, or a message that nobody has to account for, is scheduled. */
  lemma OneMoreAccounts(w: World, w': World, o: Outgoing)
    requires SendsAccounted(w) && (o.Single? ==> !Reliable(o.msg)) && forall m :: m in w.accepted ==> Reliable(m)
    requires w'.outbox == w.outbox + multiset{o}
    requires w'.emitted == if o.Batch? then w.emitted + [o.events] else w.emitted
    requires w'.wire == w.wire && w'.sent == w.sent && w'.handed == w.handed && w'.accepted == w.accepted
    ensures SendsAccounted(w')
  {
    assert forall x :: w'.outbox[x] == w.outbox[x] + if x == o then 1 else 0;
    forall m | m in w'.accepted ensures MessageAccounted(w', m) { assert MessageAccounted(w, m); }
    forall b ensures BatchAccounted(w', b) {
      assert BatchAccounted(w, b);
      if o.Batch? { CountBatchSnoc(w.emitted, o.events, b); }
    }
  }

  /** Something other than a reliable message, or nothing, is scheduled. */
  lemma BatchAccounts(w: World, w': World, out: seq<Outgoing>)
    requires SendsAccounted(w) && (out == [] || (|out| == 1 && (out[0].Single? ==> !Reliable(out[0].msg))))
    requires w'.outbox == w.outbox + multiset(out) && w'.emitted == w.emitted + BatchesOf(out)
    requires w'.wire == w.wire && w'.sent == w.sent && w'.handed == w.handed && w'.accepted == w.accepted
    requires forall m :: m in w.accepted ==> Reliable(m)
    ensures SendsAccounted(w')
  {
    if out == [] {
      assert w'.emitted == w.emitted;
      QuietAccounts(w, w');
    } else {
      var o := out[0];
      assert out == [o] && multiset(out) == multiset{o};
      BatchesOfOne(o);
      assert w'.emitted == if o.Batch? then w.emitted + [o.events] else w.emitted;
      OneMoreAccounts(w, w', o);
    }
  }

  lemma RetryAccounts(w: World, now: real)
    requires SendsAccounted(w) && Inv(w) && w.srv.clients != {}
    ensures SendsAccounted(Step(w, RetryPasses(now)))
  {
    var w', again := Step(w, RetryPasses(now)), Resends(w.srv.pending, now);
    PassElements(w.srv.pending, now);
    forall x | x in again ensures x in w.accepted { PlacedIsAccepted(w, x); }
    forall m | m in w'.accepted ensures MessageAccounted(w', m) {
      assert MessageAccounted(w, m);
      WaitingConserves(w.srv.pending, now, m);
      CountMember(w.accepted, m);
      assert Places(w, m) == Count(w.accepted, m);
      IdCount(w, again, m);
      SinglesCount(again, m);
    }
    forall b ensures BatchAccounted(w', b) {
      assert BatchAccounted(w, b);
      SinglesCount(again, Hey);
    }
  }

  lemma ConnectAccounts(w: World, client: nat, closed: set<nat>, now: real)
    requires SendsAccounted(w) && Inv(w)
    ensures SendsAccounted(Step(w, Connects(client, closed, now)))
  {
    var w' := Step(w, Connects(client, closed, now));
    forall x | x in w.srv.offline ensures x in w.accepted { PlacedIsAccepted(w, x); }
    forall m | m in w'.accepted ensures MessageAccounted(w', m) {
      assert MessageAccounted(w, m);
      CountMember(w.accepted, m);
      assert Places(w, m) == Count(w.accepted, m);
      IdCount(w, w.srv.offline, m);
      CountAppend(w.handed, w.srv.offline, m);
    }
    forall b ensures BatchAccounted(w', b) { assert BatchAccounted(w, b); }
  }

  lemma PublishOtherAccounts(w: World, m: Message, now: real)
    requires SendsAccounted(w) && WellFormed(w) && !Reliable(m)
    ensures SendsAccounted(Step(w, Publish(m, now)))
  {
    BatchAccounts(w, Step(w, Publish(m, now)), Broadcast(w.srv, m, now).1);
  }

  lemma BatchPassAccounts(w: World)
    requires SendsAccounted(w) && WellFormed(w)
    ensures SendsAccounted(Step(w, BatchPasses))
  {
    BatchAccounts(w, Step(w, BatchPasses), BatchTick(w.srv).1);
  }

  lemma OtherAccounts(w: World, ev: Event)
    requires SendsAccounted(w)
    requires ev.AckArrives? || ev.Disconnects? || (ev.RetryPasses? && w.srv.clients == {})
    ensures SendsAccounted(Step(w, ev))
  {
    QuietAccounts(w, Step(w, ev));
  }

  lemma StepAccounts(w: World, ev: Event)
    requires SendsAccounted(w) && Inv(w) && Enabled(w, ev)
    ensures SendsAccounted(Step(w, ev))
  {
    match ev
    case Publish(m, now) =>
      if Reliable(m) { PublishReliableAccounts(w, m, now); } else { PublishOtherAccounts(w, m, now); }
    case Transmit(o, reached) => RunAccounts(w, o, reached);
    case RetryPasses(now) =>
      if w.srv.clients != {} { RetryAccounts(w, now); } else { OtherAccounts(w, ev); }
    case BatchPasses => BatchPassAccounts(w);
    case Connects(client, closed, now) => ConnectAccounts(w, client, closed, now);
    case _ => OtherAccounts(w, ev);
  }

  lemma {:induction false} RunsAccount(w: World, evs: seq<Event>)
    requires Inv(w) && SendsAccounted(w) && ValidRun(w, evs)
    ensures SendsAccounted(Run(w, evs))
    decreases |evs|
  {
    if evs == [] {
    } else {
      StepAccounts(w, evs[0]);
      StepInv(w, evs[0]);
      RunsAccount(Step(w, evs[0]), evs[1..]);
    }
  }

  /**
   In every run the sends of a reliable message that have run or are under way, and its hand-over, are
   as many as its scheduled times; and those of a batch as many as the times it was scheduled.
   */
  lemma SendsAreScheduled(evs: seq<Event>)
    requires ValidRun(Start, evs)
    ensures SendsAccounted(Run(Start, evs))
  {
    RunsAccount(Start, evs);
  }

  /** A retry-class message is sent or handed over at most four times. */
  lemma RetrySendsRun(evs: seq<Event>, m: Message)
    requires ValidRun(Start, evs) && m in Run(Start, evs).accepted && Classify(m.kind).Retry?
    ensures CountOut(Run(Start, evs).wire, Single(m)) + Count(Run(Start, evs).handed, m) <= 4
  {
    SendsAreScheduled(evs);
    RetryTransmissions(evs, m);
    assert MessageAccounted(Run(Start, evs), m);
  }

  /** A batch is sent at most as often as it was scheduled, so each best-effort message at most once. */
  lemma BatchesRunOnce(evs: seq<Event>, b: seq<Message>)
    requires ValidRun(Start, evs)
    ensures CountOut(Run(Start, evs).wire, Batch(b)) <= CountBatch(Run(Start, evs).emitted, b)
  {
    SendsAreScheduled(evs);
    assert BatchAccounted(Run(Start, evs), b);
  }
}
