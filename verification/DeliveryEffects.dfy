/**
 What each event of the delivery protocol does, by the kind of message and in numbers.

 Main results: publishing any message but a transcript while somebody is connected schedules exactly one
 send of it, and with nobody connected a message of the five acknowledged kinds is queued and any other is
 gone (`PublishEffect`); so over any run the sends of a message that is neither acknowledged nor batched
 are as many as its publications with somebody connected (`UnackedSends`). A retry pass does to every
 entry what its kind and count say (`RetryEffectOnline`, `RetryEffectOffline`).
 */
module DeliveryEffects {
  import opened Common
  import opened Delivery
  import opened DeliveryRuns
  import H = DeliveryHistory

  predicate Lasting(kind: Kind) {
    kind == Wake || kind == FatalError
  }

  predicate Brief(kind: Kind) {
    kind == SpeechStart || kind == SpeechEnd || kind == Error
  }

  predicate Acknowledged(kind: Kind) {
    Lasting(kind) || Brief(kind)
  }

  predicate Collected(kind: Kind) {
    kind == PartialTranscript || kind == HypothesisUpdate
  }

  // ----- publishing -----

  /** The table with one entry set: in its place if the id was there, at the end if not. */
  ghost predicate TableSet(ps: seq<Pending>, ps': seq<Pending>, e: Pending) {
    if exists i :: 0 <= i < |ps| && ps[i].msg.corrId == e.msg.corrId then
      && |ps'| == |ps|
      && forall i :: 0 <= i < |ps| ==> ps'[i] == if ps[i].msg.corrId == e.msg.corrId then e else ps[i]
    else ps' == ps + [e]
  }

  lemma PutSets(ps: seq<Pending>, e: Pending)
    requires UniqueKeys(ps)
    ensures TableSet(ps, Put(ps, e), e)
  {
    if i :| 0 <= i < |ps| && ps[i].msg.corrId == e.msg.corrId {
      PutAt(ps, e, i);
    } else {
      PutAt(ps, e, |ps|);
    }
  }

  /** The message goes into a batch; the tenth sends the batch. */
  ghost predicate Collects(w: World, w': World, m: Message) {
    var batch := w.srv.batch + [m];
    && w'.srv.offline == w.srv.offline && w'.srv.pending == w.srv.pending && w'.srv.clients == w.srv.clients
    && w'.accepted == w.accepted && w'.sent == w.sent && w'.bestEffort == w.bestEffort + [m]
    && if |batch| < 10 then w'.srv.batch == batch && w'.outbox == w.outbox
       else w'.srv.batch == [] && w'.outbox == w.outbox + multiset{Batch(batch)}
  }

  /** With somebody connected: one send, and an entry in the table for a kind that is acknowledged. */
  ghost predicate Sends(w: World, w': World, m: Message, now: real) {
    && w'.outbox == w.outbox + multiset{Single(m)}
    && w'.srv.offline == w.srv.offline && w'.srv.batch == w.srv.batch && w'.srv.clients == w.srv.clients
    && w'.bestEffort == w.bestEffort
    && if Lasting(m.kind) then
         && TableSet(w.srv.pending, w'.srv.pending, Pending(m, Guaranteed, 0, now + 0.5))
         && w'.accepted == w.accepted + [m] && w'.sent == w.sent[m.corrId := [now]]
       else if Brief(m.kind) then
         && TableSet(w.srv.pending, w'.srv.pending, Pending(m, Retry, 0, now + 0.1))
         && w'.accepted == w.accepted + [m] && w'.sent == w.sent[m.corrId := [now]]
       else w'.srv.pending == w.srv.pending && w'.accepted == w.accepted && w'.sent == w.sent
  }

  /** With nobody connected: an acknowledged kind waits in the queue, any other is kept nowhere. */
  ghost predicate Waits(w: World, w': World, m: Message) {
    && w'.outbox == w.outbox && w'.bestEffort == w.bestEffort
    && if Acknowledged(m.kind) then
         && w'.srv == w.srv.(offline := w.srv.offline + [m])
         && w'.accepted == w.accepted + [m] && w'.sent == w.sent[m.corrId := []]
       else w'.srv == w.srv && w'.accepted == w.accepted && w'.sent == w.sent
  }

  lemma OneScheduled(w: World, out: seq<Outgoing>, o: Outgoing)
    ensures out == [] ==> w.outbox + multiset(out) == w.outbox
    ensures out == [o] ==> w.outbox + multiset(out) == w.outbox + multiset{o}
  {
    assert out == [o] ==> multiset(out) == multiset{o};
  }

  lemma CollectedEffect(w: World, m: Message, now: real)
    requires Collected(m.kind)
    ensures Collects(w, Step(w, Publish(m, now)), m)
  {
    OneScheduled(w, Broadcast(w.srv, m, now).1, Batch(w.srv.batch + [m]));
  }

  lemma SentEffect(w: World, m: Message, now: real)
    requires UniqueKeys(w.srv.pending) && !Collected(m.kind) && w.srv.clients != {}
    ensures Sends(w, Step(w, Publish(m, now)), m, now)
  {
    if Lasting(m.kind) { PutSets(w.srv.pending, Pending(m, Guaranteed, 0, now + 0.5)); }
    if Brief(m.kind) { PutSets(w.srv.pending, Pending(m, Retry, 0, now + 0.1)); }
    OneScheduled(w, Broadcast(w.srv, m, now).1, Single(m));
  }

  lemma WaitingEffect(w: World, m: Message, now: real)
    requires !Collected(m.kind) && w.srv.clients == {}
    ensures Waits(w, Step(w, Publish(m, now)), m)
  {
    OneScheduled(w, Broadcast(w.srv, m, now).1, Single(m));
  }

  /** What publishing does, for every kind. */
  lemma PublishEffect(w: World, m: Message, now: real)
    requires UniqueKeys(w.srv.pending)
    ensures var w' := Step(w, Publish(m, now));
      if Collected(m.kind) then Collects(w, w', m)
      else if w.srv.clients != {} then Sends(w, w', m, now)
      else Waits(w, w', m)
  {
    if Collected(m.kind) {
      CollectedEffect(w, m, now);
    } else if w.srv.clients != {} {
      SentEffect(w, m, now);
    } else {
      WaitingEffect(w, m, now);
    }
  }

  // ----- the other events -----

  /** What a client does with what it is sent: acknowledge five kinds that have an id, and emit every message. */
  lemma ClientHandles(o: Outgoing, id: string)
    ensures ClientAck(o) == Some(id) <==> o.Single? && Acknowledged(o.msg.kind) && o.msg.corrId == id != ""
    ensures ClientEvents(o) == if o.Single? then [o.msg] else o.events
  {
  }

  /** A send that reaches somebody: what is received, acknowledged and emitted. */
  ghost predicate Reaches(w: World, w': World, o: Outgoing) {
    match o
    case Batch(events) => w'.shown == w.shown + events && w'.received == w.received && w'.acks == w.acks
    case Single(m) =>
      && w'.shown == w.shown + [m]
      && w'.received == w.received + (if Acknowledged(m.kind) then {m} else {})
      && w'.acks == w.acks + if Acknowledged(m.kind) && m.corrId != "" then {m.corrId} else {}
  }

  /** A send that runs is under way no more; the clients it does not reach are gone. */
  lemma TransmitEffect(w: World, o: Outgoing, reached: set<nat>)
    ensures var w' := Step(w, Transmit(o, reached));
      && w'.outbox == w.outbox - multiset{o} && w'.wire == w.wire + [o]
      && w'.srv == w.srv.(clients := reached) && w'.accepted == w.accepted && w'.sent == w.sent
      && if reached == {} then w'.shown == w.shown && w'.received == w.received && w'.acks == w.acks
         else Reaches(w, w', o)
  {
  }

  /** A new client: the whole queue reaches it, once and in order, and leaves the queue. */
  lemma ConnectEffect(w: World, client: nat, closed: set<nat>, now: real)
    requires client !in closed
    ensures var w' := Step(w, Connects(client, closed, now));
      && client in w'.srv.clients && w'.srv.clients <= w.srv.clients + {client}
      && (w.srv.offline == [] ==> w'.srv.clients == w.srv.clients + {client})
      && (w.srv.offline != [] ==> w'.srv.clients == w.srv.clients + {client} - closed)
      && w'.srv.offline == [] && w'.srv.pending == w.srv.pending && w'.srv.batch == w.srv.batch
      && w'.shown == w.shown + w.srv.offline && w'.handed == w.handed + w.srv.offline
      && w'.outbox == w.outbox
  {
  }

  /** The sends of the flush are those of the queue, one for each message and in its order. */
  lemma FlushSends(s: Server, client: nat)
    ensures var sends := Connect(s, client).1;
      |sends| == |s.offline| && forall i :: 0 <= i < |sends| ==> sends[i] == Single(s.offline[i])
  {
  }

  /** A client that leaves takes nothing with it. */
  lemma DisconnectEffect(w: World, client: nat)
    ensures var w' := Step(w, Disconnects(client));
      && client !in w'.srv.clients && (forall c :: c != client ==> (c in w'.srv.clients <==> c in w.srv.clients))
      && w' == w.(srv := w.srv.(clients := w'.srv.clients))
  {
  }

  /** The periodic pass sends the whole batch, if there is any. */
  lemma BatchPassEffect(w: World)
    ensures var w' := Step(w, BatchPasses);
      && w'.srv == w.srv.(batch := [])
      && w'.outbox == w.outbox + if w.srv.batch == [] then multiset{} else multiset{Batch(w.srv.batch)}
  {
    assert multiset([Batch(w.srv.batch)]) == multiset{Batch(w.srv.batch)};
  }

  /** Entry `i` has the id, and all other entries are left in their order. */
  ghost predicate TakenOut(ps: seq<Pending>, ps': seq<Pending>, out: seq<Message>, id: string, i: int) {
    0 <= i < |ps| && ps[i].msg.corrId == id && ps' == ps[..i] + ps[i + 1..] && out == [ps[i].msg]
  }

  ghost predicate Cleared(ps: seq<Pending>, ps': seq<Pending>, out: seq<Message>, id: string) {
    || (exists i :: TakenOut(ps, ps', out, id, i))
    || (ps' == ps && out == [] && forall i :: 0 <= i < |ps| ==> ps[i].msg.corrId != id)
  }

  /** An acknowledgement takes out exactly the entry with its id. */
  lemma AckEffect(w: World, id: string)
    requires UniqueKeys(w.srv.pending)
    ensures var w' := Step(w, AckArrives(id));
      && w'.srv == w.srv.(pending := w'.srv.pending) && w'.outbox == w.outbox
      && w.acked <= w'.acked && Cleared(w.srv.pending, w'.srv.pending, w'.acked[|w.acked|..], id)
  {
    RemoveClears(w.srv.pending, id);
  }

  lemma {:induction false} RemoveClears(ps: seq<Pending>, id: string)
    requires UniqueKeys(ps)
    ensures Cleared(ps, Remove(ps, id), Removed(ps, id), id)
  {
    if ps == [] {
    } else {
      var rest := ps[1..];
      RemoveClears(rest, id);
      if ps[0].msg.corrId == id {
        RemoveAbsent(rest, id);
        assert forall i :: 0 <= i < |rest| ==> rest[i] == ps[i + 1];
        assert Removed(rest, id) == [];
        assert TakenOut(ps, Remove(ps, id), Removed(ps, id), id, 0);
      } else if i :| TakenOut(rest, Remove(rest, id), Removed(rest, id), id, i) {
        assert TakenOut(ps, Remove(ps, id), Removed(ps, id), id, i + 1);
      }
    }
  }

  // ----- a retry pass -----

  /** Is a due entry sent again rather than given up? */
  predicate Again(e: Pending) {
    Lasting(e.msg.kind) || e.retries < 3
  }

  /** The entry after being sent again at `now`. */
  predicate Rescheduled(e: Pending, e': Pending, now: real) {
    && e'.msg == e.msg && e'.cls == e.cls
    && if Lasting(e.msg.kind) then e'.retries == e.retries && e'.nextRetry == now + 0.5
       else
         && e'.retries == e.retries + 1
         && (e.retries == 0 ==> e'.nextRetry == now + 0.1)
         && (e.retries == 1 ==> e'.nextRetry == now + 0.2)
         && (e.retries == 2 ==> e'.nextRetry == now + 0.4)
  }

  /** The entries that satisfy a condition, in the order of the table. */
  function Where(ps: seq<Pending>, keep: Pending -> bool): seq<Pending> {
    if ps == [] then [] else (if keep(ps[0]) then [ps[0]] else []) + Where(ps[1..], keep)
  }

  function SentAgain(now: real): Pending -> bool {
    (e: Pending) => e.nextRetry <= now && Again(e)
  }

  function GivenUp(now: real): Pending -> bool {
    (e: Pending) => e.nextRetry <= now && !Again(e)
  }

  function NotDue(now: real): Pending -> bool {
    (e: Pending) => e.nextRetry > now
  }

  function Stays(now: real): Pending -> bool {
    (e: Pending) => e.nextRetry > now || Again(e)
  }

  /** Every entry has one of the five kinds and the class that goes with it. */
  ghost predicate Kinded(ps: seq<Pending>) {
    forall i :: 0 <= i < |ps| ==>
      if Lasting(ps[i].msg.kind) then ps[i].cls == Guaranteed else Brief(ps[i].msg.kind) && ps[i].cls == Retry
  }

  lemma InvKinded(w: World)
    requires Inv(w)
    ensures Kinded(w.srv.pending)
  {
    forall e | e in w.srv.pending ensures Acknowledged(e.msg.kind) { PlacedIsAccepted(w, e.msg); }
  }

  /** Not due: as before. Due: rescheduled. */
  ghost predicate RescheduledAll(kept: seq<Pending>, ps: seq<Pending>, now: real) {
    && |ps| == |kept|
    && forall i :: 0 <= i < |kept| ==>
         if kept[i].nextRetry > now then ps[i] == kept[i] else Rescheduled(kept[i], ps[i], now)
  }

  lemma AgedIs(e: Pending, now: real)
    requires Kinded([e])
    ensures Due(e, now) <==> e.nextRetry <= now
    ensures Expires(e, now) <==> e.nextRetry <= now && !Again(e)
    ensures if e.nextRetry > now then Aged(e, now) == e else Again(e) ==> Rescheduled(e, Aged(e, now), now)
  {
    assert [e][0] == e;
    assert Pow2(0) == 1 && Pow2(1) == 2 && Pow2(2) == 4;
  }

  lemma MessagesCons(e: Pending, ps: seq<Pending>)
    ensures Messages([e] + ps) == [e.msg] + Messages(ps)
  {
  }

  lemma {:induction false} ResendsAre(ps: seq<Pending>, now: real)
    requires Kinded(ps)
    ensures Resends(ps, now) == Messages(Where(ps, SentAgain(now)))
  {
    if ps == [] {
    } else {
      assert Kinded(ps[1..]);
      ResendsAre(ps[1..], now);
      assert [ps[0]][0] == ps[0];
      AgedIs(ps[0], now);
      MessagesCons(ps[0], Where(ps[1..], SentAgain(now)));
    }
  }

  lemma {:induction false} ExpiredAre(ps: seq<Pending>, now: real)
    requires Kinded(ps)
    ensures Expired(ps, now) == Messages(Where(ps, GivenUp(now)))
  {
    if ps == [] {
    } else {
      assert Kinded(ps[1..]);
      ExpiredAre(ps[1..], now);
      assert [ps[0]][0] == ps[0];
      AgedIs(ps[0], now);
      MessagesCons(ps[0], Where(ps[1..], GivenUp(now)));
    }
  }

  lemma {:induction false} WaitingAre(ps: seq<Pending>, now: real)
    requires Kinded(ps)
    ensures Waiting(ps, now) == Where(ps, NotDue(now))
  {
    if ps == [] {
    } else {
      assert Kinded(ps[1..]);
      WaitingAre(ps[1..], now);
      assert [ps[0]][0] == ps[0];
      AgedIs(ps[0], now);
    }
  }

  lemma {:induction false} SurvivorsAre(ps: seq<Pending>, now: real)
    requires Kinded(ps)
    ensures RescheduledAll(Where(ps, Stays(now)), Survivors(ps, now), now)
  {
    if ps == [] {
    } else {
      assert Kinded(ps[1..]);
      SurvivorsAre(ps[1..], now);
      assert [ps[0]][0] == ps[0];
      AgedIs(ps[0], now);
    }
  }

  /** With somebody connected every due entry is sent again and rescheduled, or given up. */
  lemma RetryEffectOnline(w: World, now: real)
    requires Kinded(w.srv.pending) && w.srv.clients != {}
    ensures var ps, w' := w.srv.pending, Step(w, RetryPasses(now));
      && w'.srv == w.srv.(pending := w'.srv.pending)
      && RescheduledAll(Where(ps, Stays(now)), w'.srv.pending, now)
      && w'.dropped == w.dropped + Messages(Where(ps, GivenUp(now)))
      && w'.outbox == w.outbox + multiset(Singles(Messages(Where(ps, SentAgain(now)))))
  {
    ResendsAre(w.srv.pending, now);
    ExpiredAre(w.srv.pending, now);
    SurvivorsAre(w.srv.pending, now);
  }

  /** With nobody connected every due entry leaves the table, for the queue or for good, and nothing is sent. */
  lemma RetryEffectOffline(w: World, now: real)
    requires Kinded(w.srv.pending) && w.srv.clients == {}
    ensures var ps, w' := w.srv.pending, Step(w, RetryPasses(now));
      && w'.srv == w.srv.(pending := Where(ps, NotDue(now)), offline := w'.srv.offline)
      && w'.srv.offline == w.srv.offline + Messages(Where(ps, SentAgain(now)))
      && w'.dropped == w.dropped + Messages(Where(ps, GivenUp(now)))
      && w'.outbox == w.outbox
  {
    ResendsAre(w.srv.pending, now);
    ExpiredAre(w.srv.pending, now);
    WaitingAre(w.srv.pending, now);
    OneScheduled(w, [], Batch([]));
  }

  // ----- sends that no acknowledgement answers -----

  predicate Plain(kind: Kind) {
    !Acknowledged(kind) && !Collected(kind)
  }

  ghost predicate PublishedOnline(w: World, ev: Event, m: Message) {
    ev.Publish? && ev.m == m && w.srv.clients != {}
  }

  /** How often the message was published with somebody connected. */
  ghost function Publications(evs: seq<Event>, m: Message): nat {
    |OnlineAt(H.Worlds(evs), evs, m)|
  }

  ghost predicate Unanswered(w: World, m: Message, n: nat) {
    H.CountOut(w.wire, Single(m)) + w.outbox[Single(m)] == n
  }

  lemma ResendsAcknowledged(w: World, now: real, m: Message)
    requires Inv(w) && Plain(m.kind)
    ensures m !in Resends(w.srv.pending, now)
  {
    PassElements(w.srv.pending, now);
    InvKinded(w);
  }

  lemma PublishSends(w: World, x: Message, now: real, m: Message, n: nat)
    requires UniqueKeys(w.srv.pending) && Plain(m.kind) && Unanswered(w, m, n)
    ensures Unanswered(Step(w, Publish(x, now)), m, n + if x == m && w.srv.clients != {} then 1 else 0)
  {
    var w' := Step(w, Publish(x, now));
    assert w'.wire == w.wire;
    assert w'.outbox[Single(m)] == w.outbox[Single(m)] + if x == m && w.srv.clients != {} then 1 else 0 by {
      PublishEffect(w, x, now);
    }
  }

  lemma RetrySends(w: World, now: real, m: Message, n: nat)
    requires Inv(w) && Plain(m.kind) && Unanswered(w, m, n)
    ensures Unanswered(Step(w, RetryPasses(now)), m, n)
  {
    var again := Resends(w.srv.pending, now);
    assert multiset(Singles(again))[Single(m)] == 0 by {
      ResendsAcknowledged(w, now, m);
      H.SinglesCount(again, m);
      CountMember(again, m);
    }
    var w' := Step(w, RetryPasses(now));
    assert w'.wire == w.wire;
    assert w'.outbox == w.outbox + if w.srv.clients == {} then multiset([]) else multiset(Singles(again));
  }

  lemma TransmitSends(w: World, o: Outgoing, reached: set<nat>, m: Message, n: nat)
    requires o in w.outbox && Unanswered(w, m, n)
    ensures Unanswered(Step(w, Transmit(o, reached)), m, n)
  {
    TransmitEffect(w, o, reached);
    H.CountOutSnoc(w.wire, o, Single(m));
  }

  lemma OtherSends(w: World, ev: Event, m: Message, n: nat)
    requires ev.AckArrives? || ev.BatchPasses? || ev.Connects? || ev.Disconnects?
    requires Unanswered(w, m, n)
    ensures Unanswered(Step(w, ev), m, n)
  {
    assert Step(w, ev).wire == w.wire;
    if ev.BatchPasses? { BatchPassEffect(w); }
  }

  lemma SendsOf(w: World, ev: Event, m: Message, n: nat)
    requires Inv(w) && Enabled(w, ev) && Plain(m.kind) && Unanswered(w, m, n)
    ensures Unanswered(Step(w, ev), m, n + if PublishedOnline(w, ev, m) then 1 else 0)
  {
    match ev
    case Publish(x, now) => PublishSends(w, x, now, m, n);
    case Transmit(o, reached) => TransmitSends(w, o, reached, m, n);
    case RetryPasses(now) => RetrySends(w, now, m, n);
    case _ => OtherSends(w, ev, m, n);
  }

  /** The events of a run at which the message is published with somebody connected. */
  ghost function OnlineAt(ws: seq<World>, evs: seq<Event>, m: Message): set<nat>
    requires |evs| <= |ws|
  {
    set k | 0 <= k < |evs| && PublishedOnline(ws[k], evs[k], m)
  }

  lemma OnlineAtSnoc(ws: seq<World>, w: World, evs: seq<Event>, ev: Event, m: Message)
    requires |ws| == |evs| + 1
    ensures OnlineAt(ws + [w], evs + [ev], m)
         == OnlineAt(ws, evs, m) + if PublishedOnline(ws[|evs|], ev, m) then {|evs|} else {}
  {
    var all, allEvs := ws + [w], evs + [ev];
    assert forall k :: 0 <= k < |evs| ==> all[k] == ws[k] && allEvs[k] == evs[k];
    assert all[|evs|] == ws[|evs|] && allEvs[|evs|] == ev;
  }

  lemma PublicationsSnoc(evs: seq<Event>, ev: Event, m: Message)
    ensures Publications(evs + [ev], m)
         == Publications(evs, m) + if PublishedOnline(Run(Start, evs), ev, m) then 1 else 0
  {
    H.WorldsSnoc(evs, ev);
    OnlineAtSnoc(H.Worlds(evs), Step(Run(Start, evs), ev), evs, ev, m);
  }

  /**
   After any run the sends of a message that is neither acknowledged nor batched, run or under way, are
   as many as its publications with somebody connected.
   */
  lemma {:induction false} UnackedSends(evs: seq<Event>, m: Message)
    requires ValidRun(Start, evs) && Plain(m.kind)
    ensures var w := Run(Start, evs);
      H.CountOut(w.wire, Single(m)) + w.outbox[Single(m)] == Publications(evs, m)
    decreases |evs|
  {
    if evs == [] {
    } else {
      var prev, ev := evs[..|evs| - 1], evs[|evs| - 1];
      var w := Run(Start, prev);
      assert evs == prev + [ev];
      H.RunSnoc(Start, prev, ev);
      UnackedSends(prev, m);
      RunInv(Start, prev);
      PublicationsSnoc(prev, ev, m);
      SendsOf(w, ev, m, Publications(prev, m));
    }
  }

  // ----- from publishing to the client -----

  ghost predicate CollectedAll(ms: seq<Message>) {
    forall i :: 0 <= i < |ms| ==> Collected(ms[i].kind)
  }

  /** Only collected kinds are ever in a batch. */
  ghost predicate BatchesPure(w: World) {
    CollectedAll(w.srv.batch) && forall o :: o in w.outbox && o.Batch? ==> CollectedAll(o.events)
  }

  lemma PublishPure(w: World, m: Message, now: real)
    requires BatchesPure(w) && UniqueKeys(w.srv.pending)
    ensures BatchesPure(Step(w, Publish(m, now)))
  {
    PublishEffect(w, m, now);
    assert Collected(m.kind) ==> CollectedAll(w.srv.batch + [m]);
  }

  lemma StepPure(w: World, ev: Event)
    requires BatchesPure(w) && UniqueKeys(w.srv.pending)
    ensures BatchesPure(Step(w, ev))
  {
    match ev
    case Publish(m, now) => PublishPure(w, m, now);
    case BatchPasses => BatchPassEffect(w);
    case _ =>
  }

  /** Every send of the message that has run has shown it to somebody. */
  ghost predicate AllShown(w: World, m: Message) {
    Count(w.shown, m) == H.CountOut(w.wire, Single(m))
  }

  ghost predicate Reaching(ev: Event) {
    ev.Transmit? ==> ev.reached != {}
  }

  lemma NotAmong(ms: seq<Message>, m: Message)
    requires m !in ms
    ensures Count(ms, m) == 0
  {
    CountMember(ms, m);
  }

  lemma TransmitShows(w: World, o: Outgoing, reached: set<nat>, m: Message)
    requires BatchesPure(w) && o in w.outbox && reached != {} && Plain(m.kind) && AllShown(w, m)
    ensures AllShown(Step(w, Transmit(o, reached)), m)
  {
    TransmitEffect(w, o, reached);
    H.CountOutSnoc(w.wire, o, Single(m));
    match o
    case Batch(events) =>
      NotAmong(events, m);
      CountAppend(w.shown, events, m);
    case Single(x) => CountAppend(w.shown, [x], m);
  }

  lemma StepShows(w: World, ev: Event, m: Message)
    requires Inv(w) && Enabled(w, ev) && BatchesPure(w) && Reaching(ev) && Plain(m.kind) && AllShown(w, m)
    ensures AllShown(Step(w, ev), m)
  {
    match ev
    case Transmit(o, reached) => TransmitShows(w, o, reached, m);
    case Connects(_, _, _) =>
      forall x | x in w.srv.offline ensures x != m { PlacedIsAccepted(w, x); }
      NotAmong(w.srv.offline, m);
      CountAppend(w.shown, w.srv.offline, m);
    case _ =>
      assert Step(w, ev).shown == w.shown && Step(w, ev).wire == w.wire;
  }

  lemma {:induction false} RunShows(w: World, evs: seq<Event>, m: Message)
    requires Inv(w) && ValidRun(w, evs) && BatchesPure(w) && Plain(m.kind) && AllShown(w, m)
    requires forall i :: 0 <= i < |evs| ==> Reaching(evs[i])
    ensures AllShown(Run(w, evs), m)
    decreases |evs|
  {
    if evs == [] {
    } else {
      StepShows(w, evs[0], m);
      StepPure(w, evs[0]);
      StepInv(w, evs[0]);
      RunShows(Step(w, evs[0]), evs[1..], m);
    }
  }

  lemma StartShows(m: Message)
    ensures Inv(Start) && BatchesPure(Start) && AllShown(Start, m)
  {
  }

  /**
   While every send reaches somebody, a client emits a message that is neither acknowledged nor batched
   as often as it was published with somebody connected, less the sends still under way.
   */
  lemma UnackedShown(evs: seq<Event>, m: Message)
    requires ValidRun(Start, evs) && Plain(m.kind) && forall i :: 0 <= i < |evs| ==> Reaching(evs[i])
    ensures var w := Run(Start, evs); Count(w.shown, m) + w.outbox[Single(m)] == Publications(evs, m)
  {
    var w := Run(Start, evs);
    assert AllShown(w, m) by {
      StartShows(m);
      RunShows(Start, evs, m);
    }
    UnackedSends(evs, m);
  }
}
