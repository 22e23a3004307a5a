/**
 The acknowledged-delivery server (`WSServer`) and the receiving half of the Node client.

 `Server` is the abstract value of the server's queues. Every handler of the server is a function
 from a `Server` to a `Server` together with the sends it schedules; the class `WSServer` below
 performs the same updates on fields, with the loops of the program.
 */
module Delivery {
  import opened Common

  datatype Reliability = Guaranteed | Retry | BestEffort | FireAndForget

  /** Message types; everything the protocol does not name is `Other`. */
  datatype Kind =
    | Wake | FatalError
    | SpeechStart | SpeechEnd | Error
    | PartialTranscript | HypothesisUpdate
    | Telemetry | Debug | Other(name: string)

  datatype Message = Message(kind: Kind, corrId: string, payload: string)

  /** One entry of the pending-ack table. */
  datatype Pending = Pending(msg: Message, cls: Reliability, retries: nat, nextRetry: real)

  /** One `_send_to_clients` call: a message on its own, or a batch of best-effort messages. */
  datatype Outgoing = Single(msg: Message) | Batch(events: seq<Message>)

  /** `pending` keeps the insertion order of the table; its correlation ids are its keys. */
  datatype Server = Server(clients: set<nat>, offline: seq<Message>, pending: seq<Pending>, batch: seq<Message>)

  const BATCH_LIMIT := 10
  const MAX_RETRIES := 3
  const GUARANTEED_INTERVAL := 0.5

  function Classify(kind: Kind): Reliability {
    match kind
    case Wake | FatalError => Guaranteed
    case SpeechStart | SpeechEnd | Error => Retry
    case PartialTranscript | HypothesisUpdate => BestEffort
    case _ => FireAndForget
  }

  predicate Reliable(m: Message) {
    Classify(m.kind).Guaranteed? || Classify(m.kind).Retry?
  }

  /** Delay written into the table when the counter becomes `retries`. */
  function Backoff(retries: nat): real
    requires retries >= 1
  {
    0.1 * Pow2(retries - 1) as real
  }

  // ----- the pending-ack table -----

  function Ids(ms: seq<Message>): (ids: seq<string>)
    ensures |ids| == |ms|
    ensures forall i :: 0 <= i < |ms| ==> ids[i] == ms[i].corrId
  {
    seq(|ms|, i requires 0 <= i < |ms| => ms[i].corrId)
  }

  function Messages(ps: seq<Pending>): (ms: seq<Message>)
    ensures |ms| == |ps|
    ensures forall i :: 0 <= i < |ps| ==> ms[i] == ps[i].msg
  {
    seq(|ps|, i requires 0 <= i < |ps| => ps[i].msg)
  }

  function Keys(ps: seq<Pending>): seq<string> {
    Ids(Messages(ps))
  }

  ghost predicate UniqueKeys(ps: seq<Pending>) {
    forall i, j :: 0 <= i < j < |ps| ==> ps[i].msg.corrId != ps[j].msg.corrId
  }

  /** Dictionary assignment: an existing key keeps its place, a new one goes to the end. */
  function Put(ps: seq<Pending>, e: Pending): seq<Pending> {
    if ps == [] then [e]
    else if ps[0].msg.corrId == e.msg.corrId then [e] + ps[1..]
    else [ps[0]] + Put(ps[1..], e)
  }

  function Remove(ps: seq<Pending>, id: string): seq<Pending> {
    if ps == [] then []
    else if ps[0].msg.corrId == id then Remove(ps[1..], id)
    else [ps[0]] + Remove(ps[1..], id)
  }

  predicate Due(e: Pending, now: real) {
    e.nextRetry <= now && (e.cls.Retry? || e.cls.Guaranteed?)
  }

  /** A due retry-class entry whose budget is spent. */
  predicate Expires(e: Pending, now: real) {
    Due(e, now) && e.cls.Retry? && e.retries + 1 > MAX_RETRIES
  }

  /** The in-place update of one entry by one pass of the retry loop. */
  function Aged(e: Pending, now: real): Pending {
    if !Due(e, now) then e
    else if e.cls.Guaranteed? then e.(nextRetry := now + GUARANTEED_INTERVAL)
    else if Expires(e, now) then e.(retries := e.retries + 1)
    else e.(retries := e.retries + 1, nextRetry := now + Backoff(e.retries + 1))
  }

  function Survivors(ps: seq<Pending>, now: real): seq<Pending> {
    if ps == [] then []
    else (if Expires(ps[0], now) then [] else [Aged(ps[0], now)]) + Survivors(ps[1..], now)
  }

  function Resends(ps: seq<Pending>, now: real): seq<Message> {
    if ps == [] then []
    else (if Due(ps[0], now) && !Expires(ps[0], now) then [ps[0].msg] else []) + Resends(ps[1..], now)
  }

  function Expired(ps: seq<Pending>, now: real): seq<Message> {
    if ps == [] then []
    else (if Expires(ps[0], now) then [ps[0].msg] else []) + Expired(ps[1..], now)
  }

  function Waiting(ps: seq<Pending>, now: real): seq<Pending> {
    if ps == [] then []
    else (if Due(ps[0], now) then [] else [ps[0]]) + Waiting(ps[1..], now)
  }

  // ----- the handlers, as functions -----

  function Singles(ms: seq<Message>): (out: seq<Outgoing>)
    ensures |out| == |ms|
    ensures forall i :: 0 <= i < |ms| ==> out[i] == Single(ms[i])
  {
    seq(|ms|, i requires 0 <= i < |ms| => Single(ms[i]))
  }

  /** `broadcast`: what the event-loop callback does with a message at time `now`. */
  function Broadcast(s: Server, m: Message, now: real): (Server, seq<Outgoing>) {
    match Classify(m.kind)
    case BestEffort =>
      var batch := s.batch + [m];
      if |batch| >= BATCH_LIMIT then (s.(batch := []), [Batch(batch)]) else (s.(batch := batch), [])
    case Guaranteed =>
      if s.clients == {} then (s.(offline := s.offline + [m]), [])
      else (s.(pending := Put(s.pending, Pending(m, Guaranteed, 0, now + GUARANTEED_INTERVAL))), [Single(m)])
    case Retry =>
      if s.clients == {} then (s.(offline := s.offline + [m]), [])
      else (s.(pending := Put(s.pending, Pending(m, Retry, 0, now + 0.1))), [Single(m)])
    case FireAndForget =>
      (s, if s.clients == {} then [] else [Single(m)])
  }

  /** One pass of `_retry_loop`. */
  function RetryTick(s: Server, now: real): (Server, seq<Outgoing>) {
    if s.clients == {} then
      (s.(pending := Waiting(s.pending, now), offline := s.offline + Resends(s.pending, now)), [])
    else
      (s.(pending := Survivors(s.pending, now)), Singles(Resends(s.pending, now)))
  }

  function BatchTick(s: Server): (Server, seq<Outgoing>) {
    if s.batch == [] then (s, []) else (s.(batch := []), [Batch(s.batch)])
  }

  function Ack(s: Server, id: string): Server {
    s.(pending := Remove(s.pending, id))
  }

  /** `_handler` on connect: the whole offline queue is sent once and cleared. */
  function Connect(s: Server, client: nat): (Server, seq<Outgoing>) {
    (s.(clients := s.clients + {client}, offline := []), Singles(s.offline))
  }

  function Disconnect(s: Server, client: nat): Server {
    s.(clients := s.clients - {client})
  }

  // ----- the Node client's `_handleMessage` -----

  function ClientAck(o: Outgoing): Option<string> {
    if o.Single? && o.msg.corrId != "" && Reliable(o.msg) then Some(o.msg.corrId) else None
  }

  function ClientEvents(o: Outgoing): seq<Message> {
    match o
    case Single(m) => [m]
    case Batch(events) => events
  }

  /** Acknowledges reliable messages and emits the events of a batch one by one, in order. */
  method HandleMessage(o: Outgoing) returns (ack: Option<string>, emitted: seq<Message>)
    ensures ack == ClientAck(o) && emitted == ClientEvents(o)
  {
    ack := None;
    emitted := [];
    match o
    case Single(m) =>
      if m.corrId != "" {
        var needsAck := Classify(m.kind).Guaranteed? || Classify(m.kind).Retry?;
        if needsAck { ack := Some(m.corrId); }
      }
      emitted := [m];
    case Batch(events) =>
      for i := 0 to |events|
        invariant emitted == events[..i]
      {
        emitted := emitted + [events[i]];
      }
  }

  // ----- lemmas about one pass over the table -----

  lemma {:induction false} ResendsSnoc(ps: seq<Pending>, e: Pending, now: real)
    ensures Resends(ps + [e], now) == Resends(ps, now) + (if Due(e, now) && !Expires(e, now) then [e.msg] else [])
  {
    if ps == [] {
      assert ps + [e] == [e] && [e][1..] == [];
    } else {
      var head := if Due(ps[0], now) && !Expires(ps[0], now) then [ps[0].msg] else [];
      assert (ps + [e])[0] == ps[0] && (ps + [e])[1..] == ps[1..] + [e];
      ResendsSnoc(ps[1..], e, now);
      assert Resends(ps + [e], now) == head + Resends(ps[1..] + [e], now);
    }
  }

  lemma {:induction false} ExpiredSnoc(ps: seq<Pending>, e: Pending, now: real)
    ensures Expired(ps + [e], now) == Expired(ps, now) + (if Expires(e, now) then [e.msg] else [])
  {
    if ps == [] {
      assert ps + [e] == [e] && [e][1..] == [];
    } else {
      var head := if Expires(ps[0], now) then [ps[0].msg] else [];
      assert (ps + [e])[0] == ps[0] && (ps + [e])[1..] == ps[1..] + [e];
      ExpiredSnoc(ps[1..], e, now);
      assert Expired(ps + [e], now) == head + Expired(ps[1..] + [e], now);
    }
  }

  lemma IdsSnoc(ms: seq<Message>, m: Message)
    ensures Ids(ms + [m]) == Ids(ms) + [m.corrId]
  {
  }

  /** What the scan has collected after one more entry. */
  lemma CollectedSnoc(ps: seq<Pending>, i: nat, now: real)
    requires i < |ps|
    ensures Resends(ps[..i + 1], now)
         == Resends(ps[..i], now) + (if Due(ps[i], now) && !Expires(ps[i], now) then [ps[i].msg] else [])
    ensures Ids(Expired(ps[..i + 1], now))
         == Ids(Expired(ps[..i], now)) + (if Expires(ps[i], now) then [ps[i].msg.corrId] else [])
  {
    assert ps[..i + 1] == ps[..i] + [ps[i]];
    ResendsSnoc(ps[..i], ps[i], now);
    ExpiredSnoc(ps[..i], ps[i], now);
    IdsSnoc(Expired(ps[..i], now), ps[i].msg);
    assert Expired(ps[..i], now) + [] == Expired(ps[..i], now);
  }

  /** Where `Put` writes: the first entry with the key, or the end. */
  lemma {:induction false} PutAt(ps: seq<Pending>, e: Pending, i: nat)
    requires i <= |ps| && forall k :: 0 <= k < i ==> ps[k].msg.corrId != e.msg.corrId
    requires i < |ps| ==> ps[i].msg.corrId == e.msg.corrId
    ensures Put(ps, e) == if i < |ps| then ps[i := e] else ps + [e]
  {
    if i == 0 {
    } else {
      PutAt(ps[1..], e, i - 1);
    }
  }

  lemma {:induction false} RemoveAbsent(ps: seq<Pending>, id: string)
    requires forall i :: 0 <= i < |ps| ==> ps[i].msg.corrId != id
    ensures Remove(ps, id) == ps
  {
    if ps == [] {
    } else {
      RemoveAbsent(ps[1..], id);
    }
  }

  lemma {:induction false} RemoveElements(ps: seq<Pending>, id: string)
    ensures forall e :: e in Remove(ps, id) <==> e in ps && e.msg.corrId != id
    ensures UniqueKeys(ps) ==> UniqueKeys(Remove(ps, id))
  {
    if ps == [] {
    } else {
      RemoveElements(ps[1..], id);
      assert forall e :: e in ps <==> e == ps[0] || e in ps[1..];
      if UniqueKeys(ps) {
        var r := Remove(ps[1..], id);
        forall i | 0 <= i < |r| ensures r[i].msg.corrId != ps[0].msg.corrId {
          assert r[i] in ps[1..];
        }
      }
    }
  }

  lemma {:induction false} PutMembers(ps: seq<Pending>, e: Pending)
    requires UniqueKeys(ps)
    ensures forall x :: x in Put(ps, e) <==> x == e || (x in ps && x.msg.corrId != e.msg.corrId)
  {
    if ps == [] {
    } else {
      assert forall x :: x in ps <==> x == ps[0] || x in ps[1..];
      if ps[0].msg.corrId == e.msg.corrId {
        assert forall x :: x in Put(ps, e) <==> x == e || x in ps[1..];
      } else {
        PutMembers(ps[1..], e);
        assert forall x :: x in Put(ps, e) <==> x == ps[0] || x in Put(ps[1..], e);
      }
    }
  }

  lemma {:induction false} PutUnique(ps: seq<Pending>, e: Pending)
    requires UniqueKeys(ps)
    ensures UniqueKeys(Put(ps, e))
  {
    if ps != [] && ps[0].msg.corrId != e.msg.corrId {
      PutUnique(ps[1..], e);
      PutMembers(ps[1..], e);
      var r := Put(ps[1..], e);
      forall i | 0 <= i < |r| ensures r[i].msg.corrId != ps[0].msg.corrId {
        assert r[i] in r;
      }
    }
  }

  datatype Verdict = Resend | Drop

  /** The body of the retry loop for one due entry. */
  method AgeEntry(e: Pending, now: real) returns (aged: Pending, verdict: Verdict)
    requires Due(e, now)
    ensures aged == Aged(e, now)
    ensures verdict.Drop? <==> Expires(e, now)
  {
    aged, verdict := e, Resend;
    if e.cls.Retry? {
      aged := aged.(retries := aged.retries + 1);
      if aged.retries > MAX_RETRIES {
        verdict := Drop;
      } else {
        aged := aged.(nextRetry := now + Backoff(aged.retries));
      }
    } else if e.cls.Guaranteed? {
      aged := aged.(nextRetry := now + GUARANTEED_INTERVAL);
    }
  }

  // ----- the server object -----

  class WSServer {
    var clients: set<nat>
    var offlineQueue: seq<Message>
    var pendingAcks: seq<Pending>
    var bestEffortBatch: seq<Message>

    ghost predicate Valid()
      reads this
    {
      UniqueKeys(pendingAcks) && forall e :: e in pendingAcks ==> e.cls.Retry? || e.cls.Guaranteed?
    }

    ghost function State(): Server
      reads this
    {
      Server(clients, offlineQueue, pendingAcks, bestEffortBatch)
    }

    constructor ()
      ensures Valid() && State() == Server({}, [], [], [])
    {
      clients, offlineQueue, pendingAcks, bestEffortBatch := {}, [], [], [];
    }

    /** Assigns one entry of the pending-ack table. */
    method SetPending(e: Pending)
      modifies this`pendingAcks
      ensures pendingAcks == Put(old(pendingAcks), e)
    {
      var i := 0;
      while i < |pendingAcks| && pendingAcks[i].msg.corrId != e.msg.corrId
        invariant 0 <= i <= |pendingAcks|
        invariant forall k :: 0 <= k < i ==> pendingAcks[k].msg.corrId != e.msg.corrId
      {
        i := i + 1;
      }
      PutAt(pendingAcks, e, i);
      if i < |pendingAcks| {
        pendingAcks := pendingAcks[i := e];
      } else {
        pendingAcks := pendingAcks + [e];
      }
    }

    method BroadcastMessage(m: Message, now: real) returns (sends: seq<Outgoing>)
      requires Valid()
      modifies this
      ensures Valid()
      ensures (State(), sends) == Broadcast(old(State()), m, now)
    {
      sends := [];
      var cls := Classify(m.kind);
      if cls.BestEffort? {
        bestEffortBatch := bestEffortBatch + [m];
        if |bestEffortBatch| >= BATCH_LIMIT {
          sends := [Batch(bestEffortBatch)];
          bestEffortBatch := [];
        }
        return;
      }
      if cls.Guaranteed? || cls.Retry? {
        if clients == {} {
          offlineQueue := offlineQueue + [m];
          return;
        }
        var e := Pending(m, cls, 0, now + if cls.Guaranteed? then GUARANTEED_INTERVAL else 0.1);
        PutMembers(pendingAcks, e);
        PutUnique(pendingAcks, e);
        SetPending(e);
      }
      if clients != {} {
        sends := [Single(m)];
      }
    }

    method HandleAck(id: string)
      requires Valid()
      modifies this`pendingAcks
      ensures Valid() && State() == Ack(old(State()), id)
    {
      DeletePending(id);
      RemoveElements(old(pendingAcks), id);
    }

    /** `del pending_acks[id]` when the key is there, nothing otherwise. */
    method DeletePending(id: string)
      requires UniqueKeys(pendingAcks)
      modifies this`pendingAcks
      ensures pendingAcks == Remove(old(pendingAcks), id)
    {
      ghost var ps := pendingAcks;
      var i := 0;
      while i < |pendingAcks| && pendingAcks[i].msg.corrId != id
        invariant 0 <= i <= |ps| && pendingAcks == ps
        invariant Remove(ps, id) == ps[..i] + Remove(ps[i..], id)
      {
        assert ps[i..][1..] == ps[i + 1..];
        i := i + 1;
      }
      if i < |pendingAcks| {
        assert ps[i..][1..] == ps[i + 1..];
        RemoveAbsent(ps[i + 1..], id);
        pendingAcks := pendingAcks[..i] + pendingAcks[i + 1..];
      }
    }

    method RetryPass(now: real) returns (sends: seq<Outgoing>)
      requires Valid()
      modifies this
      ensures Valid()
      ensures (State(), sends) == RetryTick(old(State()), now)
    {
      ghost var ps := pendingAcks;
      var toRetry, toDrop := ScanDue(now);
      ghost var aged := pendingAcks;
      AgedKeepsKeys(ps, aged, now);
      var i := 0;
      while i < |toDrop|
        invariant 0 <= i <= |toDrop|
        invariant UniqueKeys(pendingAcks)
        invariant pendingAcks == RemoveAll(aged, toDrop[..i])
        invariant clients == old(clients)
        invariant offlineQueue == old(offlineQueue) && bestEffortBatch == old(bestEffortBatch)
      {
        assert toDrop[..i + 1] == toDrop[..i] + [toDrop[i]];
        RemoveElements(pendingAcks, toDrop[i]);
        DeletePending(toDrop[i]);
        i := i + 1;
      }
      assert toDrop[..i] == toDrop;
      DroppedAreExpired(ps, aged, now);
      sends := [];
      if toRetry != [] {
        if clients == {} {
          MoveOffline(toRetry);
        } else {
          sends := Singles(toRetry);
        }
      } else {
        assert Singles(toRetry) == [];
        assert old(offlineQueue) + toRetry == offlineQueue;
      }
      OfflineLeavesWaiting(ps, now);
      SurvivorsValid(ps, now);
      PassElements(ps, now);
    }

    /** The scan of the table: ages the due entries and collects what to resend and what to drop. */
    method ScanDue(now: real) returns (toRetry: seq<Message>, toDrop: seq<string>)
      requires Valid()
      modifies this`pendingAcks
      ensures |pendingAcks| == |old(pendingAcks)|
      ensures forall k :: 0 <= k < |pendingAcks| ==> pendingAcks[k] == Aged(old(pendingAcks)[k], now)
      ensures toRetry == Resends(old(pendingAcks), now) && toDrop == Ids(Expired(old(pendingAcks), now))
    {
      ghost var ps := pendingAcks;
      toRetry, toDrop := [], [];
      var i := 0;
      while i < |pendingAcks|
        invariant 0 <= i <= |ps| == |pendingAcks|
        invariant forall k :: 0 <= k < i ==> pendingAcks[k] == Aged(ps[k], now)
        invariant forall k :: i <= k < |ps| ==> pendingAcks[k] == ps[k]
        invariant toRetry == Resends(ps[..i], now) && toDrop == Ids(Expired(ps[..i], now))
      {
        CollectedSnoc(ps, i, now);
        var e := pendingAcks[i];
        assert e in ps;
        if e.nextRetry <= now {
          var aged, verdict := AgeEntry(e, now);
          if verdict.Drop? {
            toDrop := toDrop + [e.msg.corrId];
          } else {
            toRetry := toRetry + [e.msg];
          }
          pendingAcks := pendingAcks[i := aged];
        }
        i := i + 1;
      }
      assert ps[..i] == ps;
    }

    /** With nobody connected, what was due leaves the table and joins the offline queue. */
    method MoveOffline(toRetry: seq<Message>)
      requires UniqueKeys(pendingAcks)
      modifies this`pendingAcks, this`offlineQueue
      ensures offlineQueue == old(offlineQueue) + toRetry
      ensures pendingAcks == RemoveAll(old(pendingAcks), Ids(toRetry))
      ensures UniqueKeys(pendingAcks)
    {
      ghost var ids := Ids(toRetry);
      for i := 0 to |toRetry|
        invariant offlineQueue == old(offlineQueue) + toRetry[..i]
        invariant pendingAcks == RemoveAll(old(pendingAcks), ids[..i])
        invariant UniqueKeys(pendingAcks)
      {
        assert ids[..i + 1] == ids[..i] + [toRetry[i].corrId];
        RemoveElements(pendingAcks, toRetry[i].corrId);
        DeletePending(toRetry[i].corrId);
        offlineQueue := offlineQueue + [toRetry[i]];
      }
      assert ids[..|toRetry|] == ids;
    }

    method BatchPass() returns (sends: seq<Outgoing>)
      requires Valid()
      modifies this`bestEffortBatch
      ensures Valid()
      ensures (State(), sends) == BatchTick(old(State()))
    {
      sends := [];
      if bestEffortBatch != [] {
        sends := [Batch(bestEffortBatch)];
        bestEffortBatch := [];
      }
    }

    method ClientConnected(client: nat) returns (sends: seq<Outgoing>)
      requires Valid()
      modifies this`clients, this`offlineQueue
      ensures Valid()
      ensures (State(), sends) == Connect(old(State()), client)
    {
      clients := clients + {client};
      sends := [];
      if offlineQueue != [] {
        for i := 0 to |offlineQueue|
          invariant sends == Singles(offlineQueue[..i])
          invariant offlineQueue == old(offlineQueue)
        {
          sends := sends + [Single(offlineQueue[i])];
        }
        assert offlineQueue[..|offlineQueue|] == offlineQueue;
        offlineQueue := [];
      }
    }

    method ClientGone(client: nat)
      requires Valid()
      modifies this`clients
      ensures Valid() && State() == Disconnect(old(State()), client)
    {
      clients := clients - {client};
    }
  }

  /** Removal of several keys, one after the other. */
  function RemoveAll(ps: seq<Pending>, ids: seq<string>): seq<Pending> {
    if ids == [] then ps else Remove(RemoveAll(ps, ids[..|ids| - 1]), ids[|ids| - 1])
  }

  function Without(ps: seq<Pending>, ids: seq<string>): seq<Pending> {
    if ps == [] then []
    else (if ps[0].msg.corrId in ids then [] else [ps[0]]) + Without(ps[1..], ids)
  }

  lemma {:induction false} WithoutOneMore(ps: seq<Pending>, ids: seq<string>, id: string)
    ensures Without(ps, ids + [id]) == Remove(Without(ps, ids), id)
  {
    if ps == [] {
    } else {
      WithoutOneMore(ps[1..], ids, id);
      var head := if ps[0].msg.corrId in ids then [] else [ps[0]];
      assert (head + Without(ps[1..], ids))[|head|..] == Without(ps[1..], ids);
    }
  }

  lemma {:induction false} WithoutNone(ps: seq<Pending>)
    ensures Without(ps, []) == ps
  {
    if ps == [] {
    } else {
      WithoutNone(ps[1..]);
    }
  }

  lemma {:induction false} RemoveAllIsWithout(ps: seq<Pending>, ids: seq<string>)
    ensures RemoveAll(ps, ids) == Without(ps, ids)
  {
    if ids == [] {
      WithoutNone(ps);
    } else {
      var n := |ids| - 1;
      RemoveAllIsWithout(ps, ids[..n]);
      WithoutOneMore(ps, ids[..n], ids[n]);
      assert ids[..n] + [ids[n]] == ids;
    }
  }

  lemma {:induction false} PassElements(ps: seq<Pending>, now: real)
    ensures forall m :: m in Expired(ps, now) <==> exists e :: e in ps && e.msg == m && Expires(e, now)
    ensures forall m :: m in Resends(ps, now) <==> exists e :: e in ps && e.msg == m && Due(e, now) && !Expires(e, now)
    ensures forall e :: e in Waiting(ps, now) <==> e in ps && !Due(e, now)
    ensures forall e :: e in Survivors(ps, now) <==> exists x :: x in ps && !Expires(x, now) && e == Aged(x, now)
  {
    if ps == [] {
    } else {
      PassElements(ps[1..], now);
      assert forall e :: e in ps <==> e == ps[0] || e in ps[1..];
    }
  }

  /** With unique keys, membership of a key among the collected ids is decided by its own entry. */
  lemma CollectedKeys(ps: seq<Pending>, now: real)
    requires UniqueKeys(ps)
    ensures forall e :: e in ps ==> (e.msg.corrId in Ids(Expired(ps, now)) <==> Expires(e, now))
    ensures forall e :: e in ps ==> (e.msg.corrId in Ids(Resends(ps, now)) <==> Due(e, now) && !Expires(e, now))
  {
    PassElements(ps, now);
    forall e | e in ps
      ensures e.msg.corrId in Ids(Expired(ps, now)) <==> Expires(e, now)
      ensures e.msg.corrId in Ids(Resends(ps, now)) <==> Due(e, now) && !Expires(e, now)
    {
      var ex, re := Expired(ps, now), Resends(ps, now);
      if Expires(e, now) {
        assert e.msg in ex;
        var k :| 0 <= k < |ex| && ex[k] == e.msg;
        assert Ids(ex)[k] == e.msg.corrId;
      }
      if Due(e, now) && !Expires(e, now) {
        assert e.msg in re;
        var k :| 0 <= k < |re| && re[k] == e.msg;
        assert Ids(re)[k] == e.msg.corrId;
      }
      if e.msg.corrId in Ids(ex) {
        var k :| 0 <= k < |ex| && Ids(ex)[k] == e.msg.corrId;
        assert ex[k] in ex;
      }
      if e.msg.corrId in Ids(re) {
        var k :| 0 <= k < |re| && Ids(re)[k] == e.msg.corrId;
        assert re[k] in re;
      }
    }
  }

  lemma {:induction false} WithoutExpired(ps: seq<Pending>, aged: seq<Pending>, ids: seq<string>, now: real)
    requires |aged| == |ps| && forall i :: 0 <= i < |ps| ==> aged[i] == Aged(ps[i], now)
    requires forall i :: 0 <= i < |ps| ==> (ps[i].msg.corrId in ids <==> Expires(ps[i], now))
    ensures Without(aged, ids) == Survivors(ps, now)
  {
    if ps == [] {
    } else {
      WithoutExpired(ps[1..], aged[1..], ids, now);
    }
  }

  lemma {:induction false} WithoutResent(ps: seq<Pending>, ids: seq<string>, now: real)
    requires forall i :: 0 <= i < |ps| ==> (ps[i].msg.corrId in ids <==> Due(ps[i], now) && !Expires(ps[i], now))
    ensures Without(Survivors(ps, now), ids) == Waiting(ps, now)
  {
    if ps == [] {
    } else {
      WithoutResent(ps[1..], ids, now);
      var head := if Expires(ps[0], now) then [] else [Aged(ps[0], now)];
      assert (head + Survivors(ps[1..], now))[|head|..] == Survivors(ps[1..], now);
    }
  }

  lemma AgedKeepsKeys(ps: seq<Pending>, aged: seq<Pending>, now: real)
    requires UniqueKeys(ps)
    requires |aged| == |ps| && forall i :: 0 <= i < |ps| ==> aged[i] == Aged(ps[i], now)
    ensures UniqueKeys(aged)
  {
  }

  lemma DroppedAreExpired(ps: seq<Pending>, aged: seq<Pending>, now: real)
    requires UniqueKeys(ps)
    requires |aged| == |ps| && forall i :: 0 <= i < |ps| ==> aged[i] == Aged(ps[i], now)
    ensures RemoveAll(aged, Ids(Expired(ps, now))) == Survivors(ps, now)
  {
    var ids := Ids(Expired(ps, now));
    CollectedKeys(ps, now);
    RemoveAllIsWithout(aged, ids);
    WithoutExpired(ps, aged, ids, now);
  }

  lemma OfflineLeavesWaiting(ps: seq<Pending>, now: real)
    requires UniqueKeys(ps)
    ensures RemoveAll(Survivors(ps, now), Ids(Resends(ps, now))) == Waiting(ps, now)
    ensures Resends(ps, now) == [] ==> Survivors(ps, now) == Waiting(ps, now)
  {
    var ids := Ids(Resends(ps, now));
    CollectedKeys(ps, now);
    RemoveAllIsWithout(Survivors(ps, now), ids);
    WithoutResent(ps, ids, now);
    if Resends(ps, now) == [] {
      assert ids == [];
    }
  }

  lemma {:induction false} SurvivorsValid(ps: seq<Pending>, now: real)
    requires UniqueKeys(ps)
    ensures UniqueKeys(Survivors(ps, now)) && UniqueKeys(Waiting(ps, now))
  {
    if ps == [] {
    } else {
      SurvivorsValid(ps[1..], now);
      PassElements(ps[1..], now);
      var s, w := Survivors(ps[1..], now), Waiting(ps[1..], now);
      forall i | 0 <= i < |s| ensures s[i].msg.corrId != ps[0].msg.corrId {
        assert s[i] in s;
      }
      forall i | 0 <= i < |w| ensures w[i].msg.corrId != ps[0].msg.corrId {
        assert w[i] in w;
      }
    }
  }
}
