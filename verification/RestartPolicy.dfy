/**
 The supervisor's sliding-window restart throttle. Restarts after a worker exit ask the policy first;
 restarts after a stale heartbeat are recorded without asking.

 Main result: any `maxRestarts + 1` permitted restarts span more than the window, whatever unguarded
 restarts happen in between (`GuardedRestartsSpread`).
 */
module RestartPolicy {

  /** What popping expired timestamps from the front leaves. */
  function Purged(ts: seq<real>, now: real, window: real): seq<real> {
    if ts != [] && now - ts[0] > window then Purged(ts[1..], now, window) else ts
  }

  ghost predicate Ascending(ts: seq<real>) {
    forall i, j :: 0 <= i < j < |ts| ==> ts[i] <= ts[j]
  }

  /** How many recorded restarts lie in the window that ends at `now`. */
  function CountWithin(ts: seq<real>, now: real, window: real): nat {
    if ts == [] then 0 else (if now - ts[0] > window then 0 else 1) + CountWithin(ts[1..], now, window)
  }

  class Policy {
    const maxRestarts: int
    const windowS: real
    var timestamps: seq<real>

    constructor (maxRestarts: int, windowS: real)
      ensures this.maxRestarts == maxRestarts && this.windowS == windowS && timestamps == []
    {
      this.maxRestarts, this.windowS, timestamps := maxRestarts, windowS, [];
    }

    method RecordRestart(now: real)
      modifies this
      ensures timestamps == Purged(old(timestamps) + [now], now, windowS)
    {
      timestamps := timestamps + [now];
      DropExpired(now);
    }

    method CanRestart(now: real) returns (allowed: bool)
      modifies this
      ensures timestamps == Purged(old(timestamps), now, windowS)
      ensures allowed <==> |timestamps| < maxRestarts
    {
      DropExpired(now);
      allowed := |timestamps| < maxRestarts;
    }

    method DropExpired(now: real)
      modifies this
      ensures timestamps == Purged(old(timestamps), now, windowS)
    {
      while timestamps != [] && now - timestamps[0] > windowS
        invariant Purged(timestamps, now, windowS) == Purged(old(timestamps), now, windowS)
        decreases |timestamps|
      {
        timestamps := timestamps[1..];
      }
    }

    /** `Supervisor._handle_worker_exit`: restart only with the policy's leave. */
    method HandleWorkerExit(check: real, record: real) returns (restarted: bool)
      modifies this
      ensures (timestamps, restarted) == AfterExit(old(timestamps), maxRestarts, windowS, check, record)
    {
      restarted := CanRestart(check);
      if restarted {
        RecordRestart(record);
      }
    }
  }

  function AfterExit(ts: seq<real>, maxRestarts: int, window: real, check: real, record: real): (seq<real>, bool) {
    var kept := Purged(ts, check, window);
    if |kept| < maxRestarts then (Purged(kept + [record], record, window), true) else (kept, false)
  }

  // ----- runs of one policy object -----

  /** `WorkerExit` reads the clock twice, once for the guard and once for the record. */
  datatype Event = WorkerExit(check: real, record: real) | HeartbeatStale(now: real)

  /** A permitted restart: when the guard was asked, and where its record is in `history`. */
  datatype Grant = Grant(check: real, index: nat)

  datatype Run = Run(timestamps: seq<real>, clock: real, history: seq<real>, grants: seq<Grant>)

  const Fresh := Run([], 0.0, [], [])

  predicate Enabled(r: Run, ev: Event) {
    match ev
    case WorkerExit(check, record) => r.clock <= check <= record
    case HeartbeatStale(now) => r.clock <= now
  }

  function Step(r: Run, ev: Event, maxRestarts: int, window: real): Run {
    match ev
    case WorkerExit(check, record) =>
      var (ts, restarted) := AfterExit(r.timestamps, maxRestarts, window, check, record);
      if restarted then Run(ts, record, r.history + [record], r.grants + [Grant(check, |r.history|)])
      else r.(timestamps := ts, clock := check)
    case HeartbeatStale(now) =>
      r.(timestamps := Purged(r.timestamps + [now], now, window), clock := now, history := r.history + [now])
  }

  ghost predicate ValidRun(r: Run, evs: seq<Event>, maxRestarts: int, window: real)
    decreases |evs|
  {
    evs == [] || (Enabled(r, evs[0]) && ValidRun(Step(r, evs[0], maxRestarts, window), evs[1..], maxRestarts, window))
  }

  function Exec(r: Run, evs: seq<Event>, maxRestarts: int, window: real): Run
    decreases |evs|
  {
    if evs == [] then r else Exec(Step(r, evs[0], maxRestarts, window), evs[1..], maxRestarts, window)
  }

  // ----- the invariant -----

  /** The deque is a suffix of the history, and what it lost is outside the window for good. */
  ghost predicate Tracks(r: Run, window: real) {
    && Ascending(r.history)
    && (forall i :: 0 <= i < |r.history| ==> r.history[i] <= r.clock)
    && |r.timestamps| <= |r.history|
    && r.timestamps == r.history[|r.history| - |r.timestamps|..]
    && forall i :: 0 <= i < |r.history| - |r.timestamps| ==> r.clock - r.history[i] > window
  }

  ghost predicate GrantsInOrder(r: Run) {
    && (forall g :: g in r.grants ==> g.index < |r.history|)
    && forall i, j :: 0 <= i < j < |r.grants| ==> r.grants[i].index < r.grants[j].index
  }

  ghost predicate Spread(r: Run, maxRestarts: int, window: real)
    requires GrantsInOrder(r)
  {
    forall i, j :: 0 <= i < j < |r.grants| && j - i >= maxRestarts ==>
      r.grants[j].check - r.history[r.grants[i].index] > window
  }

  /** Purging by the front test equals keeping the window, and it leaves a suffix. */
  lemma {:induction false} PurgedSuffix(ts: seq<real>, now: real, window: real)
    requires Ascending(ts)
    ensures var p := Purged(ts, now, window);
      && |p| <= |ts| && p == ts[|ts| - |p|..]
      && (forall i :: 0 <= i < |ts| - |p| ==> now - ts[i] > window)
      && (forall i :: 0 <= i < |p| ==> now - p[i] <= window)
      && |p| == CountWithin(ts, now, window)
  {
    if ts == [] {
    } else {
      if now - ts[0] > window {
        PurgedSuffix(ts[1..], now, window);
      } else {
        CountAll(ts, now, window);
      }
    }
  }

  lemma {:induction false} CountAll(ts: seq<real>, now: real, window: real)
    requires forall i :: 0 <= i < |ts| ==> now - ts[i] <= window
    ensures CountWithin(ts, now, window) == |ts|
  {
    if ts == [] {
    } else {
      CountAll(ts[1..], now, window);
    }
  }

  lemma {:induction false} CountSuffix(ts: seq<real>, k: nat, now: real, window: real)
    requires k <= |ts| && forall i :: 0 <= i < k ==> now - ts[i] > window
    ensures CountWithin(ts, now, window) == CountWithin(ts[k..], now, window)
  {
    if k == 0 {
    } else {
      CountSuffix(ts[1..], k - 1, now, window);
      assert ts[1..][k - 1..] == ts[k..];
    }
  }

  /** Purging a suffix of the history gives a shorter suffix of it. */
  lemma PurgedHistory(h: seq<real>, k: nat, now: real, window: real)
    requires k <= |h| && Ascending(h) && forall i :: 0 <= i < k ==> now - h[i] > window
    ensures var p := Purged(h[k..], now, window);
      && |p| <= |h| && p == h[|h| - |p|..]
      && (forall i :: 0 <= i < |h| - |p| ==> now - h[i] > window)
      && |p| == CountWithin(h, now, window)
  {
    var ts := h[k..];
    PurgedSuffix(ts, now, window);
    CountSuffix(h, k, now, window);
    var p := Purged(ts, now, window);
    forall i | 0 <= i < |h| - |p| ensures now - h[i] > window {
      if i >= k { assert h[i] == ts[i - k]; }
    }
  }

  lemma PurgeTracks(r: Run, now: real, window: real)
    requires Tracks(r, window) && now >= r.clock
    ensures Tracks(r.(timestamps := Purged(r.timestamps, now, window), clock := now), window)
    ensures |Purged(r.timestamps, now, window)| == CountWithin(r.history, now, window)
  {
    PurgedHistory(r.history, |r.history| - |r.timestamps|, now, window);
  }

  lemma RecordTracks(r: Run, now: real, window: real)
    requires Tracks(r, window) && now >= r.clock
    ensures var timestamps := Purged(r.timestamps + [now], now, window);
      Tracks(r.(timestamps := timestamps, clock := now, history := r.history + [now]), window)
  {
    var r1 := r.(timestamps := r.timestamps + [now], clock := now, history := r.history + [now]);
    assert r1.timestamps == r1.history[|r1.history| - |r1.timestamps|..];
    PurgeTracks(r1, now, window);
  }

  /** Permitted restarts occupy distinct places of the history. */
  lemma {:induction false} GrantsFill(r: Run, i: nat)
    requires GrantsInOrder(r) && i < |r.grants|
    ensures |r.history| - r.grants[i].index >= |r.grants| - i
    decreases |r.grants| - i
  {
    if i + 1 < |r.grants| { GrantsFill(r, i + 1); }
  }

  /** The guard says yes exactly when fewer than `maxRestarts` restarts lie in the window before it. */
  lemma GuardCountsWindow(r: Run, check: real, record: real, maxRestarts: int, window: real)
    requires Tracks(r, window) && r.clock <= check <= record
    ensures AfterExit(r.timestamps, maxRestarts, window, check, record).1
       <==> CountWithin(r.history, check, window) < maxRestarts
  {
    PurgeTracks(r, check, window);
  }

  lemma GrantSpreads(r: Run, check: real, record: real, maxRestarts: int, window: real, i: nat)
    requires Tracks(r, window) && GrantsInOrder(r) && r.clock <= check <= record
    requires |Purged(r.timestamps, check, window)| < maxRestarts
    requires i < |r.grants| && |r.grants| - i >= maxRestarts
    ensures check - r.history[r.grants[i].index] > window
  {
    PurgeTracks(r, check, window);
    GrantsFill(r, i);
    var k := |r.history| - |Purged(r.timestamps, check, window)|;
    assert r.grants[i].index < k;
  }

  ghost predicate Inv(r: Run, maxRestarts: int, window: real) {
    Tracks(r, window) && GrantsInOrder(r) && Spread(r, maxRestarts, window)
  }

  lemma GrantInv(r: Run, check: real, record: real, maxRestarts: int, window: real)
    requires Inv(r, maxRestarts, window) && r.clock <= check <= record
    requires |Purged(r.timestamps, check, window)| < maxRestarts
    ensures Inv(Step(r, WorkerExit(check, record), maxRestarts, window), maxRestarts, window)
  {
    var r' := Step(r, WorkerExit(check, record), maxRestarts, window);
    PurgeTracks(r, check, window);
    RecordTracks(r.(timestamps := Purged(r.timestamps, check, window), clock := check), record, window);
    GrantKeepsOrder(r, r', check, record);
    forall i, j | 0 <= i < j < |r'.grants| && j - i >= maxRestarts
      ensures r'.grants[j].check - r'.history[r'.grants[i].index] > window
    {
      if j == |r.grants| { GrantSpreads(r, check, record, maxRestarts, window, i); }
    }
  }

  lemma GrantKeepsOrder(r: Run, r': Run, check: real, record: real)
    requires GrantsInOrder(r)
    requires r'.history == r.history + [record] && r'.grants == r.grants + [Grant(check, |r.history|)]
    ensures GrantsInOrder(r')
  {
  }

  lemma StepInv(r: Run, ev: Event, maxRestarts: int, window: real)
    requires Inv(r, maxRestarts, window) && Enabled(r, ev)
    ensures Inv(Step(r, ev, maxRestarts, window), maxRestarts, window)
  {
    match ev
    case HeartbeatStale(now) => RecordTracks(r, now, window);
    case WorkerExit(check, record) =>
      if |Purged(r.timestamps, check, window)| < maxRestarts {
        GrantInv(r, check, record, maxRestarts, window);
      } else {
        PurgeTracks(r, check, window);
      }
  }

  lemma {:induction false} RunInv(r: Run, evs: seq<Event>, maxRestarts: int, window: real)
    requires Inv(r, maxRestarts, window) && ValidRun(r, evs, maxRestarts, window)
    ensures Inv(Exec(r, evs, maxRestarts, window), maxRestarts, window)
    decreases |evs|
  {
    if evs == [] {
    } else {
      StepInv(r, evs[0], maxRestarts, window);
      RunInv(Step(r, evs[0], maxRestarts, window), evs[1..], maxRestarts, window);
    }
  }

  /**
   In every run, a permitted restart comes more than a window after the restart that was permitted
   `maxRestarts` grants earlier, so `maxRestarts + 1` of them never fit into one window.
   */
  lemma GuardedRestartsSpread(evs: seq<Event>, maxRestarts: int, window: real, i: nat, j: nat)
    requires ValidRun(Fresh, evs, maxRestarts, window)
    requires i < j < |Exec(Fresh, evs, maxRestarts, window).grants| && j - i >= maxRestarts
    ensures var r := Exec(Fresh, evs, maxRestarts, window);
      && r.grants[i].index < |r.history|
      && r.grants[j].check - r.history[r.grants[i].index] > window
  {
    RunInv(Fresh, evs, maxRestarts, window);
  }

  /** The deque holds exactly the restarts of the window that ends at the last event, in order. */
  ghost predicate IsWindow(r: Run, window: real) {
    exists k ::
      && 0 <= k <= |r.history| && r.timestamps == r.history[k..]
      && (forall i :: 0 <= i < k ==> r.clock - r.history[i] > window)
      && (forall i :: k <= i < |r.history| ==> r.clock - r.history[i] <= window)
  }

  ghost predicate AllInside(r: Run, window: real) {
    forall i :: 0 <= i < |r.timestamps| ==> r.clock - r.timestamps[i] <= window
  }

  lemma InsideIsWindow(r: Run, window: real)
    requires Tracks(r, window) && AllInside(r, window)
    ensures IsWindow(r, window)
  {
    var k := |r.history| - |r.timestamps|;
    forall i | k <= i < |r.history| ensures r.clock - r.history[i] <= window {
      assert r.history[i] == r.timestamps[i - k];
    }
    assert r.timestamps == r.history[k..];
  }

  /** Every event drops what has left the window, whether it restarts or not. */
  lemma EventPurges(r: Run, ev: Event, maxRestarts: int, window: real)
    requires Tracks(r, window) && Enabled(r, ev)
    ensures AllInside(Step(r, ev, maxRestarts, window), window)
  {
    RecentAscends(r, window);
    match ev
    case HeartbeatStale(now) => PurgeLeavesRecent(r.timestamps, [now], now, window);
    case WorkerExit(check, record) =>
      assert r.timestamps + [] == r.timestamps;
      PurgeLeavesRecent(r.timestamps, [], check, window);
      PurgeLeavesRecent(Purged(r.timestamps, check, window), [record], record, window);
  }

  lemma RecentAscends(r: Run, window: real)
    requires Tracks(r, window)
    ensures Ascending(r.timestamps) && forall i :: 0 <= i < |r.timestamps| ==> r.timestamps[i] <= r.clock
  {
  }

  lemma PurgeLeavesRecent(ts: seq<real>, more: seq<real>, now: real, window: real)
    requires Ascending(ts) && (forall i :: 0 <= i < |ts| ==> ts[i] <= now) && (more == [] || more == [now])
    ensures var p := Purged(ts + more, now, window);
      Ascending(p) && forall i :: 0 <= i < |p| ==> now - p[i] <= window && p[i] <= now
  {
    PurgedSuffix(ts + more, now, window);
  }

  lemma {:induction false} RunInside(r: Run, evs: seq<Event>, maxRestarts: int, window: real)
    requires Inv(r, maxRestarts, window) && AllInside(r, window) && ValidRun(r, evs, maxRestarts, window)
    ensures Inv(Exec(r, evs, maxRestarts, window), maxRestarts, window)
    ensures AllInside(Exec(r, evs, maxRestarts, window), window)
    decreases |evs|
  {
    if evs == [] {
    } else {
      StepInv(r, evs[0], maxRestarts, window);
      EventPurges(r, evs[0], maxRestarts, window);
      RunInside(Step(r, evs[0], maxRestarts, window), evs[1..], maxRestarts, window);
    }
  }

  /** After any run the deque is the window of all restarts made, guarded or not. */
  lemma DequeIsWindow(evs: seq<Event>, maxRestarts: int, window: real)
    requires ValidRun(Fresh, evs, maxRestarts, window)
    ensures IsWindow(Exec(Fresh, evs, maxRestarts, window), window)
  {
    RunInside(Fresh, evs, maxRestarts, window);
    InsideIsWindow(Exec(Fresh, evs, maxRestarts, window), window);
  }
}
