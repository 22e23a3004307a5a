/**
 The runtime watchdog's recovery gate: exponential backoff between stream resets and escalation after
 eight consecutive failures.

 Main results, over every run between two manual clears: attempts are separated by the capped doubling
 backoff and nothing follows an escalation (`AttemptsBackOff`), and the eighth consecutive failure
 escalates without a reset at least 12.7 s after the first (`EscalationTakesTime`).
 */
module Watchdog {
  import opened Common

  datatype Reason =
    | WorkerDead | WorkerHang | QueueOverflow | VadFailure
    | ModelCorrupted | MemoryExhausted | Other(name: string)

  /** `classify_watchdog_trigger`: is the fault critical? */
  predicate Critical(reason: Reason) {
    reason.ModelCorrupted? || reason.MemoryExhausted?
  }

  const MAX_RETRIES := 8
  const BACKOFF_INITIAL_MS := 100.0
  const BACKOFF_MAX_MS := 8000.0
  const ESCALATION_THRESHOLD := 4

  /** Delay in milliseconds after the `retries`-th consecutive failure. */
  function Backoff(initial: real, ceiling: real, retries: nat): real
    requires retries >= 1
  {
    var d := initial * Pow2(retries - 1) as real;
    if d <= ceiling then d else ceiling
  }

  /** The abstract value of a watchdog: escalation flag, gate, policy counters and reset statistics. */
  datatype State = State(
    escalated: bool, nextAllowed: real,
    retries: nat, atMax: nat,
    total: nat, byReason: map<Reason, nat>)

  /** What one trigger did. */
  datatype Outcome = Suppressed | Escalates | Resets

  const Initial :=
    State(false, 0.0, 0, 0, 0, map[WorkerDead := 0, WorkerHang := 0, QueueOverflow := 0, VadFailure := 0])

  function Bump(m: map<Reason, nat>, r: Reason): map<Reason, nat> {
    m[r := if r in m then m[r] + 1 else 1]
  }

  /** `_recover_stream` at time `now`; `ok` says whether the stream reset raised no exception. */
  function Recover(s: State, reason: Reason, now: real, ok: bool): (State, Outcome) {
    if s.escalated || now < s.nextAllowed then (s, Suppressed)
    else
      var retries := s.retries + 1;
      var delay := Backoff(BACKOFF_INITIAL_MS, BACKOFF_MAX_MS, retries);
      var atMax := if delay >= BACKOFF_MAX_MS then s.atMax + 1 else s.atMax;
      var s1 := s.(retries := retries, atMax := atMax, nextAllowed := now + delay / 1000.0);
      if retries >= MAX_RETRIES || atMax >= ESCALATION_THRESHOLD then (s1.(escalated := true), Escalates)
      else
        var s2 := s1.(total := s.total + 1, byReason := Bump(s.byReason, reason));
        (if ok && !Critical(reason) then s2.(retries := 0, atMax := 0, escalated := false) else s2, Resets)
  }

  /** `reset_recovery_state`. */
  function Cleared(s: State): State {
    s.(escalated := false, nextAllowed := 0.0, retries := 0, atMax := 0)
  }

  // ----- the objects -----

  class RecoveryPolicy {
    const maxRetries: nat
    const initialMs: real
    const maxMs: real
    const escalationThreshold: nat
    var retries: nat
    var atMaxCount: nat
    var totalFailures: nat

    constructor (maxRetries: nat, initialMs: real, maxMs: real, escalationThreshold: nat)
      ensures this.maxRetries == maxRetries && this.initialMs == initialMs && this.maxMs == maxMs
      ensures this.escalationThreshold == escalationThreshold
      ensures retries == atMaxCount == totalFailures == 0
    {
      this.maxRetries, this.initialMs, this.maxMs := maxRetries, initialMs, maxMs;
      this.escalationThreshold := escalationThreshold;
      retries, atMaxCount, totalFailures := 0, 0, 0;
    }

    method RecordFailure()
      modifies this
      ensures retries == old(retries) + 1 && totalFailures == old(totalFailures) + 1 && atMaxCount == old(atMaxCount)
    {
      retries, totalFailures := retries + 1, totalFailures + 1;
    }

    method NextBackoff() returns (delay: real)
      requires retries >= 1
      modifies this`atMaxCount
      ensures delay == Backoff(initialMs, maxMs, retries)
      ensures atMaxCount == old(atMaxCount) + if delay >= maxMs then 1 else 0
    {
      var factor, i := 1, 1;
      while i < retries
        invariant 1 <= i <= retries
        invariant factor == Pow2(i - 1)
      {
        factor, i := factor * 2, i + 1;
      }
      delay := initialMs * factor as real;
      assert delay == initialMs * Pow2(retries - 1) as real;
      if delay > maxMs { delay := maxMs; }
      if delay >= maxMs { atMaxCount := atMaxCount + 1; }
    }

    predicate ShouldEscalate()
      reads this
    {
      retries >= maxRetries || atMaxCount >= escalationThreshold
    }

    method Reset()
      modifies this`retries, this`atMaxCount
      ensures retries == atMaxCount == 0
    {
      retries, atMaxCount := 0, 0;
    }
  }

  class RuntimeWatchdog {
    const policy: RecoveryPolicy
    var escalated: bool
    var nextAllowedReset: real
    var resetsTotal: nat
    var resetsByReason: map<Reason, nat>

    ghost predicate Valid()
      reads this
    {
      policy.maxRetries == MAX_RETRIES && policy.initialMs == BACKOFF_INITIAL_MS &&
      policy.maxMs == BACKOFF_MAX_MS && policy.escalationThreshold == ESCALATION_THRESHOLD
    }

    ghost function Value(): State
      reads this, policy
    {
      State(escalated, nextAllowedReset, policy.retries, policy.atMaxCount, resetsTotal, resetsByReason)
    }

    constructor ()
      ensures Valid() && fresh(policy) && Value() == Initial
    {
      policy := new RecoveryPolicy(MAX_RETRIES, BACKOFF_INITIAL_MS, BACKOFF_MAX_MS, ESCALATION_THRESHOLD);
      escalated, nextAllowedReset, resetsTotal := false, 0.0, 0;
      resetsByReason := map[WorkerDead := 0, WorkerHang := 0, QueueOverflow := 0, VadFailure := 0];
    }

    method RecoverStream(reason: Reason, now: real, ok: bool) returns (outcome: Outcome)
      requires Valid()
      modifies this, policy
      ensures Valid()
      ensures (Value(), outcome) == Recover(old(Value()), reason, now, ok)
    {
      if escalated {
        return Suppressed;
      }
      if now < nextAllowedReset {
        return Suppressed;
      }
      policy.RecordFailure();
      var delay := policy.NextBackoff();
      nextAllowedReset := now + delay / 1000.0;
      if policy.ShouldEscalate() {
        escalated := true;
        return Escalates;
      }
      resetsTotal := resetsTotal + 1;
      if reason in resetsByReason {
        resetsByReason := resetsByReason[reason := resetsByReason[reason] + 1];
      } else {
        resetsByReason := resetsByReason[reason := 1];
      }
      if ok && !Critical(reason) {
        policy.Reset();
        escalated := false;
      }
      return Resets;
    }

    method ResetRecoveryState()
      requires Valid()
      modifies this, policy
      ensures Valid() && Value() == Cleared(old(Value()))
    {
      policy.Reset();
      escalated := false;
      nextAllowedReset := 0.0;
    }
  }

  // ----- runs -----

  datatype Event = Trigger(reason: Reason, now: real, ok: bool) | Clear

  /** An attempt that passed the gate: when, which consecutive failure it was, and whether it reset. */
  datatype Attempt = Attempt(time: real, failures: nat, reset: bool)

  /** The watchdog and its attempts since the last manual clear. */
  datatype Run = Run(s: State, log: seq<Attempt>)

  function Step(r: Run, ev: Event): Run {
    match ev
    case Clear => Run(Cleared(r.s), [])
    case Trigger(reason, now, ok) =>
      var (s, outcome) := Recover(r.s, reason, now, ok);
      if outcome.Suppressed? then r.(s := s)
      else Run(s, r.log + [Attempt(now, r.s.retries + 1, outcome.Resets?)])
  }

  function Exec(r: Run, evs: seq<Event>): Run
    decreases |evs|
  {
    if evs == [] then r else Exec(Step(r, evs[0]), evs[1..])
  }

  /** Seconds that must pass after the `n`-th consecutive failure. */
  function Delay(n: nat): real
    requires n >= 1
  {
    Backoff(BACKOFF_INITIAL_MS, BACKOFF_MAX_MS, n) / 1000.0
  }

  ghost predicate GoodAttempt(a: Attempt) {
    1 <= a.failures <= MAX_RETRIES && (a.reset <==> a.failures < MAX_RETRIES)
  }

  /** `b` comes after `a` with nothing in between. */
  ghost predicate Follows(a: Attempt, b: Attempt)
    requires a.failures >= 1
  {
    a.reset && b.time >= a.time + Delay(a.failures) && (b.failures == 1 || b.failures == a.failures + 1)
  }

  ghost predicate GoodLog(log: seq<Attempt>) {
    && (forall a :: a in log ==> GoodAttempt(a))
    && (forall i :: 0 <= i < |log| - 1 ==> GoodAttempt(log[i]) && Follows(log[i], log[i + 1]))
  }

  ghost predicate Linked(r: Run) {
    && r.s.retries <= MAX_RETRIES
    && r.s.atMax == (if r.s.retries == MAX_RETRIES then 1 else 0)
    && (r.log == [] ==> r.s.retries == 0 && !r.s.escalated)
    && (r.log != [] ==>
          var a := r.log[|r.log| - 1];
          && GoodAttempt(a)
          && r.s.nextAllowed == a.time + Delay(a.failures)
          && (r.s.escalated <==> !a.reset)
          && (r.s.retries == 0 || r.s.retries == a.failures)
          && (r.s.escalated ==> r.s.retries == MAX_RETRIES))
  }

  ghost function Sum(m: map<Reason, nat>): nat {
    if m == map[] then 0 else
      var k :| k in m;
      m[k] + Sum(m - {k})
  }

  ghost predicate Inv(r: Run) {
    GoodLog(r.log) && Linked(r) && r.s.total == Sum(r.s.byReason)
  }

  lemma {:induction false} SumSplit(m: map<Reason, nat>, k: Reason)
    requires k in m
    ensures Sum(m) == m[k] + Sum(m - {k})
  {
    var p :| p in m && Sum(m) == m[p] + Sum(m - {p});
    if p != k {
      SumSplit(m - {p}, k);
      SumSplit(m - {k}, p);
      assert m - {p} - {k} == m - {k} - {p};
    }
  }

  lemma SumBump(m: map<Reason, nat>, r: Reason)
    ensures Sum(Bump(m, r)) == Sum(m) + 1
  {
    var b := Bump(m, r);
    SumSplit(b, r);
    assert b - {r} == m - {r};
    if r in m {
      SumSplit(m, r);
    } else {
      assert m - {r} == m;
    }
  }

  /** The doubling reaches the ceiling at the eighth failure and not before. */
  lemma BackoffValues(n: nat)
    requires 1 <= n <= MAX_RETRIES
    ensures Pow2(n - 1) >= 1
    ensures n < MAX_RETRIES ==> Pow2(n - 1) <= 64 && Delay(n) == 0.1 * Pow2(n - 1) as real && Delay(n) <= 6.4
    ensures n == MAX_RETRIES ==> Delay(n) == 8.0
  {
    assert Pow2(0) == 1 && Pow2(1) == 2 && Pow2(2) == 4 && Pow2(3) == 8;
    assert Pow2(4) == 16 && Pow2(5) == 32 && Pow2(6) == 64 && Pow2(7) == 128;
    if n == 1 {} else if n == 2 {} else if n == 3 {} else if n == 4 {}
    else if n == 5 {} else if n == 6 {} else if n == 7 {} else {}
  }

  lemma StepInv(r: Run, ev: Event)
    requires Inv(r)
    ensures Inv(Step(r, ev))
  {
    match ev
    case Clear =>
    case Trigger(reason, now, ok) =>
      if !r.s.escalated && now >= r.s.nextAllowed {
        BackoffValues(r.s.retries + 1);
        SumBump(r.s.byReason, reason);
        var a := Attempt(now, r.s.retries + 1, r.s.retries + 1 < MAX_RETRIES);
        assert GoodAttempt(a);
        if r.log != [] {
          assert Follows(r.log[|r.log| - 1], a);
        }
      }
  }

  lemma {:induction false} RunInv(r: Run, evs: seq<Event>)
    requires Inv(r)
    ensures Inv(Exec(r, evs))
    decreases |evs|
  {
    if evs == [] {
    } else {
      StepInv(r, evs[0]);
      RunInv(Step(r, evs[0]), evs[1..]);
    }
  }

  lemma InitialInv()
    ensures Inv(Run(Initial, []))
  {
    var m := Initial.byReason;
    SumSplit(m, WorkerDead);
    SumSplit(m - {WorkerDead}, WorkerHang);
    SumSplit(m - {WorkerDead} - {WorkerHang}, QueueOverflow);
    SumSplit(m - {WorkerDead} - {WorkerHang} - {QueueOverflow}, VadFailure);
    assert m - {WorkerDead} - {WorkerHang} - {QueueOverflow} - {VadFailure} == map[];
  }

  /** Since the last clear: each attempt waits out the backoff of the one before, and none follows an escalation. */
  lemma AttemptsBackOff(evs: seq<Event>, i: nat)
    requires i < |Exec(Run(Initial, []), evs).log|
    ensures var log := Exec(Run(Initial, []), evs).log;
      && 1 <= log[i].failures <= 8
      && (log[i].reset <==> log[i].failures < 8)
      && (i + 1 < |log| ==> log[i].reset && log[i + 1].time - log[i].time >= Delay(log[i].failures))
  {
    InitialInv();
    RunInv(Run(Initial, []), evs);
    var log := Exec(Run(Initial, []), evs).log;
    assert GoodAttempt(log[i]);
  }

  /** The `n`-th consecutive failure comes at least 0.1 (2^(n-1) - 1) seconds after the first. */
  lemma {:induction false} StreakTakesTime(log: seq<Attempt>, i: nat)
    requires i < |log| && GoodLog(log)
    requires log[0].failures == 1
    ensures var n := log[i].failures;
      && 1 <= n <= i + 1
      && log[i + 1 - n].failures == 1
      && log[i].time - log[i + 1 - n].time >= 0.1 * (Pow2(n - 1) - 1) as real
  {
    assert GoodAttempt(log[i]);
    var n := log[i].failures;
    if n > 1 {
      assert i > 0;
      assert Follows(log[i - 1], log[i]);
      StreakTakesTime(log, i - 1);
      BackoffValues(n - 1);
    }
  }

  /** A run since the last clear starts with a first failure. */
  lemma {:induction false} FirstIsFirst(r: Run, evs: seq<Event>)
    requires Inv(r) && (r.log != [] ==> r.log[0].failures == 1)
    ensures var r' := Exec(r, evs); r'.log != [] ==> r'.log[0].failures == 1
    decreases |evs|
  {
    if evs == [] {
    } else {
      StepInv(r, evs[0]);
      FirstIsFirst(Step(r, evs[0]), evs[1..]);
    }
  }

  lemma EscalationTakesTime(evs: seq<Event>)
    requires Exec(Run(Initial, []), evs).s.escalated
    ensures var log := Exec(Run(Initial, []), evs).log;
      && |log| >= 8
      && var last := log[|log| - 1];
      && !last.reset && last.failures == 8
      && log[|log| - 8].failures == 1
      && last.time - log[|log| - 8].time >= 12.7
  {
    InitialInv();
    RunInv(Run(Initial, []), evs);
    FirstIsFirst(Run(Initial, []), evs);
    var log := Exec(Run(Initial, []), evs).log;
    StreakTakesTime(log, |log| - 1);
    assert Pow2(1) == 2 && Pow2(2) == 4 && Pow2(3) == 8 && Pow2(4) == 16;
    assert Pow2(5) == 32 && Pow2(6) == 64 && Pow2(7) == 128;
  }

  /** Escalated means stuck: no trigger resets the stream until someone clears the state. */
  lemma {:induction false} EscalatedStaysQuiet(r: Run, evs: seq<Event>)
    requires r.s.escalated && forall i :: 0 <= i < |evs| ==> evs[i].Trigger?
    ensures Exec(r, evs) == r
    decreases |evs|
  {
    if evs == [] {
    } else {
      EscalatedStaysQuiet(Step(r, evs[0]), evs[1..]);
    }
  }

  /** The reset total is the sum over the reasons, whatever happened. */
  lemma TotalsAgree(evs: seq<Event>)
    ensures var s := Exec(Run(Initial, []), evs).s; s.total == Sum(s.byReason)
  {
    InitialInv();
    RunInv(Run(Initial, []), evs);
  }

  // ----- one trigger, in numbers -----

  /** Seconds after the n-th consecutive failure. */
  ghost predicate Waits(n: nat, seconds: real) {
    && (n == 1 ==> seconds == 0.1) && (n == 2 ==> seconds == 0.2) && (n == 3 ==> seconds == 0.4)
    && (n == 4 ==> seconds == 0.8) && (n == 5 ==> seconds == 1.6) && (n == 6 ==> seconds == 3.2)
    && (n == 7 ==> seconds == 6.4) && (n == 8 ==> seconds == 8.0)
  }

  /** One reset more, for this reason. */
  ghost predicate CountsReset(s: State, s': State, reason: Reason) {
    && s'.total == s.total + 1
    && s'.byReason.Keys == s.byReason.Keys + {reason}
    && s'.byReason[reason] == (if reason in s.byReason then s.byReason[reason] + 1 else 1)
    && forall r :: r in s.byReason && r != reason ==> s'.byReason[r] == s.byReason[r]
  }

  /** The n-th consecutive failure: the eighth escalates, the others reset, and a harmless success clears. */
  ghost predicate FailureLaw(s: State, s': State, n: nat, reason: Reason, now: real, ok: bool) {
    && Waits(n, s'.nextAllowed - now)
    && if n == 8 then s'.escalated && s'.retries == 8 && s'.total == s.total && s'.byReason == s.byReason
       else
         && !s'.escalated && CountsReset(s, s', reason)
         && s'.retries == if ok && reason != ModelCorrupted && reason != MemoryExhausted then 0 else n
  }

  lemma BackoffWaits(n: nat)
    requires 1 <= n <= 8
    ensures Waits(n, Delay(n))
  {
    BackoffValues(n);
    assert Pow2(0) == 1 && Pow2(1) == 2 && Pow2(2) == 4 && Pow2(3) == 8;
    assert Pow2(4) == 16 && Pow2(5) == 32 && Pow2(6) == 64;
  }

  /** Only the eighth failure reaches the ceiling. */
  lemma CeilingReached(n: nat)
    requires 1 <= n <= 8
    ensures Backoff(BACKOFF_INITIAL_MS, BACKOFF_MAX_MS, n) >= BACKOFF_MAX_MS <==> n == 8
  {
    BackoffValues(n);
  }

  lemma FailureWaits(s: State, reason: Reason, now: real, ok: bool)
    requires !s.escalated && now >= s.nextAllowed && s.retries < 8
    ensures Recover(s, reason, now, ok).0.nextAllowed - now == Delay(s.retries + 1)
  {
  }

  lemma FailureCounts(s: State, reason: Reason, now: real, ok: bool)
    requires !s.escalated && now >= s.nextAllowed && s.retries < 8 && s.atMax == 0
    ensures var (s', outcome) := Recover(s, reason, now, ok);
      if s.retries == 7 then
        outcome == Escalates && s'.escalated && s'.retries == 8 && s'.total == s.total && s'.byReason == s.byReason
      else
        && outcome == Resets && !s'.escalated && CountsReset(s, s', reason)
        && s'.retries == if ok && reason != ModelCorrupted && reason != MemoryExhausted then 0 else s.retries + 1
  {
    CeilingReached(s.retries + 1);
  }

  lemma FailureIs(s: State, reason: Reason, now: real, ok: bool)
    requires !s.escalated && now >= s.nextAllowed && s.retries < 8 && s.atMax == 0
    ensures FailureLaw(s, Recover(s, reason, now, ok).0, s.retries + 1, reason, now, ok)
    ensures Recover(s, reason, now, ok).1 == if s.retries + 1 < 8 then Resets else Escalates
  {
    FailureWaits(s, reason, now, ok);
    FailureCounts(s, reason, now, ok);
    BackoffWaits(s.retries + 1);
  }

  /** Before the first failure since the last clear nothing is held back. */
  ghost predicate FreshGate(r: Run) {
    r.log == [] ==> r.s.nextAllowed == 0.0
  }

  /** Nothing attempted since the last clear, or the last attempt reset and its backoff has passed. */
  ghost predicate LetThrough(r: Run, now: real) {
    r.log == [] ||
    (var last := r.log[|r.log| - 1]; last.failures >= 1 && last.reset && now >= last.time + Delay(last.failures))
  }

  lemma GateIs(r: Run, now: real)
    requires Inv(r) && FreshGate(r) && now >= 0.0
    ensures LetThrough(r, now) <==> !r.s.escalated && now >= r.s.nextAllowed
    ensures LetThrough(r, now) ==> r.s.retries < 8 && r.s.atMax == 0
  {
    if r.log != [] { assert GoodAttempt(r.log[|r.log| - 1]); }
  }

  /** A trigger that is let through is the next consecutive failure; any other changes nothing. */
  lemma TriggerEffect(r: Run, reason: Reason, now: real, ok: bool)
    requires Inv(r) && FreshGate(r) && now >= 0.0
    ensures var r', n := Step(r, Trigger(reason, now, ok)), r.s.retries + 1;
      if LetThrough(r, now) then
        n <= 8 && r'.log == r.log + [Attempt(now, n, n < 8)] && FailureLaw(r.s, r'.s, n, reason, now, ok)
      else r' == r
  {
    GateIs(r, now);
    if LetThrough(r, now) { FailureIs(r.s, reason, now, ok); }
  }

  lemma ClearEffect(r: Run)
    ensures var r' := Step(r, Clear);
      && r'.log == [] && FreshGate(r') && !r'.s.escalated && r'.s.retries == 0 && r'.s.atMax == 0
      && r'.s.total == r.s.total && r'.s.byReason == r.s.byReason
  {
  }

  lemma {:induction false} RunFresh(r: Run, evs: seq<Event>)
    requires Inv(r) && FreshGate(r)
    ensures Inv(Exec(r, evs)) && FreshGate(Exec(r, evs))
    decreases |evs|
  {
    if evs == [] {
    } else {
      StepInv(r, evs[0]);
      StepFresh(r, evs[0]);
      RunFresh(Step(r, evs[0]), evs[1..]);
    }
  }

  lemma StepFresh(r: Run, ev: Event)
    requires FreshGate(r)
    ensures FreshGate(Step(r, ev))
  {
  }

  /** After any run: whether the next trigger is let through, and everything it changes. */
  lemma EveryTrigger(evs: seq<Event>, reason: Reason, now: real, ok: bool)
    requires now >= 0.0
    ensures var r := Exec(Run(Initial, []), evs); var r', n := Step(r, Trigger(reason, now, ok)), r.s.retries + 1;
      if LetThrough(r, now) then
        n <= 8 && r'.log == r.log + [Attempt(now, n, n < 8)] && FailureLaw(r.s, r'.s, n, reason, now, ok)
      else r' == r
  {
    InitialInv();
    RunFresh(Run(Initial, []), evs);
    TriggerEffect(Exec(Run(Initial, []), evs), reason, now, ok);
  }
}
