/**
 Runs of the wake engine over any hypotheses, generations and phrase sets.

 Main results: no wake has an empty phrase (`NoEmptyWake`); the smoothed confidence is a bounded average
 of the raw values since it last started over (`SmoothIsBounded`, `SustainedConfidenceRises`,
 `FirstHypothesisNeedsEscape`); and the engine's candidate and the telemetry collector's never disagree
 (`CandidatesAgree`).
 */
module WakeRuns {
  import opened Common
  import opened WakeEngine
  import HB = HypothesisBuffer
  import L = LoadRuns
  import M = Matcher

  /** One delivered hypothesis; the phrases may change between events. */
  datatype Event = Event(h: Heard, now: real, p: M.Phrases)

  datatype World = World(
    e: Engine,
    raws: seq<real>,     // raw confidences since the smoothed one last started over
    started: nat,        // candidates started so far
    wakes: seq<Wake>)    // wake events emitted so far

  const Start := World(Initial, [], 0, [])

  /** The match of a hypothesis, and its raw confidence. */
  function MatchOf(e: Engine, ev: Event, f: M.Foreign): M.Match {
    M.BestMatch(HB.Window(Buffered(e.buffer, ev.h, ev.now)), ev.p, f)
  }

  function RawOf(e: Engine, score: real, size: nat): real {
    Confidence(score, size, HitsAfter(e.hits, score))
  }

  /** Does the match open a new candidate? */
  predicate Opens(e: Engine, phrase: string, raw: real) {
    phrase != "" && raw >= CANDIDATE_THRESHOLD && (e.candidate.None? || e.candidate.value.phrase != phrase)
  }

  function StepOn(w: World, h: Heard, now: real, size: nat, m: M.Match, canonical: string): World {
    var raw := RawOf(w.e, m.score, size);
    var (e, wake) := Decide(w.e, h, now, size, m, canonical);
    World(e,
          if wake.Some? then [] else (if StartsOver(w.e, h.generation, m.phrase) then [] else w.raws) + [raw],
          if Opens(w.e, m.phrase, raw) then w.started + 1 else w.started,
          if wake.Some? then w.wakes + [wake.value] else w.wakes)
  }

  function Step(w: World, ev: Event, f: M.Foreign): World {
    var b := Buffered(w.e.buffer, ev.h, ev.now);
    var m := MatchOf(w.e, ev, f);
    StepOn(w.(e := w.e.(buffer := b)), ev.h, ev.now, |b|, m, M.CanonicalOf(m.variant, ev.p))
  }

  /** A step does what the engine does. */
  lemma StepIsEngine(w: World, ev: Event, f: M.Foreign)
    ensures Step(w, ev, f).e == OnHypothesis(w.e, ev.h, ev.now, ev.p, f).0
    ensures Step(w, ev, f).wakes
         == w.wakes + (match OnHypothesis(w.e, ev.h, ev.now, ev.p, f).1 case Some(x) => [x] case None => [])
  {
  }

  function Run(w: World, evs: seq<Event>, f: M.Foreign): World
    decreases |evs|
  {
    if evs == [] then w else Run(Step(w, evs[0], f), evs[1..], f)
  }

  ghost predicate PhrasesNonEmpty(evs: seq<Event>) {
    forall i :: 0 <= i < |evs| ==> M.NonEmpty(evs[i].p)
  }

  // ----- the smoothed confidence -----

  /** The smoothed confidence after the given raw values, starting from zero. */
  function EmaAll(raws: seq<real>): real {
    if raws == [] then 0.0 else Ema(EmaAll(raws[..|raws| - 1]), raws[|raws| - 1])
  }

  ghost predicate UnitInterval(raws: seq<real>) {
    forall i :: 0 <= i < |raws| ==> 0.0 <= raws[i] <= 1.0
  }

  lemma {:induction false} EmaBetween(raws: seq<real>, bound: real)
    requires bound >= 0.0 && forall i :: 0 <= i < |raws| ==> 0.0 <= raws[i] <= bound
    ensures 0.0 <= EmaAll(raws) <= bound
  {
    if raws == [] {
    } else {
      EmaBetween(raws[..|raws| - 1], bound);
    }
  }

  /** `r` times 0.3 to the power `k`. */
  function Decayed(r: real, k: nat): real {
    if k == 0 then r else 0.3 * Decayed(r, k - 1)
  }

  lemma {:induction false} EmaFloor(raws: seq<real>, r: real)
    requires forall i :: 0 <= i < |raws| ==> raws[i] >= r
    requires r >= 0.0
    ensures EmaAll(raws) >= r - Decayed(r, |raws|)
    ensures Decayed(r, |raws|) >= 0.0
  {
    if raws == [] {
    } else {
      EmaFloor(raws[..|raws| - 1], r);
    }
  }

  function Pow(b: real, k: nat): real {
    if k == 0 then 1.0 else b * Pow(b, k - 1)
  }

  lemma {:induction false} DecayedIsPower(r: real, k: nat)
    ensures Decayed(r, k) == r * Pow(0.3, k)
  {
    if k == 0 {
    } else {
      DecayedIsPower(r, k - 1);
      assert 0.3 * (r * Pow(0.3, k - 1)) == r * (0.3 * Pow(0.3, k - 1));
    }
  }

  // ----- the decision -----

  /** With no phrase there is no wake: the raw value is at most 0.2 and the decay falls short. */
  lemma EmptyNeverFires(e: Engine, h: Heard, now: real, size: nat, m: M.Match, canonical: string)
    requires M.Fits(m) && 0.0 <= e.smooth <= 1.0
    ensures var wake := Decide(e, h, now, size, m, canonical).1; wake.Some? ==> wake.value.phrase == m.phrase != ""
  {
  }

  /** When a hypothesis makes the smoothed confidence start over, only the escape threshold can fire. */
  lemma FreshNeedsEscape(e: Engine, h: Heard, now: real, size: nat, m: M.Match, canonical: string)
    requires StartsOver(e, h.generation, m.phrase) || e.smooth == 0.0
    ensures Decide(e, h, now, size, m, canonical).1.Some?
       <==> RawOf(e, m.score, size) >= 0.86 && Allowed(e, h.generation, now)
  {
  }

  // ----- candidates -----

  function CountStatus(ss: seq<Archived>, status: Status, replaced: bool): nat {
    if ss == [] then 0
    else CountStatus(ss[..|ss| - 1], status, replaced) +
         if ss[|ss| - 1].session.status == status && ss[|ss| - 1].replaced == replaced then 1 else 0
  }

  function ConfirmedCount(t: Telemetry): nat { CountStatus(t.sessions, Confirmed, false) }
  function DroppedCount(t: Telemetry): nat { CountStatus(t.sessions, Dropped, false) }
  function ReplacedCount(t: Telemetry): nat { CountStatus(t.sessions, Dropped, true) }

  function Open(t: Telemetry): nat { if t.active.Some? then 1 else 0 }

  ghost predicate Agreement(e: Engine, started: nat) {
    && e.candidate == e.tel.active
    && e.wakes == e.tel.wakes
    && started == ConfirmedCount(e.tel) + DroppedCount(e.tel) + ReplacedCount(e.tel) + Open(e.tel)
    && e.tel.falseWakes == DroppedCount(e.tel) + ReplacedCount(e.tel)
    && ConfirmedCount(e.tel) <= e.wakes
  }

  /** Archiving one session moves it from open to the count of its outcome. */
  lemma ArchiveCounts(ss: seq<Archived>, a: Archived)
    ensures forall status, replaced ::
      CountStatus(ss + [a], status, replaced)
      == CountStatus(ss, status, replaced) + if a.session.status == status && a.replaced == replaced then 1 else 0
  {
  }

  lemma ObserveAgrees(
      e: Engine, started: nat, h: Heard, now: real, m: M.Match, canonical: string, raw: real, frames: nat)
    requires Agreement(e, started)
    ensures var started' := if Opens(e, m.phrase, raw) then started + 1 else started;
      Agreement(Observe(e, h, now, m, canonical, raw, frames), started')
  {
    if e.candidate.Some? {
      ArchiveCounts(e.tel.sessions, Archived(e.candidate.value.(status := Dropped), true));
      ArchiveCounts(e.tel.sessions, Archived(e.candidate.value.(status := Dropped), false));
    }
  }

  lemma FiredAgrees(e: Engine, started: nat, generation: int, now: real)
    requires Agreement(e, started)
    ensures Agreement(Fired(e, generation, now), started)
  {
  }

  // ----- the invariant -----

  ghost predicate Inv(w: World) {
    && UnitInterval(w.raws)
    && w.e.smooth == EmaAll(w.raws)
    && Agreement(w.e, w.started)
    && WakesNamed(w.wakes)
    && |w.wakes| == w.e.wakes
  }

  lemma EmaSnoc(raws: seq<real>, raw: real)
    ensures EmaAll(raws + [raw]) == Ema(EmaAll(raws), raw)
  {
  }

  lemma StepOnAgrees(w: World, h: Heard, now: real, size: nat, m: M.Match, canonical: string)
    requires Agreement(w.e, w.started)
    ensures var w' := StepOn(w, h, now, size, m, canonical); Agreement(w'.e, w'.started)
  {
    var e1 := w.e.(hits := HitsAfter(w.e.hits, m.score));
    var raw := RawOf(w.e, m.score, size);
    var frames := EffectiveStability(h.stability);
    var e2 := Observe(e1, h, now, m, canonical, raw, frames);
    var e3 := Smoothed(e2, h.generation, m.phrase, raw);
    var started := if Opens(w.e, m.phrase, raw) then w.started + 1 else w.started;
    ObserveAgrees(e1, w.started, h, now, m, canonical, raw, frames);
    assert Agreement(e3, started);
    FiredAgrees(e3, started, h.generation, now);
  }

  lemma ObserveKeeps(e: Engine, h: Heard, now: real, m: M.Match, canonical: string, raw: real, frames: nat)
    ensures var e' := Observe(e, h, now, m, canonical, raw, frames);
      e'.smooth == e.smooth && e'.wakes == e.wakes && e'.seenGen == e.seenGen && e'.lastPhrase == e.lastPhrase
      && e'.triggerGen == e.triggerGen && e'.lastTrigger == e.lastTrigger
  {
  }

  lemma StepOnSmooths(w: World, h: Heard, now: real, size: nat, m: M.Match, canonical: string)
    requires M.Fits(m) && UnitInterval(w.raws) && w.e.smooth == EmaAll(w.raws)
    ensures var w' := StepOn(w, h, now, size, m, canonical); UnitInterval(w'.raws) && w'.e.smooth == EmaAll(w'.raws)
  {
    var e1 := w.e.(hits := HitsAfter(w.e.hits, m.score));
    var raw := RawOf(w.e, m.score, size);
    ObserveKeeps(e1, h, now, m, canonical, raw, EffectiveStability(h.stability));
    EmaSnoc(w.raws, raw);
    EmaSnoc([], raw);
  }

  lemma StepOnWakes(w: World, h: Heard, now: real, size: nat, m: M.Match, canonical: string)
    requires Inv(w) && M.Fits(m)
    ensures var w' := StepOn(w, h, now, size, m, canonical);
      |w'.wakes| == w'.e.wakes && WakesNamed(w'.wakes)
  {
    EmaBetween(w.raws, 1.0);
    EmptyNeverFires(w.e, h, now, size, m, canonical);
    var e1 := w.e.(hits := HitsAfter(w.e.hits, m.score));
    ObserveKeeps(e1, h, now, m, canonical, RawOf(w.e, m.score, size), EffectiveStability(h.stability));
  }

  lemma StepOnInv(w: World, h: Heard, now: real, size: nat, m: M.Match, canonical: string)
    requires Inv(w) && M.Fits(m)
    ensures Inv(StepOn(w, h, now, size, m, canonical))
  {
    StepOnAgrees(w, h, now, size, m, canonical);
    StepOnSmooths(w, h, now, size, m, canonical);
    StepOnWakes(w, h, now, size, m, canonical);
  }

  lemma StepInv(w: World, ev: Event, f: M.Foreign)
    requires Inv(w) && M.InRange(f) && M.NonEmpty(ev.p)
    ensures Inv(Step(w, ev, f))
  {
    var b := Buffered(w.e.buffer, ev.h, ev.now);
    M.MatchFits(HB.Window(b), ev.p, f);
    var m := MatchOf(w.e, ev, f);
    StepOnInv(w.(e := w.e.(buffer := b)), ev.h, ev.now, |b|, m, M.CanonicalOf(m.variant, ev.p));
  }

  lemma StartInv()
    ensures Inv(Start)
  {
  }

  lemma {:induction false} RunInv(w: World, evs: seq<Event>, f: M.Foreign)
    requires Inv(w) && M.InRange(f) && PhrasesNonEmpty(evs)
    ensures Inv(Run(w, evs, f))
    decreases |evs|
  {
    if evs == [] {
    } else {
      StepInv(w, evs[0], f);
      RunInv(Step(w, evs[0], f), evs[1..], f);
    }
  }

  // ----- main results -----

  ghost predicate WakesNamed(wakes: seq<Wake>) {
    forall i :: 0 <= i < |wakes| ==> wakes[i].phrase != ""
  }

  /** No run ever emits a wake with an empty phrase. */
  lemma NoEmptyWake(evs: seq<Event>, f: M.Foreign)
    requires M.InRange(f) && PhrasesNonEmpty(evs)
    ensures WakesNamed(Run(Start, evs, f).wakes)
  {
    StartInv();
    RunInv(Start, evs, f);
  }

  /** The phrases each hypothesis is matched against were read from a registry, loads in between or not. */
  ghost predicate ReadFromRegistry(evs: seq<Event>) {
    forall i :: 0 <= i < |evs| ==> L.ReadSomewhere(evs[i].p)
  }

  /** What the runs assume of the phrases is what the registry guarantees. */
  lemma RegistryPhrasesNonEmpty(evs: seq<Event>)
    requires ReadFromRegistry(evs)
    ensures PhrasesNonEmpty(evs)
  {
    forall i | 0 <= i < |evs| ensures M.NonEmpty(evs[i].p) { L.ReadSomewhereNonEmpty(evs[i].p); }
  }

  /** With a registry and any loads of profiles in the background, no run emits a wake with an empty phrase. */
  lemma NoEmptyWakeUnderLoads(evs: seq<Event>, f: M.Foreign)
    requires M.InRange(f) && ReadFromRegistry(evs)
    ensures WakesNamed(Run(Start, evs, f).wakes)
  {
    RegistryPhrasesNonEmpty(evs);
    NoEmptyWake(evs, f);
  }

  ghost predicate AtMost(raws: seq<real>, bound: real) {
    forall i :: 0 <= i < |raws| ==> raws[i] <= bound
  }

  ghost predicate AtLeast(raws: seq<real>, r: real) {
    forall i :: 0 <= i < |raws| ==> raws[i] >= r
  }

  /** In [0, 1], and below every bound on the raw values since it started over. */
  ghost predicate SmoothBounded(w: World) {
    0.0 <= w.e.smooth <= 1.0 && forall bound :: bound >= 0.0 && AtMost(w.raws, bound) ==> w.e.smooth <= bound
  }

  lemma BoundedAt(w: World)
    requires Inv(w)
    ensures SmoothBounded(w)
  {
    EmaBetween(w.raws, 1.0);
    forall bound | bound >= 0.0 && AtMost(w.raws, bound) ensures w.e.smooth <= bound {
      EmaBetween(w.raws, bound);
    }
  }

  lemma SmoothIsBounded(evs: seq<Event>, f: M.Foreign)
    requires M.InRange(f) && PhrasesNonEmpty(evs)
    ensures SmoothBounded(Run(Start, evs, f))
  {
    StartInv();
    RunInv(Start, evs, f);
    BoundedAt(Run(Start, evs, f));
  }

  /** `k` raw values of at least `r` since it started over force it to at least r(1 - 0.3^k). */
  ghost predicate SmoothRisen(w: World) {
    forall r :: r >= 0.0 && AtLeast(w.raws, r) ==> w.e.smooth >= r * (1.0 - Pow(0.3, |w.raws|))
  }

  lemma RisenAt(w: World)
    requires Inv(w)
    ensures SmoothRisen(w)
  {
    var k := |w.raws|;
    forall r | r >= 0.0 && AtLeast(w.raws, r) ensures w.e.smooth >= r * (1.0 - Pow(0.3, k)) {
      EmaFloor(w.raws, r);
      DecayedIsPower(r, k);
      assert r * (1.0 - Pow(0.3, k)) == r - r * Pow(0.3, k);
    }
  }

  lemma SustainedConfidenceRises(evs: seq<Event>, f: M.Foreign)
    requires M.InRange(f) && PhrasesNonEmpty(evs)
    ensures SmoothRisen(Run(Start, evs, f))
  {
    StartInv();
    RunInv(Start, evs, f);
    RisenAt(Run(Start, evs, f));
  }

  /** Does this hypothesis fire, and is it the first since the smoothed confidence started over? */
  predicate Fires(w: World, ev: Event, f: M.Foreign) {
    OnHypothesis(w.e, ev.h, ev.now, ev.p, f).1.Some?
  }

  predicate IsFirst(w: World, ev: Event, f: M.Foreign) {
    w.raws == [] || StartsOver(w.e, ev.h.generation, MatchOf(w.e, ev, f).phrase)
  }

  function RawFor(w: World, ev: Event, f: M.Foreign): real {
    RawOf(w.e, MatchOf(w.e, ev, f).score, |Buffered(w.e.buffer, ev.h, ev.now)|)
  }

  /** A first hypothesis fires exactly when its raw confidence reaches 0.86 and both gates are open. */
  ghost predicate FirstNeedsEscape(w: World, f: M.Foreign) {
    forall ev: Event :: IsFirst(w, ev, f) ==>
      (Fires(w, ev, f) <==> RawFor(w, ev, f) >= 0.86 && Allowed(w.e, ev.h.generation, ev.now))
  }

  lemma FreshAt(w: World, f: M.Foreign)
    requires Inv(w)
    ensures FirstNeedsEscape(w, f)
  {
    forall ev: Event | IsFirst(w, ev, f)
      ensures Fires(w, ev, f) <==> RawFor(w, ev, f) >= 0.86 && Allowed(w.e, ev.h.generation, ev.now)
    {
      var b := Buffered(w.e.buffer, ev.h, ev.now);
      var m := MatchOf(w.e, ev, f);
      FreshNeedsEscape(w.e.(buffer := b), ev.h, ev.now, |b|, m, M.CanonicalOf(m.variant, ev.p));
    }
  }

  /** After any run the escape threshold decides the first hypothesis of a new context or after a wake. */
  lemma FirstHypothesisNeedsEscape(evs: seq<Event>, f: M.Foreign)
    requires M.InRange(f) && PhrasesNonEmpty(evs)
    ensures FirstNeedsEscape(Run(Start, evs, f), f)
  {
    StartInv();
    RunInv(Start, evs, f);
    FreshAt(Run(Start, evs, f), f);
  }

  /** Every candidate started is accounted for, on both sides. */
  ghost predicate AllAccounted(w: World) {
    var t := w.e.tel;
    && w.e.candidate == t.active
    && w.started == ConfirmedCount(t) + DroppedCount(t) + ReplacedCount(t) + Open(t)
    && t.falseWakes == DroppedCount(t) + ReplacedCount(t)
    && ConfirmedCount(t) <= t.wakes == |w.wakes|
  }

  lemma AccountedAt(w: World)
    requires Inv(w)
    ensures AllAccounted(w)
  {
  }

  /**
   In every reachable state engine and telemetry hold the same candidate, every candidate started is
   confirmed, dropped, replaced or open, false wakes are the dropped and replaced ones, and no more
   candidates were confirmed than wakes counted.
   */
  lemma CandidatesAgree(evs: seq<Event>, f: M.Foreign)
    requires M.InRange(f) && PhrasesNonEmpty(evs)
    ensures AllAccounted(Run(Start, evs, f))
  {
    StartInv();
    RunInv(Start, evs, f);
    AccountedAt(Run(Start, evs, f));
  }
}
