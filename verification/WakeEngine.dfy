/**
 The wake decision: from one hypothesis of the recogniser to a wake event or none.

 `Engine` is the abstract value of the engine, its hypothesis buffer, cooldown gate and telemetry
 collector. The several clock readings of one callback are one input, `now`.
 */
module WakeEngine {
  import opened Common
  import HB = HypothesisBuffer
  import M = Matcher

  const STABILITY_CAP: nat := 12
  const DEFAULT_THRESHOLD := 0.78
  const ESCAPE_MARGIN := 0.08
  const EMA_RISE_ALPHA := 0.70
  const EMA_DECAY_ALPHA := 0.30
  const COOLDOWN_SECONDS := 2.0
  const CANDIDATE_THRESHOLD := 0.50
  const CANDIDATE_EXPIRY := 1.0

  datatype Status = Started | Updated | Confirmed | Dropped

  /** An observed wake candidate; the engine and the telemetry collector each keep one. */
  datatype Session = Session(
    phrase: string, variant: string, canonical: string,
    startTime: real, lastUpdate: real, peakRaw: real, peakSmooth: real,
    transcript: seq<string>, frames: nat, status: Status)

  datatype Archived = Archived(session: Session, replaced: bool)

  datatype Telemetry = Telemetry(wakes: nat, falseWakes: nat, active: Option<Session>, sessions: seq<Archived>)

  datatype Engine = Engine(
    buffer: seq<HB.Entry>, lastTrigger: real,
    hits: nat, triggerGen: int, seenGen: int,
    smooth: real, lastPhrase: string, wakes: nat,
    candidate: Option<Session>, tel: Telemetry)

  datatype Heard = Heard(text: string, stability: nat, peak: string, generation: int)

  datatype Wake = Wake(phrase: string, raw: real, smooth: real, generation: int, time: real)

  const NoTelemetry := Telemetry(0, 0, None, [])
  const Initial := Engine([], 0.0, 0, -1, -1, 0.0, "", 0, None, NoTelemetry)

  // ----- candidate sessions and telemetry -----

  function Refreshed(s: Session, text: string, raw: real, smooth: real, frames: nat, now: real): Session {
    s.(lastUpdate := now, transcript := s.transcript + [text],
       peakRaw := RMax(s.peakRaw, raw), peakSmooth := RMax(s.peakSmooth, smooth),
       frames := if frames > s.frames then frames else s.frames, status := Updated)
  }

  /** A new candidate; one still active is archived as replaced, and counts as a false wake. */
  function TelStart(t: Telemetry, s: Session): Telemetry {
    match t.active
    case None => t.(active := Some(s))
    case Some(old') =>
      t.(active := Some(s), sessions := t.sessions + [Archived(old'.(status := Dropped), true)],
         falseWakes := t.falseWakes + 1)
  }

  function TelUpdate(t: Telemetry, text: string, raw: real, smooth: real, frames: nat, now: real): Telemetry {
    match t.active
    case None => t
    case Some(s) => t.(active := Some(Refreshed(s, text, raw, smooth, frames, now)))
  }

  function TelConfirm(t: Telemetry): Telemetry {
    match t.active
    case None => t
    case Some(s) => t.(active := None, sessions := t.sessions + [Archived(s.(status := Confirmed), false)])
  }

  function TelDrop(t: Telemetry): Telemetry {
    match t.active
    case None => t
    case Some(s) =>
      t.(active := None, sessions := t.sessions + [Archived(s.(status := Dropped), false)],
         falseWakes := t.falseWakes + 1)
  }

  /** The candidate lifecycle for one hypothesis, run before the smoothed confidence is updated. */
  function Observe(e: Engine, h: Heard, now: real, m: M.Match, canonical: string, raw: real, frames: nat): Engine {
    if m.phrase != "" && raw >= CANDIDATE_THRESHOLD then
      if e.candidate.None? || e.candidate.value.phrase != m.phrase then
        var s := Session(m.phrase, m.variant, if canonical != "" then canonical else m.phrase,
                         now, now, raw, e.smooth, [h.text], frames, Started);
        e.(candidate := Some(s), tel := TelStart(e.tel, s))
      else
        e.(candidate := Some(Refreshed(e.candidate.value, h.text, raw, e.smooth, frames, now)),
           tel := TelUpdate(e.tel, h.text, raw, e.smooth, frames, now))
    else if e.candidate.Some? && now - e.candidate.value.lastUpdate > CANDIDATE_EXPIRY then
      e.(candidate := None, tel := TelDrop(e.tel))
    else e
  }

  // ----- confidence -----

  /** `compute_confidence`. */
  function Confidence(score: real, size: nat, hits: nat): (c: real)
    ensures c <= 1.0
    ensures score >= 0.0 ==> c >= 0.0
    ensures score <= 0.0 ==> c <= 0.20
  {
    var effective := if size > 3 then size else 3;
    var rate := hits as real / effective as real;
    RMin(score * 0.80 + RMin(rate, 1.0) * 0.20, 1.0)
  }

  /** Fast up, slow down. */
  function Ema(smooth: real, raw: real): real {
    var alpha := if raw > smooth then EMA_RISE_ALPHA else EMA_DECAY_ALPHA;
    alpha * raw + (1.0 - alpha) * smooth
  }

  function HitsAfter(hits: nat, score: real): nat {
    if score > 0.50 then hits + 1 else if hits > 0 then hits - 1 else 0
  }

  /** A new generation or another phrase makes the smoothed confidence start over. */
  predicate StartsOver(e: Engine, generation: int, phrase: string) {
    generation != e.seenGen || (phrase != "" && phrase != e.lastPhrase)
  }

  function Smoothed(e: Engine, generation: int, phrase: string, raw: real): Engine {
    e.(smooth := Ema(if StartsOver(e, generation, phrase) then 0.0 else e.smooth, raw),
       hits := if generation != e.seenGen then 0 else e.hits,
       seenGen := generation,
       lastPhrase := if phrase != "" then phrase else e.lastPhrase)
  }

  // ----- the decision -----

  predicate Confident(smooth: real, raw: real) {
    raw >= DEFAULT_THRESHOLD + ESCAPE_MARGIN || smooth >= DEFAULT_THRESHOLD
  }

  predicate Allowed(e: Engine, generation: int, now: real) {
    generation != e.triggerGen && now - e.lastTrigger >= COOLDOWN_SECONDS
  }

  function Fired(e: Engine, generation: int, now: real): Engine {
    e.(triggerGen := generation, lastTrigger := now, buffer := [], hits := 0, wakes := e.wakes + 1,
       tel := TelConfirm(e.tel.(wakes := e.tel.wakes + 1)), candidate := None, smooth := 0.0)
  }

  /** Everything after matching: `m` is the match and `size` the number of hypotheses in the window. */
  function Decide(e: Engine, h: Heard, now: real, size: nat, m: M.Match, canonical: string): (Engine, Option<Wake>) {
    var e1 := e.(hits := HitsAfter(e.hits, m.score));
    var raw := Confidence(m.score, size, e1.hits);
    var e2 := Observe(e1, h, now, m, canonical, raw, EffectiveStability(h.stability));
    var e3 := Smoothed(e2, h.generation, m.phrase, raw);
    if Confident(e3.smooth, raw) && Allowed(e3, h.generation, now) then
      (Fired(e3, h.generation, now), Some(Wake(m.phrase, raw, e3.smooth, h.generation, now)))
    else (e3, None)
  }

  function EffectiveStability(stability: nat): nat {
    if stability < STABILITY_CAP then stability else STABILITY_CAP
  }

  /** The peak is pushed as well when it says more than the text. */
  predicate PeakCounts(h: Heard) {
    h.peak != "" && h.peak != h.text && |h.peak| > |h.text|
  }

  function WithText(buffer: seq<HB.Entry>, h: Heard, now: real): seq<HB.Entry> {
    HB.Pushed(buffer, HB.Entry(now, h.text, EffectiveStability(h.stability)))
  }

  function WithPeak(buffer: seq<HB.Entry>, h: Heard, now: real): seq<HB.Entry> {
    if PeakCounts(h) then HB.Pushed(buffer, HB.Entry(now, h.peak, EffectiveStability(h.stability) + 2)) else buffer
  }

  /** The window after the text, and the longer peak behind it, have been pushed. */
  function Buffered(buffer: seq<HB.Entry>, h: Heard, now: real): seq<HB.Entry> {
    HB.Recent(WithPeak(WithText(buffer, h, now), h, now), now - HB.WINDOW_SECONDS)
  }

  function OnWindow(e: Engine, h: Heard, now: real, p: M.Phrases, f: M.Foreign): (Engine, Option<Wake>) {
    var m := M.BestMatch(HB.Window(e.buffer), p, f);
    Decide(e, h, now, |e.buffer|, m, M.CanonicalOf(m.variant, p))
  }

  function OnHypothesis(e: Engine, h: Heard, now: real, p: M.Phrases, f: M.Foreign): (Engine, Option<Wake>) {
    OnWindow(e.(buffer := Buffered(e.buffer, h, now)), h, now, p, f)
  }

  // ----- the objects -----

  class CooldownGate {
    var lastTrigger: real

    constructor ()
      ensures lastTrigger == 0.0
    {
      lastTrigger := 0.0;
    }

    predicate CanTrigger(now: real)
      reads this
    {
      now - lastTrigger >= COOLDOWN_SECONDS
    }

    method MarkTriggered(now: real)
      modifies this
      ensures lastTrigger == now
    {
      lastTrigger := now;
    }
  }

  class TelemetryCollector {
    var wakeCount: nat
    var falseWakeCount: nat
    var activeCandidate: Option<Session>
    var candidateSessions: seq<Archived>

    ghost function Value(): Telemetry
      reads this
    {
      Telemetry(wakeCount, falseWakeCount, activeCandidate, candidateSessions)
    }

    constructor ()
      ensures Value() == NoTelemetry
    {
      wakeCount, falseWakeCount, activeCandidate, candidateSessions := 0, 0, None, [];
    }

    method RegisterWake()
      modifies this`wakeCount
      ensures wakeCount == old(wakeCount) + 1
    {
      wakeCount := wakeCount + 1;
    }

    method StartCandidate(s: Session)
      modifies this
      ensures Value() == TelStart(old(Value()), s)
    {
      if activeCandidate.Some? {
        candidateSessions := candidateSessions + [Archived(activeCandidate.value.(status := Dropped), true)];
        falseWakeCount := falseWakeCount + 1;
      }
      activeCandidate := Some(s);
    }

    method UpdateCandidate(text: string, raw: real, smooth: real, frames: nat, now: real)
      modifies this`activeCandidate
      ensures Value() == TelUpdate(old(Value()), text, raw, smooth, frames, now)
    {
      if activeCandidate.Some? {
        activeCandidate := Some(Refreshed(activeCandidate.value, text, raw, smooth, frames, now));
      }
    }

    method ConfirmCandidate()
      modifies this
      ensures Value() == TelConfirm(old(Value()))
    {
      if activeCandidate.Some? {
        candidateSessions := candidateSessions + [Archived(activeCandidate.value.(status := Confirmed), false)];
        activeCandidate := None;
      }
    }

    method DropCandidate()
      modifies this
      ensures Value() == TelDrop(old(Value()))
    {
      if activeCandidate.Some? {
        candidateSessions := candidateSessions + [Archived(activeCandidate.value.(status := Dropped), false)];
        activeCandidate := None;
        falseWakeCount := falseWakeCount + 1;
      }
    }
  }

  class WakeEngine {
    const buffer: HB.Buffer
    const cooldown: CooldownGate
    const telemetry: TelemetryCollector
    var hitCount: nat
    var lastTriggerGeneration: int
    var lastSeenGeneration: int
    var smoothConf: real
    var lastMatchedPhrase: string
    var wakeCount: nat
    var candidate: Option<Session>
    var paused: bool

    ghost function Value(): Engine
      reads this, buffer, cooldown, telemetry
    {
      Engine(buffer.buf, cooldown.lastTrigger, hitCount, lastTriggerGeneration, lastSeenGeneration,
             smoothConf, lastMatchedPhrase, wakeCount, candidate, telemetry.Value())
    }

    constructor ()
      ensures fresh(buffer) && fresh(cooldown) && fresh(telemetry)
      ensures Value() == Initial && !paused
    {
      buffer := new HB.Buffer();
      cooldown := new CooldownGate();
      telemetry := new TelemetryCollector();
      hitCount, lastTriggerGeneration, lastSeenGeneration := 0, -1, -1;
      smoothConf, lastMatchedPhrase, wakeCount, candidate, paused := 0.0, "", 0, None, false;
    }

    method ObserveCandidate(h: Heard, now: real, m: M.Match, canonical: string, raw: real, frames: nat)
      modifies this`candidate, telemetry
      ensures Value() == Observe(old(Value()), h, now, m, canonical, raw, frames)
    {
      if m.phrase != "" && raw >= CANDIDATE_THRESHOLD {
        if candidate.None? || candidate.value.phrase != m.phrase {
          var s := Session(m.phrase, m.variant, if canonical != "" then canonical else m.phrase,
                           now, now, raw, smoothConf, [h.text], frames, Started);
          candidate := Some(s);
          telemetry.StartCandidate(s);
        } else {
          candidate := Some(Refreshed(candidate.value, h.text, raw, smoothConf, frames, now));
          telemetry.UpdateCandidate(h.text, raw, smoothConf, frames, now);
        }
      } else if candidate.Some? && now - candidate.value.lastUpdate > CANDIDATE_EXPIRY {
        telemetry.DropCandidate();
        candidate := None;
      }
    }

    method SmoothConfidence(generation: int, phrase: string, raw: real)
      modifies this`smoothConf, this`hitCount, this`lastSeenGeneration, this`lastMatchedPhrase
      ensures Value() == Smoothed(old(Value()), generation, phrase, raw)
    {
      if generation != lastSeenGeneration {
        smoothConf := 0.0;
        hitCount := 0;
        lastSeenGeneration := generation;
      }
      if phrase != "" && phrase != lastMatchedPhrase {
        smoothConf := 0.0;
        lastMatchedPhrase := phrase;
      }
      var alpha := if raw > smoothConf then EMA_RISE_ALPHA else EMA_DECAY_ALPHA;
      smoothConf := alpha * raw + (1.0 - alpha) * smoothConf;
    }

    method Fire(generation: int, now: real)
      modifies this, buffer, cooldown, telemetry
      ensures Value() == Fired(old(Value()), generation, now) && paused == old(paused)
    {
      lastTriggerGeneration := generation;
      cooldown.MarkTriggered(now);
      buffer.Clear();
      hitCount := 0;
      wakeCount := wakeCount + 1;
      telemetry.RegisterWake();
      telemetry.ConfirmCandidate();
      candidate := None;
      smoothConf := 0.0;
    }

    method DecideOn(h: Heard, now: real, size: nat, m: M.Match, canonical: string) returns (wake: Option<Wake>)
      modifies this, buffer, cooldown, telemetry
      ensures (Value(), wake) == Decide(old(Value()), h, now, size, m, canonical) && paused == old(paused)
    {
      hitCount := HitsAfter(hitCount, m.score);
      var raw := Confidence(m.score, size, hitCount);
      ObserveCandidate(h, now, m, canonical, raw, EffectiveStability(h.stability));
      SmoothConfidence(h.generation, m.phrase, raw);
      if !Confident(smoothConf, raw) { return None; }
      if h.generation == lastTriggerGeneration { return None; }
      if !cooldown.CanTrigger(now) { return None; }
      wake := Some(Wake(m.phrase, raw, smoothConf, h.generation, now));
      Fire(h.generation, now);
    }

    method PushPeak(h: Heard, now: real)
      requires buffer.Valid(now)
      modifies buffer
      ensures buffer.Valid(now) && buffer.buf == WithPeak(old(buffer.buf), h, now)
    {
      if PeakCounts(h) {
        buffer.Push(h.peak, EffectiveStability(h.stability) + 2, now);
      }
    }

    method FillBuffer(h: Heard, now: real) returns (window: M.Window)
      requires buffer.Valid(now)
      modifies buffer
      ensures buffer.Valid(now)
      ensures buffer.buf == Buffered(old(buffer.buf), h, now) && window == HB.Window(buffer.buf)
    {
      buffer.Push(h.text, EffectiveStability(h.stability), now);
      PushPeak(h, now);
      window := buffer.GetWindow(now);
    }

    /** `_on_hypothesis`: nothing while paused, otherwise `OnHypothesis`. */
    method HandleHypothesis(h: Heard, now: real, p: M.Phrases, f: M.Foreign) returns (wake: Option<Wake>)
      requires buffer.Valid(now)
      modifies this, buffer, cooldown, telemetry
      ensures buffer.Valid(now) && paused == old(paused)
      ensures old(paused) ==> Value() == old(Value()) && wake == None
      ensures !old(paused) ==> (Value(), wake) == OnHypothesis(old(Value()), h, now, p, f)
    {
      if paused { return None; }
      var window := FillBuffer(h, now);
      wake := DecideOnWindow(h, now, window, p, f);
    }

    method DecideOnWindow(h: Heard, now: real, window: M.Window, p: M.Phrases, f: M.Foreign)
      returns (wake: Option<Wake>)
      requires buffer.Valid(now) && window == HB.Window(buffer.buf)
      modifies this, buffer, cooldown, telemetry
      ensures buffer.Valid(now) && paused == old(paused)
      ensures (Value(), wake) == OnWindow(old(Value()), h, now, p, f)
    {
      var m := M.ComputeBestMatch(window, p, f);
      wake := DecideOn(h, now, |window|, m, M.CanonicalOf(m.variant, p));
      assert buffer.buf == old(buffer.buf) || buffer.buf == [];
    }
  }
}
