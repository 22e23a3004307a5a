/**
 Worker, recogniser stream and wake engine in one loop: a delivered hypothesis may cause a wake, and a
 wake resets the stream the worker feeds.

 Each step is a step of `WorkerRuns` and, when a hypothesis is delivered to an engine that is not
 paused, a step of `WakeRuns`; so everything proved there holds here. Main results: wakes are at least
 2 seconds and a generation apart (`WakesAreApart`), every hypothesis delivered after a wake carries a
 larger generation (`LaterHypothesesAreNewer`), and the engine's generation gate therefore never has
 to reject anything (`GenerationGateNeverRejects`).
 */
module ClosedLoop {
  import opened Common
  import A = AudioWorker
  import WR = WorkerRuns
  import E = WakeEngine
  import R = WakeRuns
  import M = Matcher
  import V = VadFraming

  /** The streamer's part in the loop: after a wake or a recovery it resets provider, detector and worker. */
  class Streamer<S> {
    const vad: V.HybridVAD<S>
    const worker: A.AudioWorker

    constructor (vad: V.HybridVAD<S>, worker: A.AudioWorker)
      ensures this.vad == vad && this.worker == worker
    {
      this.vad, this.worker := vad, worker;
    }

    method ResetStream(now: real)
      modifies vad, worker, worker.provider
      ensures worker.Valid() && worker.Value() == A.StreamReset(old(worker.Value()), now)
      ensures vad.Valid() && vad.State() == old(vad.State()).(frames := V.Reset(vad.env))
    {
      worker.provider.Reset(now);
      vad.ResetState();
      worker.ClearState();
    }
  }

  datatype Event =
    | Take(vad: bool, now: real, text: string, p: M.Phrases)
    | Reset(now: real)
    | SetPaused(paused: bool)

  /** A hypothesis given to the engine: its generation, and how many wakes had happened before. */
  datatype Delivery = Delivery(generation: int, after: nat)

  datatype Loop = Loop(asr: WR.World, engine: R.World, paused: bool, heard: seq<Delivery>)

  function Start(t0: real): Loop {
    Loop(WR.Start(t0), R.Start, false, [])
  }

  /** What the worker delivers for the next chunk. */
  function Delivered(l: Loop, vad: bool, now: real, text: string): Option<A.Hypothesis> {
    A.Process(l.asr.a, |l.asr.spoke|, vad, now, text).1
  }

  function AsHeard(h: A.Hypothesis): E.Heard {
    E.Heard(h.text, h.stable, h.peak, h.generation)
  }

  /** The engine's answer to a hypothesis: whether a wake was added. */
  predicate Woke(before: R.World, after: R.World) {
    |after.wakes| > |before.wakes|
  }

  function Step(l: Loop, ev: Event, f: M.Foreign): Loop {
    match ev
    case Reset(now) => l.(asr := WR.Step(l.asr, WR.ExternalReset(now)))
    case SetPaused(paused) => l.(paused := paused)
    case Take(vad, now, text, p) =>
      match Delivered(l, vad, now, text)
      case None => l.(asr := WR.Step(l.asr, WR.Take(vad, now, text, false)))
      case Some(h) =>
        var engine := if l.paused then l.engine else R.Step(l.engine, R.Event(AsHeard(h), now, p), f);
        Loop(WR.Step(l.asr, WR.Take(vad, now, text, Woke(l.engine, engine))), engine, l.paused,
             l.heard + [Delivery(h.generation, |l.engine.wakes|)])
  }

  ghost predicate Enabled(l: Loop, ev: Event) {
    match ev
    case Take(_, now, _, p) => now >= l.asr.clock && M.NonEmpty(p)
    case Reset(now) => now >= l.asr.clock
    case SetPaused(_) => true
  }

  ghost predicate ValidRun(l: Loop, evs: seq<Event>, f: M.Foreign)
    decreases |evs|
  {
    evs == [] || (Enabled(l, evs[0]) && ValidRun(Step(l, evs[0], f), evs[1..], f))
  }

  function Run(l: Loop, evs: seq<Event>, f: M.Foreign): Loop
    decreases |evs|
  {
    if evs == [] then l else Run(Step(l, evs[0], f), evs[1..], f)
  }

  // ----- the invariant -----

  /** Wakes are a generation and the cooldown apart. */
  ghost predicate Apart(wakes: seq<E.Wake>) {
    forall i, j :: 0 <= i < j < |wakes| ==>
      wakes[i].generation < wakes[j].generation && wakes[j].time - wakes[i].time >= 2.0
  }

  /** The gates remember the last wake, and the stream has moved past its generation. */
  ghost predicate Gated(l: Loop) {
    var e, wakes := l.engine.e, l.engine.wakes;
    && e.triggerGen < l.asr.a.p.generation
    && (forall i :: 0 <= i < |wakes| ==> wakes[i].generation <= e.triggerGen && wakes[i].time <= e.lastTrigger)
  }

  /** A hypothesis is newer than every wake before it. */
  ghost predicate Newer(d: Delivery, wakes: seq<E.Wake>) {
    d.after <= |wakes| && forall i :: 0 <= i < d.after ==> wakes[i].generation < d.generation
  }

  ghost predicate AllNewer(l: Loop) {
    forall i :: 0 <= i < |l.heard| ==> Newer(l.heard[i], l.engine.wakes)
  }

  ghost predicate Inv(l: Loop) {
    && WR.Inv(l.asr)
    && R.Inv(l.engine)
    && Apart(l.engine.wakes)
    && Gated(l)
    && AllNewer(l)
  }

  // ----- what one step does -----

  /** A hypothesis carries the stream's generation; a chunk without one can only raise it. */
  lemma DeliveredGeneration(l: Loop, vad: bool, now: real, text: string, wake: bool)
    ensures var w' := WR.Step(l.asr, WR.Take(vad, now, text, wake)); var h := Delivered(l, vad, now, text);
      && w'.a.p.generation >= l.asr.a.p.generation
      && (h.Some? ==> h.value.generation == l.asr.a.p.generation)
      && (h.Some? && wake ==> w'.a.p.generation == l.asr.a.p.generation + 1)
  {
  }

  /** The engine either leaves wakes and gates alone, or adds one wake through open gates. */
  lemma EngineStep(w: R.World, ev: R.Event, f: M.Foreign)
    ensures var w' := R.Step(w, ev, f);
      if Woke(w, w') then
        && |w'.wakes| == |w.wakes| + 1 && w'.wakes[..|w.wakes|] == w.wakes
        && w'.wakes[|w.wakes|].generation == ev.h.generation && w'.wakes[|w.wakes|].time == ev.now
        && w'.e.triggerGen == ev.h.generation && w'.e.lastTrigger == ev.now
        && E.Allowed(w.e, ev.h.generation, ev.now)
      else
        w'.wakes == w.wakes && w'.e.triggerGen == w.e.triggerGen && w'.e.lastTrigger == w.e.lastTrigger
  {
  }

  /** A wake through open gates keeps wakes apart, and the new stream generation keeps the gates shut. */
  lemma WakeInv(l: Loop, l': Loop, wake: E.Wake)
    requires Apart(l.engine.wakes) && Gated(l)
    requires l'.engine.wakes == l.engine.wakes + [wake]
    requires wake.generation == l.asr.a.p.generation && E.Allowed(l.engine.e, wake.generation, wake.time)
    requires l'.engine.e.triggerGen == wake.generation && l'.engine.e.lastTrigger == wake.time
    requires l'.asr.a.p.generation > wake.generation
    ensures Apart(l'.engine.wakes) && Gated(l')
  {
  }

  lemma HeardInv(l: Loop, l': Loop, d: Delivery)
    requires Gated(l) && AllNewer(l)
    requires d == Delivery(l.asr.a.p.generation, |l.engine.wakes|)
    requires l'.heard == l.heard + [d] && l.engine.wakes <= l'.engine.wakes
    ensures AllNewer(l')
  {
  }

  lemma SilentInv(l: Loop, ev: Event, f: M.Foreign)
    requires Inv(l) && ev.Take? && Enabled(l, ev) && Delivered(l, ev.vad, ev.now, ev.text).None?
    ensures Inv(Step(l, ev, f))
  {
    WR.StepInv(l.asr, WR.Take(ev.vad, ev.now, ev.text, false));
    DeliveredGeneration(l, ev.vad, ev.now, ev.text, false);
  }

  /** The engine's part of a step: its own invariant, and wakes and gates against the stream's next generation. */
  lemma EngineInv(l: Loop, h: A.Hypothesis, ev: Event, asr: WR.World, f: M.Foreign)
    requires R.Inv(l.engine) && Apart(l.engine.wakes) && Gated(l) && M.InRange(f) && ev.Take? && M.NonEmpty(ev.p)
    requires h.generation == l.asr.a.p.generation <= asr.a.p.generation
    requires var engine := R.Step(l.engine, R.Event(AsHeard(h), ev.now, ev.p), f);
      Woke(l.engine, engine) ==> asr.a.p.generation > h.generation
    ensures var engine := R.Step(l.engine, R.Event(AsHeard(h), ev.now, ev.p), f);
      && R.Inv(engine) && Apart(engine.wakes) && l.engine.wakes <= engine.wakes
      && Gated(Loop(asr, engine, l.paused, []))
  {
    var rev := R.Event(AsHeard(h), ev.now, ev.p);
    var engine := R.Step(l.engine, rev, f);
    R.StepInv(l.engine, rev, f);
    EngineStep(l.engine, rev, f);
    if Woke(l.engine, engine) {
      assert engine.wakes == l.engine.wakes + [engine.wakes[|l.engine.wakes|]];
      WakeInv(l, Loop(asr, engine, l.paused, []), engine.wakes[|l.engine.wakes|]);
    }
  }

  lemma HeardStepInv(l: Loop, h: A.Hypothesis, ev: Event, f: M.Foreign)
    requires Inv(l) && ev.Take? && Enabled(l, ev) && M.InRange(f)
    requires Delivered(l, ev.vad, ev.now, ev.text) == Some(h)
    ensures Inv(Step(l, ev, f))
  {
    var l' := Step(l, ev, f);
    var woke := Woke(l.engine, l'.engine);
    WR.StepInv(l.asr, WR.Take(ev.vad, ev.now, ev.text, woke));
    DeliveredGeneration(l, ev.vad, ev.now, ev.text, woke);
    if !l.paused { EngineInv(l, h, ev, l'.asr, f); }
    HeardInv(l, l', Delivery(h.generation, |l.engine.wakes|));
  }

  lemma TakeInv(l: Loop, ev: Event, f: M.Foreign)
    requires Inv(l) && ev.Take? && Enabled(l, ev) && M.InRange(f)
    ensures Inv(Step(l, ev, f))
  {
    match Delivered(l, ev.vad, ev.now, ev.text)
    case None => SilentInv(l, ev, f);
    case Some(h) => HeardStepInv(l, h, ev, f);
  }

  lemma StepInv(l: Loop, ev: Event, f: M.Foreign)
    requires Inv(l) && Enabled(l, ev) && M.InRange(f)
    ensures Inv(Step(l, ev, f))
  {
    match ev
    case Take(_, _, _, _) => TakeInv(l, ev, f);
    case Reset(now) => WR.StepInv(l.asr, WR.ExternalReset(now));
    case SetPaused(_) =>
  }

  lemma NothingYet(w: WR.World, r: R.World)
    requires WR.Inv(w) && R.Inv(r) && r.wakes == [] && r.e.triggerGen < w.a.p.generation
    ensures Inv(Loop(w, r, false, []))
  {
  }

  lemma NothingAtStart(t0: real)
    ensures R.Start.wakes == [] && R.Start.e.triggerGen < WR.Start(t0).a.p.generation
  {
  }

  lemma StartInv(t0: real)
    ensures Inv(Start(t0))
  {
    assert WR.Inv(WR.Start(t0)) by { WR.StartInv(t0); }
    assert R.Inv(R.Start) by { R.StartInv(); }
    NothingAtStart(t0);
    NothingYet(WR.Start(t0), R.Start);
  }

  lemma {:induction false} RunInv(l: Loop, evs: seq<Event>, f: M.Foreign)
    requires Inv(l) && ValidRun(l, evs, f) && M.InRange(f)
    ensures Inv(Run(l, evs, f))
    decreases |evs|
  {
    if evs == [] {
    } else {
      StepInv(l, evs[0], f);
      RunInv(Step(l, evs[0], f), evs[1..], f);
    }
  }

  // ----- main results -----

  /** The generation gate lets every next hypothesis of the worker through. */
  ghost predicate GateOpen(l: Loop) {
    forall vad, now, text :: var h := Delivered(l, vad, now, text);
      h.Some? ==> h.value.generation > l.engine.e.triggerGen
  }

  lemma Consequences(l: Loop)
    requires Inv(l)
    ensures Apart(l.engine.wakes) && AllNewer(l) && GateOpen(l) && WR.Inv(l.asr) && R.Inv(l.engine)
  {
  }

  /** At most one wake per generation, each at least 2 seconds after the one before. */
  lemma WakesAreApart(t0: real, evs: seq<Event>, f: M.Foreign)
    requires ValidRun(Start(t0), evs, f) && M.InRange(f)
    ensures Apart(Run(Start(t0), evs, f).engine.wakes)
  {
    StartInv(t0);
    RunInv(Start(t0), evs, f);
    Consequences(Run(Start(t0), evs, f));
  }

  /** Every hypothesis delivered after a wake carries a strictly larger generation than the wake. */
  lemma LaterHypothesesAreNewer(t0: real, evs: seq<Event>, f: M.Foreign)
    requires ValidRun(Start(t0), evs, f) && M.InRange(f)
    ensures AllNewer(Run(Start(t0), evs, f))
  {
    StartInv(t0);
    RunInv(Start(t0), evs, f);
    Consequences(Run(Start(t0), evs, f));
  }

  /** Whatever the worker delivers next, its generation is not the one that last triggered. */
  lemma GenerationGateNeverRejects(t0: real, evs: seq<Event>, f: M.Foreign)
    requires ValidRun(Start(t0), evs, f) && M.InRange(f)
    ensures GateOpen(Run(Start(t0), evs, f))
  {
    StartInv(t0);
    RunInv(Start(t0), evs, f);
    Consequences(Run(Start(t0), evs, f));
  }

  /** The worker's guarantees and the engine's hold in the loop. */
  lemma LoopKeepsBoth(t0: real, evs: seq<Event>, f: M.Foreign)
    requires ValidRun(Start(t0), evs, f) && M.InRange(f)
    ensures WR.Inv(Run(Start(t0), evs, f).asr) && R.Inv(Run(Start(t0), evs, f).engine)
  {
    StartInv(t0);
    RunInv(Start(t0), evs, f);
    Consequences(Run(Start(t0), evs, f));
  }

  /**
   The engine gets every hypothesis the worker delivers, unless it is paused, with its text, repetitions,
   longest text and generation; and the worker's stream is reset exactly on the chunks that wake.
   */
  lemma LoopStep(l: Loop, vad: bool, now: real, text: string, p: M.Phrases, f: M.Foreign)
    ensures var l' := Step(l, Take(vad, now, text, p), f);
      && l'.paused == l.paused
      && l'.asr == WR.Step(l.asr, WR.Take(vad, now, text, |l'.engine.wakes| > |l.engine.wakes|))
      && |l'.asr.hyps| == |l.asr.hyps| + 1
      && var hyp := l'.asr.hyps[|l.asr.hyps|];
         if hyp.None? || l.paused then l'.engine == l.engine
         else
           var h := hyp.value;
           l'.engine == R.Step(l.engine, R.Event(E.Heard(h.text, h.stable, h.peak, h.generation), now, p), f)
  {
  }
}
