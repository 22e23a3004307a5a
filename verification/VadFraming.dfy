/**
 The two-stage voice-activity detector, with the Silero model loaded: chunks of any size are cut into
 512-sample segments, each fed to the model behind the 64 samples that precede it.

 Main result (`FramingIgnoresBoundaries`): what the model has been fed since the last reset, its
 recurrent state and the samples left over depend only on the concatenation of the chunks that passed
 the two gates, not on where the chunks were cut.
 */
module VadFraming {
  import opened Common

  const SEGMENT := 512
  const CONTEXT := 64
  const SILENCE_RMS := 0.0001
  const RMS_FLOOR := 0.005
  const SILERO_THRESHOLD := 0.15
  const NOISE_FLOOR_MULTIPLIER := 1.8
  const NOISE_HISTORY_FRAMES := 40

  function Zeros(n: nat): (z: seq<real>)
    ensures |z| == n && forall i :: 0 <= i < n ==> z[i] == 0.0
  {
    seq(n, _ => 0.0)
  }

  /** The foreign parts: one run of the ONNX graph, its initial state, and the median of a history. */
  datatype Foreign<!S> = Foreign(model: (seq<real>, S) -> (real, S), start: S, median: seq<real> -> real)

  /** Framing state; `inputs` and `probs` record the model runs since the last reset. */
  datatype Framing<S> = Framing(buffer: seq<real>, context: seq<real>, rnn: S, inputs: seq<seq<real>>, probs: seq<real>)

  datatype Stats = Stats(webrtcDropped: nat, sileroDropped: nat, speechPassed: nat, noise: seq<real>)

  datatype Vad<S> = Vad(frames: Framing<S>, stats: Stats)

  datatype Verdict = Verdict(webrtc: bool, prob: real, pass: bool)

  function Reset<S>(env: Foreign<S>): Framing<S> {
    Framing([], Zeros(CONTEXT), env.start, [], [])
  }

  /** `_run_silero` on the first segment of the buffer. */
  function RunModel<S>(f: Framing<S>, env: Foreign<S>): (r: Framing<S>)
    requires |f.buffer| >= SEGMENT && |f.context| == CONTEXT
    ensures |r.context| == CONTEXT
  {
    var input := f.context + f.buffer[..SEGMENT];
    var (prob, rnn) := env.model(input, f.rnn);
    Framing(f.buffer[SEGMENT..], input[|input| - CONTEXT..], rnn, f.inputs + [input], f.probs + [prob])
  }

  function Drain<S>(f: Framing<S>, env: Foreign<S>): (r: Framing<S>)
    requires |f.context| == CONTEXT
    ensures |r.context| == CONTEXT && |r.buffer| < SEGMENT
    ensures f.inputs <= r.inputs && f.probs <= r.probs
    decreases |f.buffer|
  {
    if |f.buffer| < SEGMENT then f else Drain(RunModel(f, env), env)
  }

  function MaxProb(ps: seq<real>): real {
    if ps == [] then 0.0
    else if |ps| == 1 then ps[0]
    else var m := MaxProb(ps[1..]); if ps[0] >= m then ps[0] else m
  }

  function EnergyThreshold<S>(noise: seq<real>, env: Foreign<S>): real {
    var floor := if noise == [] then RMS_FLOOR else RMax(env.median(noise), RMS_FLOOR);
    RMax(RMS_FLOOR, floor * NOISE_FLOOR_MULTIPLIER)
  }

  /** Appending to a deque that keeps its last `NOISE_HISTORY_FRAMES` values. */
  function Remember(noise: seq<real>, rms: real): seq<real> {
    var n := noise + [rms];
    if |n| > NOISE_HISTORY_FRAMES then n[|n| - NOISE_HISTORY_FRAMES..] else n
  }

  /** The energy fallback that ends both later gates. */
  function Judge<S>(st: Stats, rms: real, confirmed: bool, env: Foreign<S>): (Stats, bool) {
    if confirmed || rms >= EnergyThreshold(st.noise, env) then (st.(speechPassed := st.speechPassed + 1), true)
    else (st.(noise := Remember(st.noise, rms)), false)
  }

  function ProcessChunk<S>(
      v: Vad<S>, chunk: seq<real>, rms: real, webrtc: bool, env: Foreign<S>): (r: (Vad<S>, Verdict))
    requires |v.frames.context| == CONTEXT
    ensures |r.0.frames.context| == CONTEXT
  {
    if rms < SILENCE_RMS then
      (v.(stats := v.stats.(webrtcDropped := v.stats.webrtcDropped + 1)), Verdict(false, 0.0, false))
    else if !webrtc then
      var (st, pass) := Judge(v.stats.(webrtcDropped := v.stats.webrtcDropped + 1), rms, false, env);
      (Vad(Reset(env), st), Verdict(false, 0.0, pass))
    else
      var f := Drain(v.frames.(buffer := v.frames.buffer + chunk), env);
      var prob := MaxProb(f.probs[|v.frames.probs|..]);
      var (st, pass) := Judge(v.stats, rms, prob >= SILERO_THRESHOLD, env);
      (Vad(f, if pass then st else st.(sileroDropped := st.sileroDropped + 1)), Verdict(true, prob, pass))
  }

  class HybridVAD<S> {
    const env: Foreign<S>
    var audioBuffer: seq<real>
    var sileroState: S
    var sileroContext: seq<real>
    ghost var inputs: seq<seq<real>>
    ghost var probsSoFar: seq<real>
    var webrtcDropped: nat
    var sileroDropped: nat
    var speechPassed: nat
    var noiseHistory: seq<real>

    ghost predicate Valid()
      reads this
    {
      |sileroContext| == CONTEXT && |audioBuffer| < SEGMENT
    }

    ghost function Frames(): Framing<S>
      reads this
    {
      Framing(audioBuffer, sileroContext, sileroState, inputs, probsSoFar)
    }

    ghost function State(): Vad<S>
      reads this
    {
      Vad(Frames(), Stats(webrtcDropped, sileroDropped, speechPassed, noiseHistory))
    }

    constructor (env: Foreign<S>)
      ensures this.env == env && Valid() && State() == Vad(Reset(env), Stats(0, 0, 0, []))
    {
      this.env := env;
      audioBuffer, sileroState, sileroContext := [], env.start, Zeros(CONTEXT);
      inputs, probsSoFar := [], [];
      webrtcDropped, sileroDropped, speechPassed, noiseHistory := 0, 0, 0, [];
    }

    method ResetState()
      modifies this`audioBuffer, this`sileroState, this`sileroContext, this`inputs, this`probsSoFar
      ensures Valid() && Frames() == Reset(env)
    {
      audioBuffer, sileroState, sileroContext := [], env.start, Zeros(CONTEXT);
      inputs, probsSoFar := [], [];
    }

    method RunSilero(segment: seq<real>) returns (prob: real)
      requires |segment| == SEGMENT && |sileroContext| == CONTEXT
      modifies this`sileroState, this`sileroContext, this`inputs, this`probsSoFar
      ensures forall rest :: Frames().(buffer := rest) == RunModel(old(Frames()).(buffer := segment + rest), env)
      ensures |sileroContext| == CONTEXT && probsSoFar == old(probsSoFar) + [prob]
    {
      var input := sileroContext + segment;
      var (p, next) := env.model(input, sileroState);
      forall rest ensures (segment + rest)[..SEGMENT] == segment && (segment + rest)[SEGMENT..] == rest {}
      sileroState := next;
      sileroContext := input[|input| - CONTEXT..];
      inputs, probsSoFar := inputs + [input], probsSoFar + [p];
      prob := p;
    }

    method JudgeEnergy(rms: real, confirmed: bool) returns (pass: bool)
      modifies this`speechPassed, this`noiseHistory
      ensures (Stats(webrtcDropped, sileroDropped, speechPassed, noiseHistory), pass)
           == Judge(old(Stats(webrtcDropped, sileroDropped, speechPassed, noiseHistory)), rms, confirmed, env)
    {
      var threshold := EnergyThreshold(noiseHistory, env);
      if confirmed || rms >= threshold {
        pass := true;
        speechPassed := speechPassed + 1;
      } else {
        pass := false;
        noiseHistory := Remember(noiseHistory, rms);
      }
    }

    /** `rms` and `webrtc` stand for the chunk's energy and the prefilter's verdict on it. */
    method Process(chunk: seq<real>, rms: real, webrtc: bool) returns (verdict: Verdict)
      requires Valid()
      modifies this
      ensures Valid()
      ensures (State(), verdict) == ProcessChunk(old(State()), chunk, rms, webrtc, env)
    {
      if rms < SILENCE_RMS {
        webrtcDropped := webrtcDropped + 1;
        return Verdict(false, 0.0, false);
      }
      audioBuffer := audioBuffer + chunk;
      if !webrtc {
        webrtcDropped := webrtcDropped + 1;
        ResetState();
        var pass := JudgeEnergy(rms, false);
        return Verdict(false, 0.0, pass);
      }
      var probs := DrainBuffer();
      var prob := MaxProb(probs);
      var pass := JudgeEnergy(rms, prob >= SILERO_THRESHOLD);
      if !pass { sileroDropped := sileroDropped + 1; }
      verdict := Verdict(true, prob, pass);
    }

    method DrainBuffer() returns (probs: seq<real>)
      requires |sileroContext| == CONTEXT
      modifies this`audioBuffer, this`sileroState, this`sileroContext, this`inputs, this`probsSoFar
      ensures Valid() && Frames() == Drain(old(Frames()), env)
      ensures probsSoFar == old(probsSoFar) + probs
    {
      probs := [];
      while |audioBuffer| >= SEGMENT
        invariant |sileroContext| == CONTEXT
        invariant Drain(Frames(), env) == Drain(old(Frames()), env)
        invariant probsSoFar == old(probsSoFar) + probs
        decreases |audioBuffer|
      {
        var segment := audioBuffer[..SEGMENT];
        var rest := audioBuffer[SEGMENT..];
        assert segment + rest == audioBuffer;
        ghost var before := Frames();
        assert before.(buffer := segment + rest) == before;
        var prob := RunSilero(segment);
        audioBuffer := rest;
        assert Frames() == RunModel(before, env);
        probs := probs + [prob];
      }
    }
  }

  // ----- framing against the whole stream -----

  /** Model run `i` on stream `x`: segment `i` behind the 64 samples before it, zeros before the start. */
  ghost function Input(x: seq<real>, i: nat): seq<real>
    requires SEGMENT * (i + 1) <= |x|
  {
    (Zeros(CONTEXT) + x)[SEGMENT * i..SEGMENT * (i + 1) + CONTEXT]
  }

  ghost function RnnAfter<S>(inputs: seq<seq<real>>, env: Foreign<S>): S {
    if inputs == [] then env.start
    else env.model(inputs[|inputs| - 1], RnnAfter(inputs[..|inputs| - 1], env)).1
  }

  /** As many segments have been cut from stream `x` as there were model runs; the rest is buffered. */
  ghost predicate CutFrom<S>(f: Framing<S>, x: seq<real>) {
    var n := |f.inputs|;
    && SEGMENT * n <= |x|
    && f.buffer == x[SEGMENT * n..]
    && f.context == (Zeros(CONTEXT) + x)[SEGMENT * n..SEGMENT * n + CONTEXT]
    && forall i :: 0 <= i < n ==> SEGMENT * (i + 1) <= |x| && f.inputs[i] == Input(x, i)
  }

  /** The recurrent state and the probabilities are those of the recorded runs. */
  ghost predicate Recurrent<S>(f: Framing<S>, env: Foreign<S>) {
    && f.rnn == RnnAfter(f.inputs, env)
    && |f.probs| == |f.inputs|
    && forall i :: 0 <= i < |f.probs| ==> f.probs[i] == env.model(f.inputs[i], RnnAfter(f.inputs[..i], env)).0
  }

  ghost predicate Aligned<S>(f: Framing<S>, x: seq<real>, env: Foreign<S>) {
    CutFrom(f, x) && Recurrent(f, env)
  }

  lemma InputPrefix(x: seq<real>, y: seq<real>, i: nat)
    requires SEGMENT * (i + 1) <= |x|
    ensures Input(x + y, i) == Input(x, i)
  {
  }

  lemma AppendAligned<S>(f: Framing<S>, x: seq<real>, chunk: seq<real>, env: Foreign<S>)
    requires Aligned(f, x, env)
    ensures Aligned(f.(buffer := f.buffer + chunk), x + chunk, env)
  {
    forall i | 0 <= i < |f.inputs| ensures f.inputs[i] == Input(x + chunk, i) {
      InputPrefix(x, chunk, i);
    }
    assert Zeros(CONTEXT) + (x + chunk) == (Zeros(CONTEXT) + x) + chunk;
  }

  /** The model's next input is the next segment of the stream behind its context. */
  lemma NextInput(x: seq<real>, n: nat, context: seq<real>, buffer: seq<real>)
    requires SEGMENT * (n + 1) <= |x| && buffer == x[SEGMENT * n..]
    requires context == (Zeros(CONTEXT) + x)[SEGMENT * n..SEGMENT * n + CONTEXT]
    ensures var input := context + buffer[..SEGMENT];
      && input == Input(x, n)
      && input[|input| - CONTEXT..] == (Zeros(CONTEXT) + x)[SEGMENT * (n + 1)..SEGMENT * (n + 1) + CONTEXT]
  {
  }

  lemma ModelCuts<S>(f: Framing<S>, x: seq<real>, env: Foreign<S>)
    requires CutFrom(f, x) && |f.buffer| >= SEGMENT
    ensures |f.context| == CONTEXT && CutFrom(RunModel(f, env), x)
  {
    var n := |f.inputs|;
    NextInput(x, n, f.context, f.buffer);
    assert f.buffer[SEGMENT..] == x[SEGMENT * (n + 1)..];
  }

  lemma ModelRecurs<S>(f: Framing<S>, env: Foreign<S>)
    requires Recurrent(f, env) && |f.buffer| >= SEGMENT && |f.context| == CONTEXT
    ensures Recurrent(RunModel(f, env), env)
  {
    var f' := RunModel(f, env);
    assert f'.inputs[..|f.inputs|] == f.inputs;
    forall i | 0 <= i < |f'.probs| ensures f'.probs[i] == env.model(f'.inputs[i], RnnAfter(f'.inputs[..i], env)).0 {
      assert f'.inputs[..i] == f.inputs[..i];
    }
  }

  lemma {:induction false} DrainAligned<S>(f: Framing<S>, x: seq<real>, env: Foreign<S>)
    requires Aligned(f, x, env)
    ensures |f.context| == CONTEXT
    ensures Aligned(Drain(f, env), x, env)
    decreases |f.buffer|
  {
    if |f.buffer| >= SEGMENT {
      ModelCuts(f, x, env);
      ModelRecurs(f, env);
      DrainAligned(RunModel(f, env), x, env);
    }
  }

  /** A drained state is determined by the stream. */
  lemma AlignedUnique<S>(f: Framing<S>, g: Framing<S>, x: seq<real>, env: Foreign<S>)
    requires Aligned(f, x, env) && Aligned(g, x, env) && |f.buffer| < SEGMENT && |g.buffer| < SEGMENT
    ensures f == g
  {
    assert SEGMENT * |f.inputs| + |f.buffer| == |x| == SEGMENT * |g.inputs| + |g.buffer|;
    assert f.inputs == g.inputs;
    assert f.probs == g.probs;
  }

  // ----- runs -----

  datatype Event = Chunk(samples: seq<real>, rms: real, webrtc: bool) | StreamReset

  /** The samples gated in since the last reset, after one more event. */
  function Gated(x: seq<real>, ev: Event): seq<real> {
    match ev
    case StreamReset => []
    case Chunk(samples, rms, webrtc) => if rms < SILENCE_RMS then x else if !webrtc then [] else x + samples
  }

  function GatedAll(x: seq<real>, evs: seq<Event>): seq<real>
    decreases |evs|
  {
    if evs == [] then x else GatedAll(Gated(x, evs[0]), evs[1..])
  }

  function Step<S>(v: Vad<S>, ev: Event, env: Foreign<S>): (r: Vad<S>)
    requires |v.frames.context| == CONTEXT
    ensures |r.frames.context| == CONTEXT
  {
    match ev
    case StreamReset => v.(frames := Reset(env))
    case Chunk(samples, rms, webrtc) => ProcessChunk(v, samples, rms, webrtc, env).0
  }

  function Exec<S>(v: Vad<S>, evs: seq<Event>, env: Foreign<S>): Vad<S>
    requires |v.frames.context| == CONTEXT
    decreases |evs|
  {
    if evs == [] then v else Exec(Step(v, evs[0], env), evs[1..], env)
  }

  lemma ResetAligned<S>(env: Foreign<S>)
    ensures Aligned(Reset(env), [], env)
  {
  }

  lemma StepAligned<S>(v: Vad<S>, x: seq<real>, ev: Event, env: Foreign<S>)
    requires Aligned(v.frames, x, env) && |v.frames.buffer| < SEGMENT
    ensures |v.frames.context| == CONTEXT
    ensures var f := Step(v, ev, env).frames; Aligned(f, Gated(x, ev), env) && |f.buffer| < SEGMENT
  {
    ResetAligned(env);
    match ev
    case StreamReset =>
    case Chunk(samples, rms, webrtc) =>
      if rms >= SILENCE_RMS && webrtc {
        AppendAligned(v.frames, x, samples, env);
        DrainAligned(v.frames.(buffer := v.frames.buffer + samples), x + samples, env);
      }
  }

  lemma {:induction false} RunAligned<S>(v: Vad<S>, x: seq<real>, evs: seq<Event>, env: Foreign<S>)
    requires |v.frames.context| == CONTEXT && Aligned(v.frames, x, env) && |v.frames.buffer| < SEGMENT
    ensures var f := Exec(v, evs, env).frames; Aligned(f, GatedAll(x, evs), env) && |f.buffer| < SEGMENT
    decreases |evs|
  {
    if evs == [] {
    } else {
      StepAligned(v, x, evs[0], env);
      RunAligned(Step(v, evs[0], env), Gated(x, evs[0]), evs[1..], env);
    }
  }

  const NoStats := Stats(0, 0, 0, [])

  function Start<S>(env: Foreign<S>): (v: Vad<S>)
    ensures |v.frames.context| == CONTEXT
  {
    Vad(Reset(env), NoStats)
  }

  /**
   After any run, with `x` the samples gated in since the last reset: fewer than 512 are left over, run
   `i` of the model saw segment `i` of `x` behind the 64 samples before it, and its recurrent state is
   the fold of those runs.
   */
  lemma FramesOfStream<S>(evs: seq<Event>, env: Foreign<S>)
    ensures var f, x := Exec(Start(env), evs, env).frames, GatedAll([], evs);
      && |f.buffer| < SEGMENT && |x| == SEGMENT * |f.inputs| + |f.buffer|
      && f.buffer == x[SEGMENT * |f.inputs|..]
      && (forall i :: 0 <= i < |f.inputs| ==> SEGMENT * (i + 1) <= |x| && f.inputs[i] == Input(x, i))
      && f.rnn == RnnAfter(f.inputs, env)
  {
    ResetAligned(env);
    RunAligned(Start(env), [], evs, env);
  }

  /** Two runs that gated in the same samples are in the same framing state, however they were chunked. */
  lemma FramingIgnoresBoundaries<S>(evs: seq<Event>, evs': seq<Event>, env: Foreign<S>)
    requires GatedAll([], evs) == GatedAll([], evs')
    ensures Exec(Start(env), evs, env).frames == Exec(Start(env), evs', env).frames
  {
    ResetAligned(env);
    RunAligned(Start(env), [], evs, env);
    RunAligned(Start(env), [], evs', env);
    AlignedUnique(Exec(Start(env), evs, env).frames, Exec(Start(env), evs', env).frames, GatedAll([], evs), env);
  }

  // ----- verdicts, in numbers -----

  /** Loud enough to pass without the model: above 0.009, and 1.8 times the median of the noise if any was noted. */
  predicate Loud<S>(noise: seq<real>, rms: real, env: Foreign<S>) {
    rms >= 0.009 && (noise == [] || rms >= 1.8 * env.median(noise))
  }

  /** The highest of the probabilities, 0 if there are none. */
  ghost predicate Highest(prob: real, probs: seq<real>) {
    if probs == [] then prob == 0.0
    else prob in probs && forall i :: 0 <= i < |probs| ==> probs[i] <= prob
  }

  lemma {:induction false} MaxProbIsHighest(ps: seq<real>)
    ensures Highest(MaxProb(ps), ps)
  {
    if |ps| <= 1 {
    } else {
      MaxProbIsHighest(ps[1..]);
    }
  }

  /** A chunk that does not pass is noise: its energy is noted, and the last 40 are kept. */
  ghost predicate Noted(st: Stats, st': Stats, rms: real, pass: bool) {
    if pass then st'.speechPassed == st.speechPassed + 1 && st'.noise == st.noise
    else
      && st'.speechPassed == st.speechPassed
      && st'.noise == (if |st.noise| < 40 then st.noise else st.noise[1..]) + [rms]
  }

  /** What the detector does with one chunk. */
  ghost predicate VerdictLaw<S>(v: Vad<S>, v': Vad<S>, verdict: Verdict, rms: real, webrtc: bool, env: Foreign<S>) {
    var st, st' := v.stats, v'.stats;
    if rms < 0.0001 then
      && verdict == Verdict(false, 0.0, false) && v'.frames == v.frames
      && st' == st.(webrtcDropped := st.webrtcDropped + 1)
    else if !webrtc then
      && verdict == Verdict(false, 0.0, Loud(st.noise, rms, env))
      && v'.frames.buffer == [] && v'.frames.rnn == env.start && |v'.frames.context| == 64
      && (forall i :: 0 <= i < 64 ==> v'.frames.context[i] == 0.0)
      && st'.webrtcDropped == st.webrtcDropped + 1 && st'.sileroDropped == st.sileroDropped
      && Noted(st, st', rms, verdict.pass)
    else
      && v.frames.probs <= v'.frames.probs
      && var probs := v'.frames.probs[|v.frames.probs|..];
      && verdict.webrtc && Highest(verdict.prob, probs)
      && (verdict.pass <==> (exists i :: 0 <= i < |probs| && probs[i] >= 0.15) || Loud(st.noise, rms, env))
      && st'.webrtcDropped == st.webrtcDropped
      && st'.sileroDropped == (if verdict.pass then st.sileroDropped else st.sileroDropped + 1)
      && Noted(st, st', rms, verdict.pass)
  }

  lemma JudgeIs<S>(st: Stats, rms: real, confirmed: bool, env: Foreign<S>)
    requires |st.noise| <= 40
    ensures var (st', pass) := Judge(st, rms, confirmed, env);
      && (pass <==> confirmed || Loud(st.noise, rms, env)) && Noted(st, st', rms, pass)
      && st'.webrtcDropped == st.webrtcDropped && st'.sileroDropped == st.sileroDropped
  {
  }

  lemma RejectedVerdict<S>(v: Vad<S>, chunk: seq<real>, rms: real, webrtc: bool, env: Foreign<S>)
    requires |v.frames.context| == CONTEXT && |v.stats.noise| <= 40 && (rms < 0.0001 || !webrtc)
    ensures var (v', verdict) := ProcessChunk(v, chunk, rms, webrtc, env);
      VerdictLaw(v, v', verdict, rms, webrtc, env) && |v'.stats.noise| <= 40
  {
    JudgeIs(v.stats.(webrtcDropped := v.stats.webrtcDropped + 1), rms, false, env);
  }

  lemma HeardVerdict<S>(v: Vad<S>, chunk: seq<real>, rms: real, f: Framing<S>, probs: seq<real>, env: Foreign<S>)
    requires |v.frames.context| == CONTEXT && |v.stats.noise| <= 40 && rms >= 0.0001
    requires f == Drain(v.frames.(buffer := v.frames.buffer + chunk), env)
    requires f.probs == v.frames.probs + probs
    ensures var (v', verdict) := ProcessChunk(v, chunk, rms, true, env);
      VerdictLaw(v, v', verdict, rms, true, env) && |v'.stats.noise| <= 40
  {
    var prob := MaxProb(probs);
    assert f.probs[|v.frames.probs|..] == probs;
    MaxProbIsHighest(probs);
    assert prob >= 0.15 <==> exists i :: 0 <= i < |probs| && probs[i] >= 0.15;
    JudgeIs(v.stats, rms, prob >= 0.15, env);
  }

  /** The verdict on every chunk, and all counters after it. */
  lemma EveryVerdict<S>(v: Vad<S>, chunk: seq<real>, rms: real, webrtc: bool, env: Foreign<S>)
    requires |v.frames.context| == CONTEXT && |v.stats.noise| <= 40
    ensures var (v', verdict) := ProcessChunk(v, chunk, rms, webrtc, env);
      VerdictLaw(v, v', verdict, rms, webrtc, env) && |v'.stats.noise| <= 40
  {
    if rms < 0.0001 || !webrtc {
      RejectedVerdict(v, chunk, rms, webrtc, env);
    } else {
      var f := Drain(v.frames.(buffer := v.frames.buffer + chunk), env);
      HeardVerdict(v, chunk, rms, f, f.probs[|v.frames.probs|..], env);
    }
  }

  lemma {:induction false} NoiseStaysShort<S>(v: Vad<S>, evs: seq<Event>, env: Foreign<S>)
    requires |v.frames.context| == CONTEXT && |v.stats.noise| <= 40
    ensures |Exec(v, evs, env).frames.context| == CONTEXT && |Exec(v, evs, env).stats.noise| <= 40
    decreases |evs|
  {
    if evs == [] {
    } else {
      if evs[0].Chunk? { EveryVerdict(v, evs[0].samples, evs[0].rms, evs[0].webrtc, env); }
      NoiseStaysShort(Step(v, evs[0], env), evs[1..], env);
    }
  }

  /** After any run: how the next chunk is judged. */
  lemma VerdictsAfterRuns<S>(evs: seq<Event>, chunk: seq<real>, rms: real, webrtc: bool, env: Foreign<S>)
    ensures var v := Exec(Start(env), evs, env);
      && |v.frames.context| == CONTEXT
      && var (v', verdict) := ProcessChunk(v, chunk, rms, webrtc, env); VerdictLaw(v, v', verdict, rms, webrtc, env)
  {
    NoiseStaysShort(Start(env), evs, env);
    EveryVerdict(Exec(Start(env), evs, env), chunk, rms, webrtc, env);
  }

  /** The samples the model sees on run `i`: 64 before the segment, which are 0 before the stream, and its 512. */
  ghost predicate SeesSegment(input: seq<real>, x: seq<real>, i: nat) {
    && 512 * (i + 1) <= |x| && |input| == 576
    && forall k :: 0 <= k < 576 ==> input[k] == if 512 * i + k < 64 then 0.0 else x[512 * i + k - 64]
  }

  /** `FramesOfStream` in numbers; chunks count from energy 0.0001 on, and a prefilter rejection starts over. */
  lemma FramesInNumbers<S>(evs: seq<Event>, env: Foreign<S>)
    ensures var f, x := Exec(Start(env), evs, env).frames, GatedAll([], evs);
      && |f.inputs| == |x| / 512 && |f.buffer| == |x| % 512
      && forall i :: 0 <= i < |f.inputs| ==> SeesSegment(f.inputs[i], x, i)
  {
    FramesOfStream(evs, env);
    var f, x := Exec(Start(env), evs, env).frames, GatedAll([], evs);
    forall i | 0 <= i < |f.inputs| ensures SeesSegment(f.inputs[i], x, i) {
      InputInNumbers(x, i);
    }
  }

  lemma InputInNumbers(x: seq<real>, i: nat)
    requires 512 * (i + 1) <= |x|
    ensures SeesSegment(Input(x, i), x, i)
  {
  }

  lemma GatedIs(x: seq<real>, ev: Event)
    ensures ev.StreamReset? ==> Gated(x, ev) == []
    ensures ev.Chunk? ==>
      Gated(x, ev) == if ev.rms < 0.0001 then x else if ev.webrtc then x + ev.samples else []
  {
  }
}
