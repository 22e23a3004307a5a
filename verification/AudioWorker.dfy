/**
 The consumer thread's treatment of one audio chunk: hysteresis, pre-roll, silence timeout, feeding the
 recogniser and delivering the hypothesis.

 The worker never looks inside a chunk, so a chunk is the number under which it was taken from the
 queue. The voice-activity verdict and the recogniser's current text are inputs.
 */
module AudioWorker {
  import opened Common

  const MIN_SPEECH_FRAMES := 3
  const MIN_SILENCE_FRAMES := 8
  const TRAILING_PAD_FRAMES := 2
  const PRE_ROLL := 5
  const RESET_COOLDOWN_SECONDS := 15.0
  const PARTIAL_TOKENS: seq<string> := ["wake", "listen", "hey", "ar", "arv", "arbe", "wake up"]

  /** How a chunk got to the recogniser. */
  datatype Via = Live | Pad | Onset
  datatype Feed = Feed(chunk: nat, via: Via)

  datatype Hypothesis = Hypothesis(text: string, stable: nat, peak: string, generation: nat)

  datatype Worker = Worker(
    speaking: bool, speech: nat, silence: nat, spoken: bool,
    pad: nat, last: string, stable: nat, peak: string, preRoll: seq<nat>)

  /** The recogniser's owner: generation counter, time of the last stream reset, everything it was fed. */
  datatype Provider = Provider(generation: nat, lastReset: real, feeds: seq<Feed>)

  datatype Asr = Asr(w: Worker, p: Provider)

  const Idle := Worker(false, 0, 0, false, 0, "", 0, "", [])

  predicate LooksPartial(text: string) {
    exists t :: t in PARTIAL_TOKENS && Contains(text, t)
  }

  /** Silent chunks before the stream may be reset. */
  function SilenceTimeout(text: string): (n: nat)
    ensures n == 18 || n == 25
  {
    if LooksPartial(text) then 25 else 18
  }

  /** Appending to the pre-roll deque, which keeps its last five chunks. */
  function Roll(pre: seq<nat>, chunk: nat): seq<nat> {
    LastFive(pre + [chunk])
  }

  function LastFive(s: seq<nat>): seq<nat> {
    if |s| > PRE_ROLL then s[|s| - PRE_ROLL..] else s
  }

  function Feeds(chunks: seq<nat>, via: Via): (fs: seq<Feed>)
    ensures |fs| == |chunks|
    ensures forall i :: 0 <= i < |chunks| ==> fs[i] == Feed(chunks[i], via)
  {
    seq(|chunks|, i requires 0 <= i < |chunks| => Feed(chunks[i], via))
  }

  function Fed(p: Provider, fs: seq<Feed>): Provider {
    p.(feeds := p.feeds + fs)
  }

  function ProviderReset(p: Provider, now: real): Provider {
    p.(generation := p.generation + 1, lastReset := now)
  }

  /** `reset_state`: everything but the pre-roll is cleared. */
  function ResetState(w: Worker): Worker {
    Idle.(preRoll := w.preRoll)
  }

  function StreamReset(a: Asr, now: real): Asr {
    Asr(ResetState(a.w), ProviderReset(a.p, now))
  }

  /** The speech-state hysteresis and the pre-roll; the second result is what an onset flushes. */
  function Hysteresis(w: Worker, chunk: nat, vad: bool): (Worker, seq<nat>) {
    if vad then
      var w1 := w.(speech := w.speech + 1, silence := 0);
      if w1.speech >= MIN_SPEECH_FRAMES && !w.speaking then
        (w1.(speaking := true, spoken := true, preRoll := []), w.preRoll)
      else if w.speaking then (w1, [])
      else (w1.(preRoll := Roll(w.preRoll, chunk)), [])
    else
      var w1 := w.(silence := w.silence + 1, speech := 0);
      var speaking := w.speaking && w1.silence < MIN_SILENCE_FRAMES;
      if speaking then (w1, []) else (w1.(speaking := false, preRoll := Roll(w.preRoll, chunk)), [])
  }

  predicate TimedOut(w: Worker) {
    w.silence >= SilenceTimeout(w.last)
  }

  /** The inactivity reset happens only on the chunk that reaches the timeout. */
  predicate ResetsNow(w: Worker, p: Provider, now: real) {
    && w.silence == SilenceTimeout(w.last)
    && w.spoken
    && now - p.lastReset >= RESET_COOLDOWN_SECONDS
  }

  function FeedChunk(w: Worker, chunk: nat): (Worker, seq<Feed>) {
    if w.speaking then (w.(pad := 0), [Feed(chunk, Live)])
    else if w.pad < TRAILING_PAD_FRAMES then (w.(pad := w.pad + 1), [Feed(chunk, Pad)])
    else (w, [])
  }

  function Track(w: Worker, text: string): Worker {
    var w1 := if |text| > |w.peak| then w.(peak := text) else w;
    if text == w.last then w1.(stable := w1.stable + 1) else w1.(stable := 0, last := text)
  }

  /** One pass of the worker loop over a chunk, up to the call of the engine. */
  function Process(a: Asr, chunk: nat, vad: bool, now: real, text: string): (Asr, Option<Hypothesis>) {
    var (w1, flushed) := Hysteresis(a.w, chunk, vad);
    var p1 := Fed(a.p, Feeds(flushed, Onset));
    if TimedOut(w1) then
      (if ResetsNow(w1, p1, now) then StreamReset(Asr(w1, p1), now) else Asr(w1, p1), None)
    else
      var (w2, fs) := FeedChunk(w1, chunk);
      var p2 := Fed(p1, fs);
      if text == "" then (Asr(w2, p2), None)
      else
        var w3 := Track(w2, text);
        var hyp := Hypothesis(text, w3.stable, w3.peak, p2.generation);
        (Asr(w3, p2), if w3.speaking || w3.pad <= TRAILING_PAD_FRAMES then Some(hyp) else None)
  }

  // ----- the objects -----

  class SherpaProvider {
    var generation: nat
    var lastReset: real
    ghost var feeds: seq<Feed>

    ghost function Value(): Provider
      reads this
    {
      Provider(generation, lastReset, feeds)
    }

    constructor (now: real)
      ensures Value() == Provider(0, now, [])
    {
      generation, lastReset, feeds := 0, now, [];
    }

    method Reset(now: real)
      modifies this
      ensures Value() == ProviderReset(old(Value()), now)
    {
      generation := generation + 1;
      lastReset := now;
    }

    method Accept(chunk: nat, ghost via: Via)
      modifies this`feeds
      ensures Value() == Fed(old(Value()), [Feed(chunk, via)])
    {
      feeds := feeds + [Feed(chunk, via)];
    }
  }

  class AudioWorker {
    const provider: SherpaProvider
    var isSpeaking: bool
    var consecutiveSpeech: nat
    var consecutiveSilence: nat
    var hasSpoken: bool
    var trailingPad: nat
    var lastHypothesis: string
    var stableFrames: nat
    var peakHypothesis: string
    var peakLength: nat
    var preBuffer: seq<nat>

    ghost predicate Valid()
      reads this
    {
      peakLength == |peakHypothesis|
    }

    ghost function WorkerValue(): Worker
      reads this
    {
      Worker(isSpeaking, consecutiveSpeech, consecutiveSilence, hasSpoken,
             trailingPad, lastHypothesis, stableFrames, peakHypothesis, preBuffer)
    }

    ghost function Value(): Asr
      reads this, provider
    {
      Asr(WorkerValue(), provider.Value())
    }

    constructor (provider: SherpaProvider)
      ensures this.provider == provider && Valid() && WorkerValue() == Idle
    {
      this.provider := provider;
      isSpeaking, consecutiveSpeech, consecutiveSilence, hasSpoken := false, 0, 0, false;
      trailingPad, lastHypothesis, stableFrames, peakHypothesis, peakLength := 0, "", 0, "", 0;
      preBuffer := [];
    }

    method ClearState()
      modifies this
      ensures Valid() && WorkerValue() == ResetState(old(WorkerValue()))
    {
      isSpeaking, consecutiveSpeech, consecutiveSilence, hasSpoken := false, 0, 0, false;
      trailingPad, lastHypothesis, stableFrames, peakHypothesis, peakLength := 0, "", 0, "", 0;
    }

    /** The worker's own reset after silence. The voice-activity detector is not reset. */
    method DoStreamReset(now: real)
      modifies this, provider
      ensures Valid() && Value() == StreamReset(old(Value()), now)
    {
      provider.Reset(now);
      ClearState();
    }

    method PreRoll(chunk: nat)
      modifies this`preBuffer
      ensures preBuffer == Roll(old(preBuffer), chunk)
    {
      preBuffer := preBuffer + [chunk];
      if |preBuffer| > PRE_ROLL { preBuffer := preBuffer[|preBuffer| - PRE_ROLL..]; }
    }

    method FlushPreRoll()
      modifies this`preBuffer, provider`feeds
      ensures preBuffer == []
      ensures provider.Value() == Fed(old(provider.Value()), Feeds(old(preBuffer), Onset))
    {
      for i := 0 to |preBuffer|
        invariant preBuffer == old(preBuffer)
        invariant provider.generation == old(provider.generation) && provider.lastReset == old(provider.lastReset)
        invariant provider.feeds == old(provider.feeds) + Feeds(preBuffer[..i], Onset)
      {
        provider.Accept(preBuffer[i], Onset);
        assert Feeds(preBuffer[..i + 1], Onset) == Feeds(preBuffer[..i], Onset) + [Feed(preBuffer[i], Onset)];
      }
      assert preBuffer[..|preBuffer|] == preBuffer;
      preBuffer := [];
    }

    method UpdateSpeechState(chunk: nat, vad: bool)
      requires Valid()
      modifies this, provider`feeds
      ensures Valid()
      ensures var (w, flushed) := Hysteresis(old(WorkerValue()), chunk, vad);
        WorkerValue() == w && provider.Value() == Fed(old(provider.Value()), Feeds(flushed, Onset))
    {
      assert Fed(provider.Value(), Feeds([], Onset)) == provider.Value();
      if vad {
        consecutiveSpeech := consecutiveSpeech + 1;
        consecutiveSilence := 0;
        if consecutiveSpeech >= MIN_SPEECH_FRAMES && !isSpeaking {
          isSpeaking := true;
          hasSpoken := true;
          FlushPreRoll();
        }
      } else {
        consecutiveSilence := consecutiveSilence + 1;
        consecutiveSpeech := 0;
        if consecutiveSilence >= MIN_SILENCE_FRAMES && isSpeaking {
          isSpeaking := false;
        }
      }
      if !isSpeaking {
        PreRoll(chunk);
      }
    }

    method FeedRecogniser(chunk: nat)
      requires Valid()
      modifies this`trailingPad, provider`feeds
      ensures Valid()
      ensures var (w, fs) := FeedChunk(old(WorkerValue()), chunk);
        WorkerValue() == w && provider.Value() == Fed(old(provider.Value()), fs)
    {
      assert Fed(provider.Value(), []) == provider.Value();
      if isSpeaking {
        provider.Accept(chunk, Live);
        trailingPad := 0;
      } else {
        if trailingPad < TRAILING_PAD_FRAMES {
          provider.Accept(chunk, Pad);
          trailingPad := trailingPad + 1;
        }
      }
    }

    method TrackHypothesis(text: string)
      requires Valid()
      modifies this`peakHypothesis, this`peakLength, this`stableFrames, this`lastHypothesis
      ensures Valid() && WorkerValue() == Track(old(WorkerValue()), text)
    {
      if |text| > peakLength {
        peakHypothesis := text;
        peakLength := |text|;
      }
      if text == lastHypothesis {
        stableFrames := stableFrames + 1;
      } else {
        stableFrames := 0;
        lastHypothesis := text;
      }
    }

    method ProcessChunk(chunk: nat, vad: bool, now: real, text: string) returns (delivered: Option<Hypothesis>)
      requires Valid()
      modifies this, provider
      ensures Valid()
      ensures (Value(), delivered) == Process(old(Value()), chunk, vad, now, text)
    {
      UpdateSpeechState(chunk, vad);
      var timeout := SilenceTimeout(lastHypothesis);
      if consecutiveSilence >= timeout {
        if consecutiveSilence == timeout && hasSpoken {
          if now - provider.lastReset >= RESET_COOLDOWN_SECONDS {
            DoStreamReset(now);
          }
        }
        return None;
      }
      FeedRecogniser(chunk);
      if text == "" {
        return None;
      }
      TrackHypothesis(text);
      var hyp := Hypothesis(text, stableFrames, peakHypothesis, provider.generation);
      if isSpeaking {
        delivered := Some(hyp);
      } else if trailingPad <= TRAILING_PAD_FRAMES {
        delivered := Some(hyp);
      } else {
        delivered := None;
      }
    }
  }
}
