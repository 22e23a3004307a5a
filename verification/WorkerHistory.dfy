/**
 What the worker does with a chunk, told from the history of chunks alone.

 Main result: in every reachable state the counters are those of the verdicts since the last stream reset,
 the last text, its repetitions and the longest text are those of the hypotheses delivered since then, and
 the next chunk is fed, delivered and followed by a reset exactly as `ChunkLaw` says in terms of that
 history and of the numbers 3, 8, 18, 25, 2, 5 and 15.0 (`ChunksFollowHistory`).
 */
module WorkerHistory {
  import opened Common
  import opened AudioWorker
  import opened WorkerRuns

  // ----- reading the history -----

  /** How many of the last entries, back to position `from`, are equal to `value`. */
  function Trailing(flags: seq<bool>, from: nat, value: bool): nat {
    if |flags| <= from || flags[|flags| - 1] != value then 0 else 1 + Trailing(flags[..|flags| - 1], from, value)
  }

  /** The texts delivered from chunk `from` on. */
  function TextsSince(hyps: seq<Option<Hypothesis>>, from: nat): seq<string> {
    if |hyps| <= from then []
    else
      TextsSince(hyps[..|hyps| - 1], from) +
      match hyps[|hyps| - 1] { case Some(h) => [h.text] case None => [] }
  }

  function LastText(texts: seq<string>): string {
    if texts == [] then "" else texts[|texts| - 1]
  }

  /** How often the last text repeats the one before it, without a break. */
  function Repetitions(texts: seq<string>): nat {
    if |texts| < 2 || texts[|texts| - 2] != texts[|texts| - 1] then 0 else 1 + Repetitions(texts[..|texts| - 1])
  }

  /** The first of the longest texts; none if there is no text. */
  ghost predicate Peak(peak: string, texts: seq<string>) {
    if texts == [] then peak == ""
    else
      exists k :: 0 <= k < |texts| && texts[k] == peak && forall i :: 0 <= i < |texts| ==>
        |texts[i]| <= |peak| && (i < k ==> |texts[i]| < |peak|)
  }

  /** Texts that may still grow into a wake phrase are given more time. */
  ghost predicate MayGrow(text: string) {
    || SaidIn(text, "wake") || SaidIn(text, "listen") || SaidIn(text, "hey") || SaidIn(text, "ar")
    || SaidIn(text, "arv") || SaidIn(text, "arbe") || SaidIn(text, "wake up")
  }

  ghost function Patience(text: string): nat {
    if MayGrow(text) then 25 else 18
  }

  lemma PatienceIs(text: string)
    ensures SilenceTimeout(text) == Patience(text)
  {
    forall t ensures Contains(text, t) <==> SaidIn(text, t) { ContainsIsSaid(text, t); }
    var ts := PARTIAL_TOKENS;
    assert ts[0] == "wake" && ts[1] == "listen" && ts[2] == "hey" && ts[3] == "ar";
    assert ts[4] == "arv" && ts[5] == "arbe" && ts[6] == "wake up";
    assert LooksPartial(text) <==> exists i :: 0 <= i < 7 && Contains(text, ts[i]);
  }

  // ----- the state as a function of the history -----

  predicate WasSpeaking(w: World) {
    |w.spoke| > w.freshAt && w.spoke[|w.spoke| - 1]
  }

  ghost predicate SpokeSince(spoke: seq<bool>, from: nat) {
    exists k :: from <= k < |spoke| && spoke[k]
  }

  ghost predicate CountersFromHistory(w: World) {
    && w.a.w.speech == Trailing(w.vads, w.freshAt, true)
    && w.a.w.silence == Trailing(w.vads, w.freshAt, false)
    && w.a.w.speaking == WasSpeaking(w)
    && w.a.w.spoken == SpokeSince(w.spoke, w.freshAt)
    && w.a.p.generation == |w.resets|
  }

  /** Padding: the first two quiet chunks. The eighth silent chunk is the first that can be quiet. */
  predicate PadFits(v: Worker, quiet: nat) {
    v.pad == (if quiet < 2 then quiet else 2) && v.silence <= quiet + 7
  }

  ghost predicate PadFromHistory(w: World) {
    PadFits(w.a.w, Trailing(w.spoke, w.freshAt, false))
  }

  ghost predicate TextsFrom(v: Worker, hyps: seq<Option<Hypothesis>>, from: nat) {
    var texts := TextsSince(hyps, from);
    && v.last == LastText(texts)
    && v.stable == Repetitions(texts)
    && Peak(v.peak, texts)
    && forall i :: 0 <= i < |texts| ==> texts[i] != ""
  }

  ghost predicate TextsFromHistory(w: World) {
    |w.hyps| == |w.spoke| && TextsFrom(w.a.w, w.hyps, w.freshAt)
  }

  ghost predicate FromHistory(w: World) {
    Inv(w) && CountersFromHistory(w) && PadFromHistory(w) && TextsFromHistory(w)
  }

  // ----- the next chunk -----

  function SpeechNow(w: World, vad: bool): nat {
    if vad then Trailing(w.vads, w.freshAt, true) + 1 else 0
  }

  function SilenceNow(w: World, vad: bool): nat {
    if vad then 0 else Trailing(w.vads, w.freshAt, false) + 1
  }

  /** Three positive chunks switch speaking on, eight negative ones off. */
  predicate SpeaksNow(w: World, vad: bool) {
    if vad then WasSpeaking(w) || SpeechNow(w, vad) >= 3 else WasSpeaking(w) && SilenceNow(w, vad) < 8
  }

  ghost predicate GivesUp(w: World, vad: bool) {
    SilenceNow(w, vad) >= Patience(LastText(TextsSince(w.hyps, w.freshAt)))
  }

  /** What is delivered: the text with its repetitions, the longest text and the number of resets. */
  ghost predicate Delivers(w: World, ev: Event, hyp: Option<Hypothesis>)
    requires ev.Take?
  {
    var texts := TextsSince(w.hyps, w.freshAt) + [ev.text];
    if ev.text == "" || GivesUp(w, ev.vad) then hyp == None
    else
      && hyp.Some? && hyp.value.text == ev.text && hyp.value.stable == Repetitions(texts)
      && Peak(hyp.value.peak, texts) && hyp.value.generation == |w.resets|
  }

  /** Inactivity: the silence has just reached its limit, there was speech, and the last reset is 15 seconds ago. */
  ghost predicate GoesQuiet(w: World, vad: bool, now: real)
    requires w.resets != []
  {
    && SilenceNow(w, vad) == Patience(LastText(TextsSince(w.hyps, w.freshAt)))
    && SpokeSince(w.spoke, w.freshAt)
    && now - w.resets[|w.resets| - 1] >= 15.0
  }

  function LastOf(chunks: seq<nat>, most: nat): seq<nat> {
    if |chunks| > most then chunks[|chunks| - most..] else chunks
  }

  /** What the chunk makes the recogniser be fed. */
  function FeedsNow(w: World, vad: bool): seq<Feed> {
    var n := |w.spoke|;
    if SpeaksNow(w, vad) then
      (if WasSpeaking(w) then [] else Feeds(LastOf(QuietSince(w.spoke, w.onsetAt), 5), Onset)) + [Feed(n, Live)]
    else if Trailing(w.spoke, w.freshAt, false) < 2 then [Feed(n, Pad)]
    else []
  }

  ghost predicate ChunkLaw(w: World, w': World, ev: Event)
    requires ev.Take? && w.resets != []
  {
    var n := |w.spoke|;
    && |w'.hyps| == n + 1 && Delivers(w, ev, w'.hyps[n])
    && w'.spoke == w.spoke + [SpeaksNow(w, ev.vad)]
    && w'.a.p.feeds == w.a.p.feeds + FeedsNow(w, ev.vad)
    && w'.onsetAt == (if SpeaksNow(w, ev.vad) && !WasSpeaking(w) then n + 1 else w.onsetAt)
    && w'.idle == w.idle + (if GoesQuiet(w, ev.vad, ev.now) then [IdleReset(n, |w.resets|)] else [])
    && var reset := GoesQuiet(w, ev.vad, ev.now) || (ev.wake && w'.hyps[n].Some?);
    && w'.cut == w.cut + [reset]
    && w'.resets == w.resets + (if reset then [ev.now] else [])
    && w'.freshAt == (if reset then n + 1 else w.freshAt)
  }

  /** The worker after the hysteresis. */
  lemma HysteresisIs(w: World, vad: bool)
    requires FromHistory(w)
    ensures var h := Hysteresis(w.a.w, |w.spoke|, vad).0;
      && h.speech == SpeechNow(w, vad) && h.silence == SilenceNow(w, vad) && h.speaking == SpeaksNow(w, vad)
      && h.last == w.a.w.last && h.stable == w.a.w.stable && h.peak == w.a.w.peak && h.pad == w.a.w.pad
      && h.spoken == (w.a.w.spoken || SpeaksNow(w, vad))
      && (Onsets(w.a.w, vad) <==> SpeaksNow(w, vad) && !WasSpeaking(w))
      && (TimedOut(h) <==> GivesUp(w, vad))
      && (h.speaking ==> !GivesUp(w, vad))
  {
    PatienceIs(w.a.w.last);
  }

  lemma QuietIsIdle(w: World, vad: bool, now: real)
    requires FromHistory(w)
    ensures var h := Hysteresis(w.a.w, |w.spoke|, vad).0;
      TimedOut(h) && ResetsNow(h, w.a.p, now) <==> GoesQuiet(w, vad, now)
  {
    HysteresisIs(w, vad);
    PatienceIs(w.a.w.last);
  }

  /** Timed out without room for padding: that never coincides. */
  lemma FeedsAre(w: World, vad: bool)
    requires FromHistory(w)
    ensures NewFeeds(w.a.w, Hysteresis(w.a.w, |w.spoke|, vad).0, |w.spoke|, vad) == FeedsNow(w, vad)
  {
    HysteresisIs(w, vad);
    assert w.a.w.preRoll == LastOf(QuietSince(w.spoke, w.onsetAt), 5);
  }

  lemma PeakSnoc(peak: string, texts: seq<string>, text: string)
    requires Peak(peak, texts) && text != ""
    ensures Peak(if |text| > |peak| then text else peak, texts + [text])
  {
    var all := texts + [text];
    if |text| > |peak| {
      assert all[|texts|] == text;
    } else {
      var k :| 0 <= k < |texts| && texts[k] == peak && forall i :: 0 <= i < |texts| ==>
        |texts[i]| <= |peak| && (i < k ==> |texts[i]| < |peak|);
      assert all[k] == peak;
    }
  }

  lemma RepetitionsSnoc(texts: seq<string>, text: string)
    requires text != ""
    ensures Repetitions(texts + [text]) == if text == LastText(texts) then Repetitions(texts) + 1 else 0
  {
    var all := texts + [text];
    assert all[..|all| - 1] == texts;
  }

  lemma TrackIs(w: World, v: Worker, text: string)
    requires TextsFromHistory(w) && text != ""
    requires v.last == w.a.w.last && v.stable == w.a.w.stable && v.peak == w.a.w.peak
    ensures var texts, t := TextsSince(w.hyps, w.freshAt) + [text], Track(v, text);
      t.last == text == LastText(texts) && t.stable == Repetitions(texts) && Peak(t.peak, texts)
  {
    var texts := TextsSince(w.hyps, w.freshAt);
    PeakSnoc(v.peak, texts, text);
    RepetitionsSnoc(texts, text);
  }

  lemma DeliveryIs(w: World, ev: Event)
    requires FromHistory(w) && ev.Take?
    ensures Delivers(w, ev, Process(w.a, |w.spoke|, ev.vad, ev.now, ev.text).1)
  {
    HysteresisIs(w, ev.vad);
    var h := Hysteresis(w.a.w, |w.spoke|, ev.vad).0;
    if ev.text != "" && !GivesUp(w, ev.vad) {
      TrackIs(w, FeedChunk(h, |w.spoke|).0, ev.text);
      ProcessSummary(w.a, |w.spoke|, ev.vad, ev.now, ev.text);
    }
  }

  /** One chunk, in terms of the history before it. */
  lemma ChunkFollows(w: World, ev: Event)
    requires FromHistory(w) && ev.Take?
    ensures ChunkLaw(w, Step(w, ev), ev)
  {
    HysteresisIs(w, ev.vad);
    QuietIsIdle(w, ev.vad, ev.now);
    FeedsAre(w, ev.vad);
    DeliveryIs(w, ev);
    TakeSummary(w, ev);
    assert w.idle + [] == w.idle && w.resets + [] == w.resets;
  }

  // ----- the state keeps following the history -----

  lemma TrailingSnoc(flags: seq<bool>, from: nat, value: bool, flag: bool)
    requires from <= |flags|
    ensures Trailing(flags + [flag], from, value) == if flag == value then Trailing(flags, from, value) + 1 else 0
  {
    assert (flags + [flag])[..|flags|] == flags;
  }

  lemma TextsSnoc(hyps: seq<Option<Hypothesis>>, from: nat, hyp: Option<Hypothesis>)
    requires from <= |hyps|
    ensures TextsSince(hyps + [hyp], from)
         == TextsSince(hyps, from) + match hyp { case Some(h) => [h.text] case None => [] }
  {
    assert (hyps + [hyp])[..|hyps|] == hyps;
  }

  /** After a reset the history starts over. */
  lemma ResetStartsOver(w: World)
    requires |w.vads| == |w.spoke| == |w.hyps| == w.freshAt
    requires w.a.w == Idle.(preRoll := w.a.w.preRoll) && w.a.p.generation == |w.resets|
    ensures CountersFromHistory(w) && PadFromHistory(w) && TextsFromHistory(w)
  {
  }

  /** What the chunk leaves of the worker when the stream is not reset. */
  lemma NoResetSummary(w: World, ev: Event)
    requires Counters(w.a.w) && Lengths(w) && |w.hyps| == |w.spoke| && ev.Take?
    ensures var w', n := Step(w, ev), |w.spoke|; var h := Hysteresis(w.a.w, n, ev.vad).0; !w'.cut[n] ==>
      && w'.a.p.generation == w.a.p.generation
      && if TimedOut(h) then w'.a.w == h && w'.hyps == w.hyps + [None]
         else
           var fed := FeedChunk(h, n).0;
           if ev.text == "" then w'.a.w == fed && w'.hyps == w.hyps + [None]
           else
             && w'.a.w == Track(fed, ev.text)
             && w'.hyps == w.hyps + [Some(w'.hyps[n].value)] && w'.hyps[n].value.text == ev.text
  {
    HysteresisSummary(w.a.w, |w.spoke|, ev.vad);
  }

  lemma ResetSummary(w: World, ev: Event)
    requires Counters(w.a.w) && Lengths(w) && ev.Take?
    ensures var w', n := Step(w, ev), |w.spoke|; w'.cut[n] ==>
      w'.a.w == Idle.(preRoll := w'.a.w.preRoll) && w'.a.p.generation == w.a.p.generation + 1
  {
    ProcessSummary(w.a, |w.spoke|, ev.vad, ev.now, ev.text);
  }

  lemma CountersGrow(w: World, ev: Event)
    requires FromHistory(w) && ev.Take? && !Step(w, ev).cut[|w.spoke|]
    ensures CountersFromHistory(Step(w, ev))
  {
    var w' := Step(w, ev);
    ChunkFollows(w, ev);
    HysteresisIs(w, ev.vad);
    TakeSummary(w, ev);
    NoResetSummary(w, ev);
    assert w'.vads == w.vads + [ev.vad];
    TrailingSnoc(w.vads, w.freshAt, true, ev.vad);
    TrailingSnoc(w.vads, w.freshAt, false, ev.vad);
    SpokeSnoc(w.spoke, w.freshAt, SpeaksNow(w, ev.vad));
  }

  lemma SpokeSnoc(spoke: seq<bool>, from: nat, now: bool)
    requires from <= |spoke|
    ensures SpokeSince(spoke + [now], from) <==> SpokeSince(spoke, from) || now
  {
    var all := spoke + [now];
    assert all[|spoke|] == now;
    if k :| from <= k < |spoke| && spoke[k] { assert all[k]; }
  }

  lemma PadGrows(w: World, ev: Event)
    requires FromHistory(w) && ev.Take? && !Step(w, ev).cut[|w.spoke|]
    ensures PadFromHistory(Step(w, ev))
  {
    var w', speaks := Step(w, ev), SpeaksNow(w, ev.vad);
    assert w'.spoke == w.spoke + [speaks] && w'.freshAt == w.freshAt by { ChunkFollows(w, ev); }
    assert PadFits(w'.a.w, if speaks then 0 else Trailing(w.spoke, w.freshAt, false) + 1) by { PadNow(w, ev); }
    TrailingSnoc(w.spoke, w.freshAt, false, speaks);
  }

  lemma PadNow(w: World, ev: Event)
    requires FromHistory(w) && ev.Take? && !Step(w, ev).cut[|w.spoke|]
    ensures PadFits(Step(w, ev).a.w, if SpeaksNow(w, ev.vad) then 0 else Trailing(w.spoke, w.freshAt, false) + 1)
  {
    var w', n := Step(w, ev), |w.spoke|;
    var h := Hysteresis(w.a.w, n, ev.vad).0;
    var v := if TimedOut(h) then h else FeedChunk(h, n).0;
    PadUnreset(w, ev, v);
    PadStep(w, ev.vad);
    assert w'.a.w.pad == v.pad && w'.a.w.silence == v.silence;
  }

  lemma PadUnreset(w: World, ev: Event, v: Worker)
    requires Counters(w.a.w) && Lengths(w) && |w.hyps| == |w.spoke| && ev.Take?
    requires var h := Hysteresis(w.a.w, |w.spoke|, ev.vad).0; v == if TimedOut(h) then h else FeedChunk(h, |w.spoke|).0
    ensures var w' := Step(w, ev); !w'.cut[|w.spoke|] ==> w'.a.w.pad == v.pad && w'.a.w.silence == v.silence
  {
    NoResetSummary(w, ev);
  }

  /** Padding and silence after one chunk, as the number of quiet chunks goes up or back to zero. */
  lemma PadStep(w: World, vad: bool)
    requires FromHistory(w)
    ensures var h := Hysteresis(w.a.w, |w.spoke|, vad).0;
      PadFits(if TimedOut(h) then h else FeedChunk(h, |w.spoke|).0,
              if SpeaksNow(w, vad) then 0 else Trailing(w.spoke, w.freshAt, false) + 1)
  {
    HysteresisIs(w, vad);
  }

  lemma TextsGrow(w: World, ev: Event)
    requires FromHistory(w) && ev.Take? && !Step(w, ev).cut[|w.spoke|]
    ensures TextsFromHistory(Step(w, ev))
  {
    var w', n := Step(w, ev), |w.spoke|;
    assert w'.freshAt == w.freshAt && |w'.spoke| == n + 1 by { ChunkFollows(w, ev); }
    assert TextsFrom(w'.a.w, w'.hyps, w.freshAt) by {
      HysteresisIs(w, ev.vad);
      NoResetSummary(w, ev);
      if ev.text != "" && !GivesUp(w, ev.vad) {
        TextAdded(w, FeedChunk(Hysteresis(w.a.w, n, ev.vad).0, n).0, w'.hyps[n], ev.text);
      } else {
        TextsSnoc(w.hyps, w.freshAt, None);
        assert TextsSince(w.hyps, w.freshAt) + [] == TextsSince(w.hyps, w.freshAt);
      }
    }
  }

  lemma TextAdded(w: World, fed: Worker, hyp: Option<Hypothesis>, text: string)
    requires TextsFromHistory(w) && w.freshAt <= |w.hyps| && text != "" && hyp.Some? && hyp.value.text == text
    requires fed.last == w.a.w.last && fed.stable == w.a.w.stable && fed.peak == w.a.w.peak
    ensures TextsFrom(Track(fed, text), w.hyps + [hyp], w.freshAt)
  {
    TextsSnoc(w.hyps, w.freshAt, hyp);
    TrackIs(w, fed, text);
  }

  lemma StepFollows(w: World, ev: Event)
    requires FromHistory(w) && Enabled(w, ev)
    ensures FromHistory(Step(w, ev))
  {
    var w' := Step(w, ev);
    StepInv(w, ev);
    if ev.ExternalReset? {
      ResetStartsOver(w');
    } else {
      ChunkFollows(w, ev);
      if w'.cut[|w.spoke|] {
        ResetSummary(w, ev);
        ResetStartsOver(w');
      } else {
        CountersGrow(w, ev);
        PadGrows(w, ev);
        TextsGrow(w, ev);
      }
    }
  }

  lemma {:induction false} RunFollows(w: World, evs: seq<Event>)
    requires FromHistory(w) && ValidRun(w, evs)
    ensures FromHistory(Run(w, evs))
    decreases |evs|
  {
    if evs == [] {
    } else {
      StepFollows(w, evs[0]);
      RunFollows(Step(w, evs[0]), evs[1..]);
    }
  }

  lemma StartFollows(t0: real)
    ensures FromHistory(Start(t0))
  {
    StartInv(t0);
    ResetStartsOver(Start(t0));
  }

  /** After any run: the state is that of the history, and so is what the next chunk does. */
  lemma ChunksFollowHistory(t0: real, evs: seq<Event>, ev: Event)
    requires ValidRun(Start(t0), evs) && ev.Take?
    ensures FromHistory(Run(Start(t0), evs)) && ChunkLaw(Run(Start(t0), evs), Step(Run(Start(t0), evs), ev), ev)
  {
    StartFollows(t0);
    RunFollows(Start(t0), evs);
    ChunkFollows(Run(Start(t0), evs), ev);
  }

  // ----- a run for each of the two limits -----

  /** The recogniser goes on giving one text; nothing wakes. */
  function Chunk(vad: bool, text: string): Event {
    Take(vad, 20.0, text, false)
  }

  /** Since the start, `speech` positive chunks and then `silence` silent ones, all delivered. */
  ghost predicate Heard(w: World, text: string, speech: nat, silence: nat) {
    && FromHistory(w) && w.clock <= 20.0 && w.resets == [0.0] && w.freshAt == 0 && |w.spoke| == speech + silence
    && Trailing(w.vads, 0, true) == (if silence == 0 then speech else 0) && Trailing(w.vads, 0, false) == silence
    && LastText(TextsSince(w.hyps, 0)) == (if speech == 0 then "" else text)
    && (speech >= 3 ==> w.a.w.spoken)
  }

  lemma HeardOneMore(w: World, text: string, speech: nat, silence: nat, vad: bool)
    requires Heard(w, text, speech, silence) && text != "" && (vad ==> silence == 0) && (!vad ==> speech >= 3)
    requires silence + 1 < Patience(text)
    ensures var w' := Step(w, Chunk(vad, text));
      Heard(w', text, if vad then speech + 1 else speech, if vad then silence else silence + 1)
  {
    var ev := Chunk(vad, text);
    var w' := Step(w, ev);
    assert FromHistory(w') by { StepFollows(w, ev); }
    HeardDelivers(w, text, speech, silence, vad);
    HeardVerdicts(w, ev);
    assert SpokeSince(w'.spoke, 0) == (SpokeSince(w.spoke, 0) || SpeaksNow(w, vad)) by {
      SpokeSnoc(w.spoke, 0, SpeaksNow(w, vad));
    }
  }

  /** Such a chunk is delivered, and nothing is reset. */
  lemma HeardDelivers(w: World, text: string, speech: nat, silence: nat, vad: bool)
    requires Heard(w, text, speech, silence) && text != "" && (vad ==> silence == 0) && (!vad ==> speech >= 3)
    requires silence + 1 < Patience(text)
    ensures var w' := Step(w, Chunk(vad, text));
      && w'.resets == w.resets && w'.freshAt == 0 && w'.spoke == w.spoke + [SpeaksNow(w, vad)]
      && LastText(TextsSince(w'.hyps, 0)) == text
  {
    var ev := Chunk(vad, text);
    ChunkFollows(w, ev);
    HeardVerdicts(w, ev);
    TextsSnoc(w.hyps, 0, Step(w, ev).hyps[|w.spoke|]);
  }

  lemma HeardVerdicts(w: World, ev: Event)
    requires ev.Take?
    ensures var w' := Step(w, ev);
      && w'.vads == w.vads + [ev.vad] && w'.clock == ev.now && |w'.spoke| == |w.spoke| + 1
      && |w'.hyps| == |w.hyps| + 1 && w'.hyps == w.hyps + [w'.hyps[|w.hyps|]]
      && Trailing(w'.vads, 0, true) == (if ev.vad then Trailing(w.vads, 0, true) + 1 else 0)
      && Trailing(w'.vads, 0, false) == (if ev.vad then 0 else Trailing(w.vads, 0, false) + 1)
  {
    TrailingSnoc(w.vads, 0, true, ev.vad);
    TrailingSnoc(w.vads, 0, false, ev.vad);
  }

  lemma LimitReached(w: World, text: string, silence: nat)
    requires Heard(w, text, 3, silence) && silence + 1 == Patience(text)
    ensures var w' := Step(w, Chunk(false, text)); w'.hyps[|w.spoke|] == None && w'.resets == [0.0, 20.0]
  {
    ChunkFollows(w, Chunk(false, text));
  }

  function Voiced(text: string, speech: nat): seq<Event> {
    if speech == 0 then [] else Voiced(text, speech - 1) + [Chunk(true, text)]
  }

  /** Silent chunks after the events. */
  function Followed(evs: seq<Event>, text: string, silence: nat): seq<Event> {
    if silence == 0 then evs else Followed(evs, text, silence - 1) + [Chunk(false, text)]
  }

  /** One more chunk at the end of a run. */
  lemma HeardAppend(start: World, evs: seq<Event>, text: string, speech: nat, silence: nat, vad: bool, evs': seq<Event>)
    requires Heard(Run(start, evs), text, speech, silence) && text != "" && silence + 1 < Patience(text)
    requires (vad ==> silence == 0) && (!vad ==> speech >= 3) && evs' == evs + [Chunk(vad, text)]
    ensures Heard(Run(start, evs'), text, if vad then speech + 1 else speech, if vad then silence else silence + 1)
  {
    RunSnoc(start, evs, Chunk(vad, text));
    HeardOneMore(Run(start, evs), text, speech, silence, vad);
  }

  lemma {:induction false} HeardVoiced(start: World, text: string, speech: nat)
    requires Heard(start, text, 0, 0) && text != ""
    ensures Heard(Run(start, Voiced(text, speech)), text, speech, 0)
  {
    if speech == 0 {
    } else {
      HeardVoiced(start, text, speech - 1);
      HeardAppend(start, Voiced(text, speech - 1), text, speech - 1, 0, true, Voiced(text, speech));
    }
  }

  ghost predicate SilentSoFar(start: World, evs: seq<Event>, text: string, silence: nat) {
    Heard(Run(start, Followed(evs, text, silence)), text, 3, silence)
  }

  lemma HeardNext(start: World, evs: seq<Event>, text: string, silence: nat)
    requires SilentSoFar(start, evs, text, silence) && text != "" && silence + 1 < Patience(text)
    ensures SilentSoFar(start, evs, text, silence + 1)
  {
    var prev := Followed(evs, text, silence);
    HeardAppend(start, prev, text, 3, silence, false, prev + [Chunk(false, text)]);
  }

  lemma {:induction false} HeardSilent(start: World, evs: seq<Event>, text: string, silence: nat)
    requires SilentSoFar(start, evs, text, 0) && text != "" && silence < Patience(text)
    ensures SilentSoFar(start, evs, text, silence)
  {
    if silence == 0 {
    } else {
      HeardSilent(start, evs, text, silence - 1);
      HeardNext(start, evs, text, silence - 1);
    }
  }

  lemma StartHeard(text: string)
    ensures Heard(Start(0.0), text, 0, 0)
  {
    StartFollows(0.0);
  }

  /** The stream is reset on the silent chunk that reaches the limit. */
  lemma ResetAtLimit(start: World, text: string, limit: nat, evs: seq<Event>, before: seq<Event>, after: seq<Event>)
    requires Heard(Run(start, evs), text, 3, 0) && text != "" && limit == Patience(text)
    requires before == Followed(evs, text, limit - 1) && after == before + [Chunk(false, text)]
    ensures Run(start, before).resets == [0.0] && Run(start, after).resets == [0.0, 20.0]
  {
    HeardSilent(start, evs, text, limit - 1);
    RunSnoc(start, before, Chunk(false, text));
    LimitReached(Run(start, before), text, limit - 1);
  }

  lemma GrowingText()
    ensures Patience("hey arvsal") == 25
  {
    assert "hey arvsal" == [] + "hey" + " arvsal";
    assert SaidIn("hey arvsal", "hey");
  }

  lemma FinishedText()
    ensures Patience("no") == 18
  {
    forall v: string | |v| >= 2 && SaidIn("no", v) ensures v == "no" {
      var before: string, after: string :| "no" == before + v + after;
      assert before == [] && after == [];
    }
    assert "wake" != "no" && "hey" != "no" && "ar"[0] != "no"[0];
  }

  /** Speech and then so many silent chunks, from the start on. */
  function Silenced(start: World, text: string, silence: nat): World {
    Run(start, Followed(Voiced(text, 3), text, silence))
  }

  /** A text that may grow is reset by the 25th silent chunk and not by the 24th. */
  lemma GrowingTextWaits(start: World, text: string)
    requires Heard(start, text, 0, 0) && text == "hey arvsal"
    ensures Silenced(start, text, 24).resets == [0.0] && Silenced(start, text, 25).resets == [0.0, 20.0]
  {
    GrowingText();
    HeardVoiced(start, text, 3);
    var evs := Voiced(text, 3);
    ResetAtLimit(start, text, 25, evs, Followed(evs, text, 24), Followed(evs, text, 25));
  }

  /** Any other text is reset by the 18th and not by the 17th. */
  lemma FinishedTextWaits(start: World, text: string)
    requires Heard(start, text, 0, 0) && text == "no"
    ensures Silenced(start, text, 17).resets == [0.0] && Silenced(start, text, 18).resets == [0.0, 20.0]
  {
    FinishedText();
    HeardVoiced(start, text, 3);
    var evs := Voiced(text, 3);
    ResetAtLimit(start, text, 18, evs, Followed(evs, text, 17), Followed(evs, text, 18));
  }
}
