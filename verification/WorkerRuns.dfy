/**
 Runs of the audio worker over any sequence of chunks, with wake resets and external resets anywhere.

 Main results: exactly which chunks reach the recogniser, how and how often (`ChunksFed`), what an onset flushes
 (`OnsetFlushesPreRoll`), that three speech-positive chunks in a row always arrive
 (`SpeechReachesRecogniser`), and how far apart inactivity resets are (`IdleResetsApart`).
 */
module WorkerRuns {
  import opened Common
  import opened AudioWorker

  /** `wake` is the engine's answer to the delivered hypothesis, if one is delivered. */
  datatype Event = Take(vad: bool, now: real, text: string, wake: bool) | ExternalReset(now: real)

  /** An inactivity reset: the chunk it happened on, and its place among all stream resets. */
  datatype IdleReset = IdleReset(chunk: nat, index: nat)

  datatype World = World(
    a: Asr,
    clock: real,
    spoke: seq<bool>,       // per chunk: was the worker speaking when it handled the chunk
    vads: seq<bool>,        // per chunk: the voice-activity verdict
    cut: seq<bool>,         // per chunk: was the stream reset on it or between it and the next one
    onsetAt: nat,           // number of chunks taken when the last onset had flushed the pre-roll
    freshAt: nat,           // number of chunks taken at the last stream reset
    resets: seq<real>,      // times of all stream resets, the initial one included
    idle: seq<IdleReset>,
    hyps: seq<Option<Hypothesis>>)   // per chunk: the hypothesis delivered, if any

  function Start(t0: real): World {
    World(Asr(Idle, Provider(1, t0, [])), t0, [], [], [], 0, 0, [t0], [], [])
  }

  predicate Enabled(w: World, ev: Event) {
    ev.now >= w.clock
  }

  predicate Onsets(w: Worker, vad: bool) {
    vad && w.speech + 1 >= MIN_SPEECH_FRAMES && !w.speaking
  }

  function Step(w: World, ev: Event): World {
    match ev
    case ExternalReset(now) =>
      var n := |w.spoke|;
      w.(a := StreamReset(w.a, now), clock := now, freshAt := n, resets := w.resets + [now],
         cut := if |w.cut| > 0 then w.cut[|w.cut| - 1 := true] else [])
    case Take(vad, now, text, wake) =>
      var n := |w.spoke|;
      var h := Hysteresis(w.a.w, n, vad).0;
      var (a1, hyp) := Process(w.a, n, vad, now, text);
      var timedOut := TimedOut(h) && ResetsNow(h, w.a.p, now);
      var woken := hyp.Some? && wake;
      World(
        if woken then StreamReset(a1, now) else a1,
        now,
        w.spoke + [h.speaking],
        w.vads + [vad],
        w.cut + [timedOut || woken],
        if Onsets(w.a.w, vad) then n + 1 else w.onsetAt,
        if timedOut || woken then n + 1 else w.freshAt,
        if timedOut || woken then w.resets + [now] else w.resets,
        if timedOut then w.idle + [IdleReset(n, |w.resets|)] else w.idle,
        w.hyps + [hyp])
  }

  ghost predicate ValidRun(w: World, evs: seq<Event>)
    decreases |evs|
  {
    evs == [] || (Enabled(w, evs[0]) && ValidRun(Step(w, evs[0]), evs[1..]))
  }

  function Run(w: World, evs: seq<Event>): World
    decreases |evs|
  {
    if evs == [] then w else Run(Step(w, evs[0]), evs[1..])
  }

  // ----- the invariant -----

  ghost predicate Counters(w: Worker) {
    && (w.speaking ==> w.silence < MIN_SILENCE_FRAMES && w.spoken)
    && (!w.speaking ==> w.speech < MIN_SPEECH_FRAMES)
    && w.pad <= TRAILING_PAD_FRAMES
  }

  ghost predicate Lengths(w: World) {
    && |w.vads| == |w.spoke| == |w.cut|
    && w.onsetAt <= |w.spoke| && w.freshAt <= |w.spoke|
  }

  /** The chunks from `from` on during which the worker was not speaking, in order. */
  function QuietSince(spoke: seq<bool>, from: nat): seq<nat> {
    if |spoke| <= from then []
    else QuietSince(spoke[..|spoke| - 1], from) + (if spoke[|spoke| - 1] then [] else [|spoke| - 1])
  }

  ghost predicate PreRollIsRecent(w: World) {
    w.a.w.preRoll == LastFive(QuietSince(w.spoke, w.onsetAt))
  }

  ghost predicate NoRepeats(fs: seq<Feed>) {
    forall i, j :: 0 <= i < j < |fs| ==> fs[i] != fs[j]
  }

  /** What each feed says about its chunk. */
  ghost predicate FeedFits(w: World, f: Feed) {
    && f.chunk < |w.spoke|
    && (f.via.Live? <==> w.spoke[f.chunk])
    && (f.via.Onset? ==> f.chunk < w.onsetAt)
  }

  ghost predicate Feeding(w: World) {
    && NoRepeats(w.a.p.feeds)
    && (forall f :: f in w.a.p.feeds ==> FeedFits(w, f))
    && (forall k :: 0 <= k < |w.spoke| && w.spoke[k] ==> Feed(k, Live) in w.a.p.feeds)
  }

  ghost predicate Reached(w: World, k: nat) {
    exists via :: Feed(k, via) in w.a.p.feeds
  }

  /** The current run of speech-positive chunks: fed while speaking, held in the pre-roll before. */
  ghost predicate CurrentRun(w: World) {
    && w.a.w.speech <= |w.spoke|
    && (forall k :: |w.spoke| - w.a.w.speech <= k < |w.spoke| ==>
          if w.a.w.speaking then Reached(w, k) else k in w.a.w.preRoll)
    && (|w.spoke| >= 1 && PositiveAt(w, |w.spoke| - 1) ==> w.a.w.speech >= 1)
    && (|w.spoke| >= 2 && PositiveAt(w, |w.spoke| - 1) && PositiveAt(w, |w.spoke| - 2) ==> w.a.w.speech >= 2)
  }

  /** Speech-positive, with no stream reset before the next chunk. */
  ghost predicate PositiveAt(w: World, k: nat) {
    k < |w.vads| && k < |w.cut| && w.vads[k] && !w.cut[k]
  }

  ghost predicate RunsReached(w: World) {
    forall k :: 0 <= k < |w.vads| - 2 && PositiveAt(w, k) && PositiveAt(w, k + 1) && w.vads[k + 2] ==>
      Reached(w, k) && Reached(w, k + 1) && Reached(w, k + 2)
  }

  ghost predicate ResetTimes(w: World) {
    && w.resets != [] && w.a.p.lastReset == w.resets[|w.resets| - 1] && w.a.p.lastReset <= w.clock
    && (forall i, j :: 0 <= i < j < |w.resets| ==> w.resets[i] <= w.resets[j])
    && (w.a.w.spoken ==> |w.spoke| - w.freshAt >= MIN_SPEECH_FRAMES + w.a.w.silence)
    && |w.spoke| - w.freshAt >= w.a.w.speech
  }

  ghost predicate IdleFits(w: World, r: IdleReset)
    requires w.freshAt <= |w.spoke|
  {
    && r.chunk < w.freshAt
    && !w.spoke[r.chunk]
    && 0 < r.index < |w.resets|
    && (forall j :: 0 <= j < r.index ==> w.resets[r.index] - w.resets[j] >= RESET_COOLDOWN_SECONDS)
  }

  ghost predicate IdleResets(w: World)
    requires w.freshAt <= |w.spoke|
  {
    && (forall r :: r in w.idle ==> IdleFits(w, r))
    && (forall i, j :: 0 <= i < j < |w.idle| ==> w.idle[j].chunk - w.idle[i].chunk >= 21)
  }

  ghost predicate Inv(w: World) {
    && Lengths(w) && Counters(w.a.w) && PreRollIsRecent(w) && Feeding(w)
    && CurrentRun(w) && RunsReached(w) && ResetTimes(w) && IdleResets(w)
  }

  // ----- the pre-roll -----

  lemma QuietSnoc(spoke: seq<bool>, from: nat, speaking: bool)
    requires from <= |spoke|
    ensures QuietSince(spoke + [speaking], from) == QuietSince(spoke, from) + (if speaking then [] else [|spoke|])
  {
  }

  lemma {:induction false} QuietElements(spoke: seq<bool>, from: nat)
    ensures forall k :: k in QuietSince(spoke, from) <==> from <= k < |spoke| && !spoke[k]
  {
    if |spoke| <= from {
    } else {
      QuietElements(spoke[..|spoke| - 1], from);
    }
  }

  ghost predicate Increasing(q: seq<nat>) {
    forall i, j :: 0 <= i < j < |q| ==> q[i] < q[j]
  }

  lemma {:induction false} QuietIncreases(spoke: seq<bool>, from: nat)
    ensures Increasing(QuietSince(spoke, from))
  {
    if |spoke| <= from {
    } else {
      var prev := spoke[..|spoke| - 1];
      QuietIncreases(prev, from);
      QuietElements(prev, from);
      var q := QuietSince(prev, from);
      forall i | 0 <= i < |q| ensures q[i] < |spoke| - 1 { assert q[i] in q; }
    }
  }

  lemma LastFiveRolls(q: seq<nat>, chunk: nat)
    ensures Roll(LastFive(q), chunk) == LastFive(q + [chunk])
  {
  }

  lemma LastFiveIncreases(q: seq<nat>)
    requires Increasing(q)
    ensures Increasing(LastFive(q)) && forall k :: k in LastFive(q) ==> k in q
  {
  }

  /** The pre-roll holds the last five quiet chunks since the last onset, in order. */
  lemma PreRollElements(w: World)
    requires PreRollIsRecent(w)
    ensures forall k :: k in w.a.w.preRoll ==> w.onsetAt <= k < |w.spoke| && !w.spoke[k]
    ensures Increasing(w.a.w.preRoll)
  {
    QuietElements(w.spoke, w.onsetAt);
    QuietIncreases(w.spoke, w.onsetAt);
    LastFiveIncreases(QuietSince(w.spoke, w.onsetAt));
  }

  // ----- one chunk -----

  /** The feeds one chunk causes, given the worker before and after the hysteresis. */
  function NewFeeds(before: Worker, h: Worker, n: nat, vad: bool): seq<Feed> {
    (if Onsets(before, vad) then Feeds(before.preRoll, Onset) else []) +
    (if h.speaking then [Feed(n, Live)]
     else if !TimedOut(h) && h.pad < TRAILING_PAD_FRAMES then [Feed(n, Pad)] else [])
  }

  lemma HysteresisSummary(w: Worker, n: nat, vad: bool)
    requires Counters(w)
    ensures var (h, flushed) := Hysteresis(w, n, vad);
      && Counters(h)
      && flushed == (if Onsets(w, vad) then w.preRoll else [])
      && h.preRoll == (if Onsets(w, vad) then [] else if h.speaking then w.preRoll else Roll(w.preRoll, n))
      && (h.speaking ==> !TimedOut(h))
      && (h.speaking && !w.speaking ==> Onsets(w, vad))
      && (Onsets(w, vad) ==> h.speaking)
      && h.speech == (if vad then w.speech + 1 else 0)
      && h.silence == (if vad then 0 else w.silence + 1)
      && h.spoken == (w.spoken || Onsets(w, vad))
      && (w.speaking && vad ==> h.speaking)
  {
  }

  lemma ProcessSummary(a: Asr, n: nat, vad: bool, now: real, text: string)
    requires Counters(a.w)
    ensures var h := Hysteresis(a.w, n, vad).0;
      var (a1, hyp) := Process(a, n, vad, now, text);
      var timedOut := TimedOut(h) && ResetsNow(h, a.p, now);
      && a1.p.feeds == a.p.feeds + NewFeeds(a.w, h, n, vad)
      && a1.w.preRoll == h.preRoll
      && a1.w.pad <= TRAILING_PAD_FRAMES
      && (timedOut ==> hyp == None && a1.w == ResetState(h) && a1.p.lastReset == now)
      && (!timedOut ==> a1.w.speech == h.speech && a1.w.speaking == h.speaking && a1.w.silence == h.silence
                        && a1.w.spoken == h.spoken && a1.p.lastReset == a.p.lastReset)
  {
    HysteresisSummary(a.w, n, vad);
    var (h, flushed) := Hysteresis(a.w, n, vad);
    var onset := if Onsets(a.w, vad) then Feeds(a.w.preRoll, Onset) else [];
    assert Feeds(flushed, Onset) == onset;
    assert a.p.feeds + (onset + []) == a.p.feeds + onset;
    var (h2, fs) := FeedChunk(h, n);
    assert (a.p.feeds + onset) + fs == a.p.feeds + (onset + fs);
  }

  /** What handling one chunk does to the parts the invariant speaks about. */
  lemma TakeSummary(w: World, ev: Event)
    requires Counters(w.a.w) && Lengths(w) && ev.Take?
    ensures var w', n := Step(w, ev), |w.spoke|; var h := Hysteresis(w.a.w, n, ev.vad).0;
      && w'.a.w.preRoll == h.preRoll
      && w'.a.p.feeds == w.a.p.feeds + NewFeeds(w.a.w, h, n, ev.vad)
      && (!w'.cut[n] ==> w'.a.w.speech == h.speech && w'.a.w.speaking == h.speaking
                         && w'.a.w.silence == h.silence && w'.a.w.spoken == h.spoken
                         && w'.a.p.lastReset == w.a.p.lastReset)
      && (w'.cut[n] ==> w'.a.w == Idle.(preRoll := h.preRoll) && w'.a.p.lastReset == ev.now)
      && w'.a.w.pad <= TRAILING_PAD_FRAMES
  {
    ProcessSummary(w.a, |w.spoke|, ev.vad, ev.now, ev.text);
  }

  lemma TakeCounters(w: World, ev: Event)
    requires Counters(w.a.w) && Lengths(w) && ev.Take?
    ensures Counters(Step(w, ev).a.w) && Lengths(Step(w, ev))
  {
    TakeSummary(w, ev);
    HysteresisSummary(w.a.w, |w.spoke|, ev.vad);
  }

  lemma TakePreRoll(w: World, ev: Event)
    requires Counters(w.a.w) && Lengths(w) && PreRollIsRecent(w) && ev.Take?
    ensures PreRollIsRecent(Step(w, ev))
  {
    var w', n := Step(w, ev), |w.spoke|;
    var h := Hysteresis(w.a.w, n, ev.vad).0;
    TakeSummary(w, ev);
    HysteresisSummary(w.a.w, n, ev.vad);
    if Onsets(w.a.w, ev.vad) {
      assert QuietSince(w'.spoke, n + 1) == [];
    } else {
      QuietSnoc(w.spoke, w.onsetAt, h.speaking);
      LastFiveRolls(QuietSince(w.spoke, w.onsetAt), n);
      assert QuietSince(w.spoke, w.onsetAt) + [] == QuietSince(w.spoke, w.onsetAt);
    }
  }

  // ----- feeding -----

  lemma NewFeedsElements(before: Worker, h: Worker, n: nat, vad: bool)
    requires Increasing(before.preRoll) && n !in before.preRoll
    ensures var fs := NewFeeds(before, h, n, vad);
      && NoRepeats(fs)
      && forall f :: f in fs ==>
           if f.via.Onset? then Onsets(before, vad) && f.chunk in before.preRoll
           else f.chunk == n && (f.via.Live? <==> h.speaking)
  {
  }

  lemma NewFeedsFresh(w: World, ev: Event)
    requires Counters(w.a.w) && Lengths(w) && PreRollIsRecent(w) && Feeding(w) && ev.Take?
    ensures var w', n := Step(w, ev), |w.spoke|;
      var fs := NewFeeds(w.a.w, Hysteresis(w.a.w, n, ev.vad).0, n, ev.vad);
      && NoRepeats(fs)
      && forall f :: f in fs ==> f !in w.a.p.feeds && FeedFits(w', f)
  {
    var w', n := Step(w, ev), |w.spoke|;
    var h := Hysteresis(w.a.w, n, ev.vad).0;
    PreRollElements(w);
    NewFeedsElements(w.a.w, h, n, ev.vad);
    assert w'.spoke == w.spoke + [h.speaking];
    forall f | f in NewFeeds(w.a.w, h, n, ev.vad) ensures f !in w.a.p.feeds && FeedFits(w', f) {
      assert f in w.a.p.feeds ==> FeedFits(w, f);
    }
  }

  lemma NoRepeatsAppend(a: seq<Feed>, b: seq<Feed>)
    requires NoRepeats(a) && NoRepeats(b) && forall f :: f in b ==> f !in a
    ensures NoRepeats(a + b)
  {
    var c := a + b;
    forall i, j | 0 <= i < j < |c| ensures c[i] != c[j] {
      if i < |a| <= j { assert c[j] in b; }
    }
  }

  lemma TakeFeeding(w: World, ev: Event)
    requires Counters(w.a.w) && Lengths(w) && PreRollIsRecent(w) && Feeding(w) && ev.Take?
    ensures Feeding(Step(w, ev))
  {
    var w', n := Step(w, ev), |w.spoke|;
    var h := Hysteresis(w.a.w, n, ev.vad).0;
    var fs := NewFeeds(w.a.w, h, n, ev.vad);
    TakeSummary(w, ev);
    NewFeedsFresh(w, ev);
    if h.speaking { assert fs[|fs| - 1] == Feed(n, Live); }
    FeedingGrows(w, w', fs);
  }

  lemma FeedingGrows(w: World, w': World, fs: seq<Feed>)
    requires Feeding(w) && |w'.spoke| == |w.spoke| + 1 && w.spoke <= w'.spoke && w'.onsetAt >= w.onsetAt
    requires w'.a.p.feeds == w.a.p.feeds + fs && NoRepeats(fs)
    requires forall f :: f in fs ==> f !in w.a.p.feeds && FeedFits(w', f)
    requires w'.spoke[|w.spoke|] ==> Feed(|w.spoke|, Live) in fs
    ensures Feeding(w')
  {
    NoRepeatsAppend(w.a.p.feeds, fs);
    forall f | f in w'.a.p.feeds ensures FeedFits(w', f) {
      if f in w.a.p.feeds { assert FeedFits(w, f); }
    }
  }

  // ----- runs of speech -----

  lemma StillReached(w: World, ev: Event, k: nat)
    requires Counters(w.a.w) && Lengths(w) && ev.Take? && Reached(w, k)
    ensures Reached(Step(w, ev), k)
  {
    TakeSummary(w, ev);
    var via :| Feed(k, via) in w.a.p.feeds;
    assert Feed(k, via) in Step(w, ev).a.p.feeds;
  }

  /** Every chunk of the current positive run is fed once the worker speaks. */
  lemma RunReached(w: World, ev: Event, k: nat)
    requires Counters(w.a.w) && Lengths(w) && CurrentRun(w) && ev.Take?
    requires var h := Hysteresis(w.a.w, |w.spoke|, ev.vad).0; h.speaking && |w.spoke| + 1 - h.speech <= k <= |w.spoke|
    ensures Reached(Step(w, ev), k)
  {
    var w', n := Step(w, ev), |w.spoke|;
    TakeSummary(w, ev);
    HysteresisSummary(w.a.w, n, ev.vad);
    var fs := NewFeeds(w.a.w, Hysteresis(w.a.w, n, ev.vad).0, n, ev.vad);
    if k == n {
      assert fs[|fs| - 1] == Feed(n, Live);
      assert Feed(n, Live) in w'.a.p.feeds;
    } else if w.a.w.speaking {
      StillReached(w, ev, k);
    } else {
      assert k in w.a.w.preRoll;
      var i :| 0 <= i < |w.a.w.preRoll| && w.a.w.preRoll[i] == k;
      assert fs[i] == Feed(k, Onset);
      assert Feed(k, Onset) in w'.a.p.feeds;
    }
  }

  lemma RollKeeps(pre: seq<nat>, n: nat)
    requires Increasing(pre) && forall k :: k in pre ==> k < n
    ensures n in Roll(pre, n)
    ensures n >= 1 && n - 1 in pre ==> n - 1 in Roll(pre, n)
  {
    var all, rolled := pre + [n], Roll(pre, n);
    assert rolled == all[|all| - |rolled|..] && rolled[|rolled| - 1] == n;
    if n >= 1 && n - 1 in pre {
      var i :| 0 <= i < |pre| && pre[i] == n - 1;
      assert pre[|pre| - 1] in pre;
      assert i == |pre| - 1;
      assert rolled[|rolled| - 2] == n - 1;
    }
  }

  /** Before the onset, the current positive run is the tail of the pre-roll. */
  lemma RunHeld(w: World, ev: Event, k: nat)
    requires Counters(w.a.w) && Lengths(w) && PreRollIsRecent(w) && CurrentRun(w) && ev.Take?
    requires var h := Hysteresis(w.a.w, |w.spoke|, ev.vad).0; !h.speaking && |w.spoke| + 1 - h.speech <= k <= |w.spoke|
    ensures k in Step(w, ev).a.w.preRoll
  {
    var n, pre := |w.spoke|, w.a.w.preRoll;
    assert Increasing(pre) && forall i :: i in pre ==> i < n by { PreRollElements(w); }
    assert Step(w, ev).a.w.preRoll == Roll(pre, n) by {
      TakeSummary(w, ev);
      HysteresisSummary(w.a.w, n, ev.vad);
    }
    assert k == n || (k == n - 1 && k in pre) by { HysteresisSummary(w.a.w, n, ev.vad); }
    RollKeeps(pre, n);
  }

  lemma RunFedOrHeld(w: World, ev: Event, k: nat)
    requires Counters(w.a.w) && Lengths(w) && PreRollIsRecent(w) && CurrentRun(w) && ev.Take?
    requires |w.spoke| + 1 - Step(w, ev).a.w.speech <= k <= |w.spoke|
    ensures var w' := Step(w, ev); if w'.a.w.speaking then Reached(w', k) else k in w'.a.w.preRoll
  {
    TakeSummary(w, ev);
    if Hysteresis(w.a.w, |w.spoke|, ev.vad).0.speaking { RunReached(w, ev, k); } else { RunHeld(w, ev, k); }
  }

  lemma RunCounted(w: World, ev: Event)
    requires Counters(w.a.w) && Lengths(w) && CurrentRun(w) && ev.Take?
    ensures var w', n := Step(w, ev), |w.spoke|;
      && w'.a.w.speech <= n + 1
      && (PositiveAt(w', n) ==> w'.a.w.speech >= 1)
      && (n >= 1 && PositiveAt(w', n) && PositiveAt(w', n - 1) ==> w'.a.w.speech >= 2)
  {
    var w', n := Step(w, ev), |w.spoke|;
    TakeSummary(w, ev);
    HysteresisSummary(w.a.w, n, ev.vad);
    assert n >= 1 && PositiveAt(w', n - 1) ==> PositiveAt(w, n - 1);
  }

  lemma TakeCurrentRun(w: World, ev: Event)
    requires Counters(w.a.w) && Lengths(w) && PreRollIsRecent(w) && CurrentRun(w) && ev.Take?
    ensures CurrentRun(Step(w, ev))
  {
    var w' := Step(w, ev);
    assert |w'.spoke| == |w.spoke| + 1;
    RunCounted(w, ev);
    forall k | |w'.spoke| - w'.a.w.speech <= k < |w'.spoke|
      ensures if w'.a.w.speaking then Reached(w', k) else k in w'.a.w.preRoll
    {
      RunFedOrHeld(w, ev, k);
    }
  }

  lemma RunsStayReached(w: World, ev: Event, k: nat)
    requires Counters(w.a.w) && Lengths(w) && RunsReached(w) && ev.Take? && k + 2 < |w.vads|
    requires PositiveAt(w, k) && PositiveAt(w, k + 1) && w.vads[k + 2]
    ensures Reached(Step(w, ev), k) && Reached(Step(w, ev), k + 1) && Reached(Step(w, ev), k + 2)
  {
    assert Reached(w, k) && Reached(w, k + 1) && Reached(w, k + 2);
    StillReached(w, ev, k);
    StillReached(w, ev, k + 1);
    StillReached(w, ev, k + 2);
  }

  lemma SpeaksAtThird(w: World, n: nat)
    requires Counters(w.a.w) && CurrentRun(w) && n == |w.spoke| && n >= 2
    requires PositiveAt(w, n - 2) && PositiveAt(w, n - 1)
    ensures var h := Hysteresis(w.a.w, n, true).0; h.speaking && h.speech >= 3
  {
  }

  lemma NewRunReached(w: World, ev: Event, n: nat)
    requires Counters(w.a.w) && Lengths(w) && CurrentRun(w) && ev.Take? && ev.vad && n == |w.spoke| && n >= 2
    requires PositiveAt(w, n - 2) && PositiveAt(w, n - 1)
    ensures Reached(Step(w, ev), n - 2) && Reached(Step(w, ev), n - 1) && Reached(Step(w, ev), n)
  {
    SpeaksAtThird(w, n);
    RunReached(w, ev, n - 2);
    RunReached(w, ev, n - 1);
    RunReached(w, ev, n);
  }

  lemma TakeRuns(w: World, ev: Event)
    requires Counters(w.a.w) && Lengths(w) && CurrentRun(w) && RunsReached(w) && ev.Take?
    ensures RunsReached(Step(w, ev))
  {
    var w', n := Step(w, ev), |w.spoke|;
    assert w'.vads == w.vads + [ev.vad] && w.cut <= w'.cut;
    forall k | 0 <= k < |w'.vads| - 2 && PositiveAt(w', k) && PositiveAt(w', k + 1) && w'.vads[k + 2]
      ensures Reached(w', k) && Reached(w', k + 1) && Reached(w', k + 2)
    {
      assert PositiveAt(w, k) && PositiveAt(w, k + 1);
      if k + 2 < n { RunsStayReached(w, ev, k); } else { NewRunReached(w, ev, n); }
    }
  }

  // ----- resets -----

  /** Did this chunk cause an inactivity reset? */
  ghost predicate GoesIdle(w: World, ev: Event)
    requires ev.Take?
  {
    var h := Hysteresis(w.a.w, |w.spoke|, ev.vad).0;
    TimedOut(h) && ResetsNow(h, w.a.p, ev.now)
  }

  lemma TakeHistory(w: World, ev: Event)
    requires Lengths(w) && Counters(w.a.w) && ev.Take?
    ensures var w', n := Step(w, ev), |w.spoke|;
      && |w'.cut| == n + 1
      && (GoesIdle(w, ev) ==> w'.cut[n] && w'.idle == w.idle + [IdleReset(n, |w.resets|)])
      && (!GoesIdle(w, ev) ==> w'.idle == w.idle)
      && w'.freshAt == (if w'.cut[n] then n + 1 else w.freshAt)
      && w'.resets == (if w'.cut[n] then w.resets + [ev.now] else w.resets)
      && w'.spoke == w.spoke + [Hysteresis(w.a.w, n, ev.vad).0.speaking]
      && w'.clock == ev.now
  {
  }

  /** A chunk on which the stream is reset. */
  lemma ResetNow(w: World, w': World)
    requires ResetTimes(w) && w'.clock >= w.clock
    requires w'.resets == w.resets + [w'.clock] && w'.a.p.lastReset == w'.clock
    requires !w'.a.w.spoken && w'.a.w.speech == 0 && w'.freshAt <= |w'.spoke|
    ensures ResetTimes(w')
  {
    assert w.resets[|w.resets| - 1] <= w.clock;
  }

  /** A chunk on which it is not: the run of speech or silence grows by at most one. */
  lemma NoResetNow(w: World, w': World)
    requires ResetTimes(w) && w'.clock >= w.clock
    requires w'.resets == w.resets && w'.a.p.lastReset == w.a.p.lastReset
    requires w'.freshAt == w.freshAt && |w'.spoke| == |w.spoke| + 1 && w'.a.w.speech <= w.a.w.speech + 1
    requires w'.a.w.spoken ==>
      || (w.a.w.spoken && w'.a.w.silence <= w.a.w.silence + 1)
      || (w'.a.w.speech >= MIN_SPEECH_FRAMES && w'.a.w.silence == 0)
    ensures ResetTimes(w')
  {
  }

  lemma TakeResets(w: World, ev: Event)
    requires Counters(w.a.w) && Lengths(w) && ResetTimes(w) && Enabled(w, ev) && ev.Take?
    ensures ResetTimes(Step(w, ev))
  {
    var w' := Step(w, ev);
    TakeSummary(w, ev);
    TakeHistory(w, ev);
    if w'.cut[|w.spoke|] {
      ResetNow(w, w');
    } else {
      HysteresisSummary(w.a.w, |w.spoke|, ev.vad);
      NoResetNow(w, w');
    }
  }

  lemma IdleStillFits(w: World, w': World, r: IdleReset)
    requires w.freshAt <= |w.spoke| && IdleFits(w, r)
    requires w.freshAt <= w'.freshAt <= |w'.spoke| && w.spoke <= w'.spoke && w.resets <= w'.resets
    ensures IdleFits(w', r)
  {
  }

  /** Three chunks to speak and eighteen to time out, all since the last reset; and the cooldown. */
  lemma NewIdleFits(w: World, ev: Event)
    requires Counters(w.a.w) && Lengths(w) && ResetTimes(w) && Enabled(w, ev) && ev.Take? && GoesIdle(w, ev)
    ensures var w' := Step(w, ev); w'.freshAt <= |w'.spoke| && IdleFits(w', IdleReset(|w.spoke|, |w.resets|))
    ensures |w.spoke| >= w.freshAt + 20
  {
  }

  lemma TakeIdle(w: World, ev: Event)
    requires Counters(w.a.w) && Lengths(w) && ResetTimes(w) && IdleResets(w) && Enabled(w, ev) && ev.Take?
    ensures var w' := Step(w, ev); w'.freshAt <= |w'.spoke| && IdleResets(w')
  {
    var w' := Step(w, ev);
    TakeHistory(w, ev);
    if GoesIdle(w, ev) { NewIdleFits(w, ev); }
    forall r | r in w'.idle ensures IdleFits(w', r) {
      if r in w.idle { IdleStillFits(w, w', r); }
    }
    forall i, j | 0 <= i < j < |w'.idle| ensures w'.idle[j].chunk - w'.idle[i].chunk >= 21 {
      if j == |w.idle| { assert w.idle[i] in w.idle && IdleFits(w, w.idle[i]); }
    }
  }

  lemma ExternalInv(w: World, now: real)
    requires Inv(w) && now >= w.clock
    ensures Inv(Step(w, ExternalReset(now)))
  {
    var w' := Step(w, ExternalReset(now));
    assert Feeding(w') by {
      forall f | f in w'.a.p.feeds ensures FeedFits(w', f) { assert FeedFits(w, f); }
    }
    assert RunsReached(w') by {
      forall k | 0 <= k < |w'.vads| - 2 && PositiveAt(w', k) && PositiveAt(w', k + 1) && w'.vads[k + 2]
        ensures Reached(w', k) && Reached(w', k + 1) && Reached(w', k + 2)
      {
        assert PositiveAt(w, k) && PositiveAt(w, k + 1);
        assert Reached(w, k) && Reached(w, k + 1) && Reached(w, k + 2);
      }
    }
    forall r | r in w'.idle ensures IdleFits(w', r) { IdleStillFits(w, w', r); }
  }

  lemma StepInv(w: World, ev: Event)
    requires Inv(w) && Enabled(w, ev)
    ensures Inv(Step(w, ev))
  {
    match ev
    case ExternalReset(now) => ExternalInv(w, now);
    case Take(_, _, _, _) =>
      TakeCounters(w, ev);
      TakePreRoll(w, ev);
      TakeFeeding(w, ev);
      TakeCurrentRun(w, ev);
      TakeRuns(w, ev);
      TakeResets(w, ev);
      TakeIdle(w, ev);
  }

  lemma StartInv(t0: real)
    ensures Inv(Start(t0))
  {
  }

  lemma {:induction false} RunInv(w: World, evs: seq<Event>)
    requires Inv(w) && ValidRun(w, evs)
    ensures Inv(Run(w, evs))
    decreases |evs|
  {
    if evs == [] {
    } else {
      StepInv(w, evs[0]);
      RunInv(Step(w, evs[0]), evs[1..]);
    }
  }

  // ----- main results -----

  function Count(fs: seq<Feed>, k: nat, via: Via): nat {
    if fs == [] then 0 else (if fs[0] == Feed(k, via) then 1 else 0) + Count(fs[1..], k, via)
  }

  lemma {:induction false} CountOnce(fs: seq<Feed>, k: nat, via: Via)
    requires NoRepeats(fs)
    ensures Count(fs, k, via) == if Feed(k, via) in fs then 1 else 0
  {
    if fs == [] {
    } else {
      CountOnce(fs[1..], k, via);
      assert fs[0] !in fs[1..];
    }
  }

  /** The worlds of a run, from the start on: `ws[j]` is the one before event `j`. */
  ghost function Worlds(t0: real, evs: seq<Event>): (ws: seq<World>)
    ensures |ws| == |evs| + 1 && ws[|evs|] == Run(Start(t0), evs)
  {
    (if evs == [] then [] else Worlds(t0, evs[..|evs| - 1])) + [Run(Start(t0), evs)]
  }

  /** The event takes chunk `k`. */
  predicate Takes(w: World, ev: Event, k: nat) {
    ev.Take? && |w.spoke| == k
  }

  /** The next chunk is quiet, the silence has not timed out, and there is room for trailing pad. */
  ghost predicate Pads(w: World, ev: Event)
    requires ev.Take?
  {
    var h := Hysteresis(w.a.w, |w.spoke|, ev.vad).0;
    !h.speaking && !TimedOut(h) && w.a.w.pad < TRAILING_PAD_FRAMES
  }

  /** An onset, with `k` among the last five quiet chunks since the onset before. */
  ghost predicate Flushes(w: World, ev: Event, k: nat) {
    ev.Take? && Onsets(w.a.w, ev.vad) && k in LastFive(QuietSince(w.spoke, w.onsetAt))
  }

  ghost predicate FedAsPad(ws: seq<World>, evs: seq<Event>, k: nat)
    requires |evs| <= |ws|
  {
    exists j :: 0 <= j < |evs| && Takes(ws[j], evs[j], k) && Pads(ws[j], evs[j])
  }

  ghost predicate FedByOnset(ws: seq<World>, evs: seq<Event>, k: nat)
    requires |evs| <= |ws|
  {
    exists j :: 0 <= j < |evs| && Flushes(ws[j], evs[j], k)
  }

  lemma {:induction false} RunSnoc(w: World, evs: seq<Event>, ev: Event)
    ensures Run(w, evs + [ev]) == Step(Run(w, evs), ev)
    ensures ValidRun(w, evs + [ev]) <==> ValidRun(w, evs) && Enabled(Run(w, evs), ev)
    decreases |evs|
  {
    var all := evs + [ev];
    if evs == [] {
      assert all[1..] == [];
    } else {
      assert all[1..] == evs[1..] + [ev];
      RunSnoc(Step(w, evs[0]), evs[1..], ev);
    }
  }

  /** What one event adds to the feeds of a chunk. */
  lemma StepFeeds(w: World, ev: Event, k: nat)
    requires Inv(w)
    ensures Feed(k, Pad) in Step(w, ev).a.p.feeds
       <==> Feed(k, Pad) in w.a.p.feeds || (ev.Take? && k == |w.spoke| && Pads(w, ev))
    ensures Feed(k, Onset) in Step(w, ev).a.p.feeds <==> Feed(k, Onset) in w.a.p.feeds || Flushes(w, ev, k)
  {
    if ev.Take? {
      var n := |w.spoke|;
      var h := Hysteresis(w.a.w, n, ev.vad).0;
      TakeSummary(w, ev);
      NewFeedsExactly(w.a.w, h, n, ev.vad, k);
    }
  }

  lemma NewFeedsExactly(before: Worker, h: Worker, n: nat, vad: bool, k: nat)
    ensures Feed(k, Pad) in NewFeeds(before, h, n, vad)
       <==> k == n && !h.speaking && !TimedOut(h) && h.pad < TRAILING_PAD_FRAMES
    ensures Feed(k, Onset) in NewFeeds(before, h, n, vad) <==> Onsets(before, vad) && k in before.preRoll
  {
    var onset := Feeds(before.preRoll, Onset);
    if k in before.preRoll {
      var i :| 0 <= i < |before.preRoll| && before.preRoll[i] == k;
      assert onset[i] == Feed(k, Onset);
    }
  }

  lemma WorldsSnoc(t0: real, prev: seq<Event>, ev: Event)
    ensures Worlds(t0, prev + [ev]) == Worlds(t0, prev) + [Step(Run(Start(t0), prev), ev)]
  {
    assert (prev + [ev])[..|prev|] == prev;
    RunSnoc(Start(t0), prev, ev);
  }

  lemma FedAsPadSnoc(ws: seq<World>, w: World, evs: seq<Event>, ev: Event, k: nat)
    requires |ws| == |evs| + 1
    ensures FedAsPad(ws + [w], evs + [ev], k)
       <==> FedAsPad(ws, evs, k) || (Takes(ws[|evs|], ev, k) && Pads(ws[|evs|], ev))
  {
    var all, allEvs, n := ws + [w], evs + [ev], |evs|;
    assert all[n] == ws[n] && allEvs[n] == ev;
    if FedAsPad(ws, evs, k) {
      var j :| 0 <= j < n && Takes(ws[j], evs[j], k) && Pads(ws[j], evs[j]);
      assert Takes(all[j], allEvs[j], k) && Pads(all[j], allEvs[j]);
    }
    if FedAsPad(all, allEvs, k) {
      var j :| 0 <= j <= n && Takes(all[j], allEvs[j], k) && Pads(all[j], allEvs[j]);
      if j < n { assert Takes(ws[j], evs[j], k) && Pads(ws[j], evs[j]); }
    }
  }

  lemma FlushedBefore(ws: seq<World>, w: World, evs: seq<Event>, ev: Event, k: nat, j: nat)
    requires |ws| == |evs| + 1 && j < |evs| && Flushes(ws[j], evs[j], k)
    ensures FedByOnset(ws + [w], evs + [ev], k)
  {
    assert (ws + [w])[j] == ws[j] && (evs + [ev])[j] == evs[j];
  }

  lemma FlushedLast(ws: seq<World>, w: World, evs: seq<Event>, ev: Event, k: nat)
    requires |ws| == |evs| + 1 && Flushes(ws[|evs|], ev, k)
    ensures FedByOnset(ws + [w], evs + [ev], k)
  {
    assert (ws + [w])[|evs|] == ws[|evs|] && (evs + [ev])[|evs|] == ev;
  }

  lemma FlushedSome(ws: seq<World>, w: World, evs: seq<Event>, ev: Event, k: nat, j: nat)
    requires |ws| == |evs| + 1 && j <= |evs| && Flushes((ws + [w])[j], (evs + [ev])[j], k)
    ensures FedByOnset(ws, evs, k) || Flushes(ws[|evs|], ev, k)
  {
    assert (ws + [w])[j] == ws[j] && (evs + [ev])[j] == if j < |evs| then evs[j] else ev;
  }

  lemma FedByOnsetSnoc(ws: seq<World>, w: World, evs: seq<Event>, ev: Event, k: nat)
    requires |ws| == |evs| + 1
    ensures FedByOnset(ws + [w], evs + [ev], k) <==> FedByOnset(ws, evs, k) || Flushes(ws[|evs|], ev, k)
  {
    if FedByOnset(ws, evs, k) {
      var j :| 0 <= j < |evs| && Flushes(ws[j], evs[j], k);
      FlushedBefore(ws, w, evs, ev, k, j);
    }
    if Flushes(ws[|evs|], ev, k) {
      FlushedLast(ws, w, evs, ev, k);
    }
    if FedByOnset(ws + [w], evs + [ev], k) {
      var j :| 0 <= j <= |evs| && Flushes((ws + [w])[j], (evs + [ev])[j], k);
      FlushedSome(ws, w, evs, ev, k, j);
    }
  }

  lemma {:induction false} FedExactly(t0: real, evs: seq<Event>, k: nat)
    requires ValidRun(Start(t0), evs)
    ensures Feed(k, Pad) in Run(Start(t0), evs).a.p.feeds <==> FedAsPad(Worlds(t0, evs), evs, k)
    ensures Feed(k, Onset) in Run(Start(t0), evs).a.p.feeds <==> FedByOnset(Worlds(t0, evs), evs, k)
    decreases |evs|
  {
    if evs == [] {
    } else {
      var n := |evs| - 1;
      var prev, ev := evs[..n], evs[n];
      var w := Run(Start(t0), prev);
      assert evs == prev + [ev];
      RunSnoc(Start(t0), prev, ev);
      FedExactly(t0, prev, k);
      StartInv(t0);
      RunInv(Start(t0), prev);
      StepFeeds(w, ev, k);
      WorldsSnoc(t0, prev, ev);
      FedAsPadSnoc(Worlds(t0, prev), Step(w, ev), prev, ev, k);
      FedByOnsetSnoc(Worlds(t0, prev), Step(w, ev), prev, ev, k);
    }
  }

  /** Feeds do not repeat, and speech is what is fed live. */
  lemma FeedCounts(w: World, k: nat)
    requires Feeding(w) && k < |w.spoke|
    ensures var fs := w.a.p.feeds;
      && Count(fs, k, Live) == (if w.spoke[k] then 1 else 0)
      && Count(fs, k, Pad) == (if Feed(k, Pad) in fs then 1 else 0)
      && Count(fs, k, Onset) == (if Feed(k, Onset) in fs then 1 else 0)
      && (w.spoke[k] ==> Feed(k, Pad) !in fs && Feed(k, Onset) !in fs)
      && (Reached(w, k) <==> w.spoke[k] || Feed(k, Pad) in fs || Feed(k, Onset) in fs)
  {
    var fs := w.a.p.feeds;
    CountOnce(fs, k, Live);
    CountOnce(fs, k, Pad);
    CountOnce(fs, k, Onset);
    assert forall via :: Feed(k, via) in fs ==> FeedFits(w, Feed(k, via));
    assert Reached(w, k) <==> Feed(k, Live) in fs || Feed(k, Pad) in fs || Feed(k, Onset) in fs;
  }

  /**
   Exactly how a chunk is fed. One taken while speaking is fed live once and in no other way. A quiet one
   is fed as trailing pad, once, if there was room for pad and no timeout when it was taken, and by an
   onset, once, if it was among the last five quiet chunks before the next onset; otherwise it never
   reaches the recogniser.
   */
  lemma ChunksFed(t0: real, evs: seq<Event>, k: nat)
    requires ValidRun(Start(t0), evs)
    requires k < |Run(Start(t0), evs).spoke|
    ensures var w, ws := Run(Start(t0), evs), Worlds(t0, evs); var fs := w.a.p.feeds;
      && Count(fs, k, Live) == (if w.spoke[k] then 1 else 0)
      && Count(fs, k, Pad) == (if FedAsPad(ws, evs, k) then 1 else 0)
      && Count(fs, k, Onset) == (if FedByOnset(ws, evs, k) then 1 else 0)
      && (w.spoke[k] ==> !FedAsPad(ws, evs, k) && !FedByOnset(ws, evs, k))
      && (Reached(w, k) <==> w.spoke[k] || FedAsPad(ws, evs, k) || FedByOnset(ws, evs, k))
  {
    assert Feeding(Run(Start(t0), evs)) by {
      StartInv(t0);
      RunInv(Start(t0), evs);
    }
    FedExactly(t0, evs, k);
    FeedCounts(Run(Start(t0), evs), k);
  }

  const Silent := Take(false, 0.0, "", false)
  const Voiced := Take(true, 0.0, "", false)

  /** Eight silent chunks, then three of speech. */
  const LateSpeech := [Silent, Silent, Silent, Silent, Silent, Silent, Silent, Silent, Voiced, Voiced, Voiced]

  /** What the worker and the recogniser have after `i` silent chunks from the start. */
  ghost predicate AfterSilence(w: World, i: nat) {
    && |w.spoke| == i && w.clock == 0.0
    && w.a.w == Idle.(silence := i, pad := if i < 2 then i else 2, preRoll := w.a.w.preRoll)
    && (forall k :: 0 <= k < |w.a.w.preRoll| ==> w.a.w.preRoll[k] + |w.a.w.preRoll| == i + k)
    && |w.a.w.preRoll| == (if i < 5 then i else 5)
    && forall f :: f in w.a.p.feeds ==> f.chunk < 2
  }

  lemma SilentStep(w: World, i: nat)
    requires AfterSilence(w, i) && i < 8
    ensures AfterSilence(Step(w, Silent), i + 1)
  {
  }

  lemma RunThree(w: World, ev: Event)
    ensures Run(w, [ev, ev, ev]) == Step(Step(Step(w, ev), ev), ev)
    ensures ValidRun(w, [ev, ev, ev])
       <==> Enabled(w, ev) && Enabled(Step(w, ev), ev) && Enabled(Step(Step(w, ev), ev), ev)
  {
    RunSnoc(w, [], ev);
    RunSnoc(w, [ev], ev);
    RunSnoc(w, [ev, ev], ev);
    assert [] + [ev] == [ev] && [ev] + [ev] == [ev, ev] && [ev, ev] + [ev] == [ev, ev, ev];
  }

  /** After one or two speech-positive chunks the worker still waits, and nothing more has been fed. */
  lemma VoicedStep(w: World, n: nat)
    requires w.a.w.speech == n < 2 && !w.a.w.speaking && w.a.w.pad == 2 && w.clock == 0.0
    requires w.a.w.silence <= 8
    ensures var w' := Step(w, Voiced);
      && w'.a.w.speech == n + 1 && !w'.a.w.speaking && w'.a.w.pad == 2 && w'.clock == 0.0 && w'.a.w.silence == 0
      && w'.a.p.feeds == w.a.p.feeds && w'.a.w.preRoll == Roll(w.a.w.preRoll, |w.spoke|)
      && |w'.spoke| == |w.spoke| + 1
  {
  }

  lemma OnsetAfterSilence(w: World)
    requires AfterSilence(w, 8)
    ensures var w' := Step(Step(Step(w, Voiced), Voiced), Voiced);
      && Enabled(w, Voiced) && Enabled(Step(w, Voiced), Voiced) && Enabled(Step(Step(w, Voiced), Voiced), Voiced)
      && |w'.spoke| == w'.onsetAt == 11 && !Reached(w', 2)
  {
    VoicedStep(w, 0);
    VoicedStep(Step(w, Voiced), 1);
    ThirdVoiced(Step(Step(w, Voiced), Voiced));
  }

  /** The third one is the onset, which flushes what was rolled in after the third quiet chunk. */
  lemma ThirdVoiced(w: World)
    requires w.a.w.speech == 2 && !w.a.w.speaking && w.a.w.pad == 2 && |w.spoke| == 10 && w.a.w.silence == 0
    requires forall i :: 0 <= i < |w.a.w.preRoll| ==> w.a.w.preRoll[i] >= 5
    requires forall f :: f in w.a.p.feeds ==> f.chunk < 2
    ensures var w' := Step(w, Voiced); |w'.spoke| == w'.onsetAt == 11 && !Reached(w', 2)
  {
    ProcessSummary(w.a, 10, true, 0.0, "");
    var fs := NewFeeds(w.a.w, Hysteresis(w.a.w, 10, true).0, 10, true);
    forall f | f in fs ensures f.chunk != 2 { }
  }

  /** The third of these chunks comes too late for the pad and too early for the pre-roll of the onset. */
  lemma SomeChunksAreLost()
    ensures ValidRun(Start(0.0), LateSpeech)
    ensures var w := Run(Start(0.0), LateSpeech); |w.spoke| == w.onsetAt == 11 && !Reached(w, 2)
  {
    var w := Start(0.0);
    for i := 0 to 8
      invariant AfterSilence(w, i)
      invariant Run(w, LateSpeech[i..]) == Run(Start(0.0), LateSpeech)
      invariant ValidRun(w, LateSpeech[i..]) ==> ValidRun(Start(0.0), LateSpeech)
    {
      assert LateSpeech[i..][1..] == LateSpeech[i + 1..] && LateSpeech[i] == Silent;
      SilentStep(w, i);
      w := Step(w, Silent);
    }
    assert LateSpeech[8..] == [Voiced, Voiced, Voiced];
    RunThree(w, Voiced);
    OnsetAfterSilence(w);
  }

  /** What an onset sends: the last five quiet chunks since the previous onset, in order, then its own chunk. */
  lemma OnsetFlushesPreRoll(t0: real, evs: seq<Event>, ev: Event)
    requires ValidRun(Start(t0), evs) && ev.Take?
    requires Onsets(Run(Start(t0), evs).a.w, ev.vad)
    ensures var w := Run(Start(t0), evs);
      Step(w, ev).a.p.feeds
      == w.a.p.feeds + Feeds(LastFive(QuietSince(w.spoke, w.onsetAt)), Onset) + [Feed(|w.spoke|, Live)]
  {
    StartInv(t0);
    RunInv(Start(t0), evs);
    var w := Run(Start(t0), evs);
    TakeSummary(w, ev);
    HysteresisSummary(w.a.w, |w.spoke|, ev.vad);
    var onset := Feeds(w.a.w.preRoll, Onset);
    assert w.a.p.feeds + (onset + [Feed(|w.spoke|, Live)]) == w.a.p.feeds + onset + [Feed(|w.spoke|, Live)];
  }

  /** Three speech-positive chunks in a row with no stream reset in between all reach the recogniser. */
  lemma SpeechReachesRecogniser(t0: real, evs: seq<Event>, k: nat)
    requires ValidRun(Start(t0), evs)
    requires var w := Run(Start(t0), evs);
      k + 2 < |w.vads| && PositiveAt(w, k) && PositiveAt(w, k + 1) && w.vads[k + 2]
    ensures var w := Run(Start(t0), evs); Reached(w, k) && Reached(w, k + 1) && Reached(w, k + 2)
  {
    StartInv(t0);
    RunInv(Start(t0), evs);
  }

  /**
   Inactivity resets never hit a speaking worker, are at least 21 chunks apart, and each comes at
   least 15 seconds after every earlier stream reset of any kind.
   */
  lemma IdleResetsApart(t0: real, evs: seq<Event>, i: nat)
    requires ValidRun(Start(t0), evs) && i < |Run(Start(t0), evs).idle|
    ensures var w := Run(Start(t0), evs); var r := w.idle[i];
      && r.chunk < |w.spoke| && !w.spoke[r.chunk]
      && r.index < |w.resets|
      && (forall j :: 0 <= j < r.index ==> w.resets[r.index] - w.resets[j] >= 15.0)
      && (i + 1 < |w.idle| ==> w.idle[i + 1].chunk - r.chunk >= 21)
  {
    var w := Run(Start(t0), evs);
    assert w.freshAt <= |w.spoke| && IdleResets(w) by {
      StartInv(t0);
      RunInv(Start(t0), evs);
    }
    IdleApart(w, i);
  }

  lemma IdleApart(w: World, i: nat)
    requires w.freshAt <= |w.spoke| && IdleResets(w) && i < |w.idle|
    ensures IdleFits(w, w.idle[i]) && (i + 1 < |w.idle| ==> w.idle[i + 1].chunk - w.idle[i].chunk >= 21)
  {
    assert w.idle[i] in w.idle;
  }

  /**
   The test on the trailing pad before delivery never stops a hypothesis: one is delivered exactly
   when the chunk has not timed out and the recogniser has text, speaking or not.
   */
  lemma DeliveryIgnoresPad(t0: real, evs: seq<Event>, vad: bool, now: real, text: string)
    requires ValidRun(Start(t0), evs)
    ensures var a, n := Run(Start(t0), evs).a, |Run(Start(t0), evs).spoke|;
      Process(a, n, vad, now, text).1.Some? <==> text != "" && !TimedOut(Hysteresis(a.w, n, vad).0)
  {
    StartInv(t0);
    RunInv(Start(t0), evs);
    DeliveryExactly(Run(Start(t0), evs).a, |Run(Start(t0), evs).spoke|, vad, now, text);
  }

  lemma DeliveryExactly(a: Asr, n: nat, vad: bool, now: real, text: string)
    requires Counters(a.w)
    ensures Process(a, n, vad, now, text).1.Some? <==> text != "" && !TimedOut(Hysteresis(a.w, n, vad).0)
  {
  }
}
