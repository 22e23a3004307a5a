/**
 What one hypothesis does to the engine, in terms of the scores and times themselves.

 Main results: a wake is added exactly when the raw confidence reaches 0.86 or the average since it last
 started over reaches 0.78, the generation is not the one that triggered last and 2 seconds have passed
 (`WakesExactlyWhen`); raw values that stay high enough for long enough therefore give a wake
 (`SustainedConfidenceWakes`), also if none of them reaches 0.86 (`SteadyHypothesesWake`). The candidate
 and the window after a hypothesis are those of `CandidateAfter` and `WindowAfter`.
 */
module WakeDecisions {
  import opened Common
  import opened WakeEngine
  import opened WakeRuns
  import HB = HypothesisBuffer
  import M = Matcher
  import VariantIndex

  // ----- confidence -----

  /** Fast up, slow down, starting from zero. */
  function Average(raws: seq<real>): real {
    if raws == [] then 0.0
    else
      var a, x := Average(raws[..|raws| - 1]), raws[|raws| - 1];
      if x > a then 0.7 * x + 0.3 * a else 0.3 * x + 0.7 * a
  }

  lemma {:induction false} AverageIsEma(raws: seq<real>)
    ensures EmaAll(raws) == Average(raws)
  {
    if raws == [] {
    } else {
      AverageIsEma(raws[..|raws| - 1]);
    }
  }

  /** The hit counter: one up above a score of a half, otherwise one down to zero. */
  function HitsWith(before: nat, score: real): nat {
    if score > 0.5 then before + 1 else if before > 0 then before - 1 else 0
  }

  /** Four fifths of the score and a fifth for hits in the window, which counts as three entries at least. */
  function RawWith(score: real, size: nat, hits: nat): real {
    var entries := if size > 3 then size else 3;
    var share := 4.0 * score + (if hits < entries then hits as real / entries as real else 1.0);
    if share >= 5.0 then 1.0 else share / 5.0
  }

  lemma ShareAtMostOne(hits: nat, entries: nat)
    requires entries > 0
    ensures RMin(hits as real / entries as real, 1.0) == if hits < entries then hits as real / entries as real else 1.0
  {
    RatioToOne(hits as real, entries as real);
  }

  lemma RatioToOne(x: real, y: real)
    requires y > 0.0
    ensures x / y <= 1.0 <==> x <= y
    ensures x / y >= 1.0 <==> x >= y
  {
    var q := x / y;
    assert q * y == x;
    assert q * y - y == (q - 1.0) * y;
  }

  lemma RawIs(e: Engine, score: real, size: nat)
    ensures HitsAfter(e.hits, score) == HitsWith(e.hits, score)
    ensures RawOf(e, score, size) == RawWith(score, size, HitsWith(e.hits, score))
  {
    ShareAtMostOne(HitsAfter(e.hits, score), if size > 3 then size else 3);
  }

  // ----- when a wake is added -----

  /** Does the hypothesis make the average start over: another generation, or another phrase? */
  predicate Fresh(w: World, h: Heard, phrase: string) {
    h.generation != w.e.seenGen || (phrase != "" && phrase != w.e.lastPhrase)
  }

  /** The raw values the average is taken over after one more hypothesis. */
  function RawsWith(w: World, h: Heard, phrase: string, raw: real): seq<real> {
    (if Fresh(w, h, phrase) then [] else w.raws) + [raw]
  }

  /** What the gates allow: not the generation that triggered last, and 2 seconds since. */
  predicate GatesOpen(w: World, h: Heard, now: real) {
    h.generation != w.e.triggerGen && now - w.e.lastTrigger >= 2.0
  }

  /** The decision and the scalar state after a hypothesis whose match and raw confidence are given. */
  ghost predicate Decided(w: World, w': World, h: Heard, now: real, phrase: string, raw: real) {
    var raws := RawsWith(w, h, phrase, raw);
    var average := Average(raws);
    && w'.e.seenGen == h.generation
    && w'.e.lastPhrase == (if phrase != "" then phrase else w.e.lastPhrase)
    && if (raw >= 0.86 || average >= 0.78) && GatesOpen(w, h, now) then
         && w'.wakes == w.wakes + [Wake(phrase, raw, average, h.generation, now)]
         && w'.raws == [] && w'.e.smooth == 0.0 && w'.e.hits == 0 && w'.e.buffer == [] && w'.e.candidate.None?
         && w'.e.triggerGen == h.generation && w'.e.lastTrigger == now
         && w'.e.wakes == w.e.wakes + 1 && w'.e.tel.wakes == w.e.tel.wakes + 1
       else
         && w'.wakes == w.wakes
         && w'.raws == raws && w'.e.smooth == average
         && w'.e.triggerGen == w.e.triggerGen && w'.e.lastTrigger == w.e.lastTrigger
         && w'.e.wakes == w.e.wakes && w'.e.tel.wakes == w.e.tel.wakes
  }

  lemma ObserveKeepsRest(e: Engine, h: Heard, now: real, m: M.Match, canonical: string, raw: real, frames: nat)
    ensures var e' := Observe(e, h, now, m, canonical, raw, frames);
      e'.tel.wakes == e.tel.wakes && e'.hits == e.hits && e'.buffer == e.buffer
  {
  }

  /** The engine just before the gates are asked. */
  lemma BeforeGates(e: Engine, h: Heard, now: real, size: nat, m: M.Match, canonical: string, raws: seq<real>)
    requires e.smooth == EmaAll(raws)
    ensures var raw := RawOf(e, m.score, size);
      var e1 := e.(hits := HitsAfter(e.hits, m.score));
      var e2 := Observe(e1, h, now, m, canonical, raw, EffectiveStability(h.stability));
      var e3 := Smoothed(e2, h.generation, m.phrase, raw);
      && e3.smooth == Average((if StartsOver(e, h.generation, m.phrase) then [] else raws) + [raw])
      && e3.seenGen == h.generation && e3.lastPhrase == (if m.phrase != "" then m.phrase else e.lastPhrase)
      && e3.hits == (if h.generation != e.seenGen then 0 else HitsAfter(e.hits, m.score))
      && e3.triggerGen == e.triggerGen && e3.lastTrigger == e.lastTrigger
      && e3.wakes == e.wakes && e3.tel.wakes == e.tel.wakes && e3.buffer == e.buffer
  {
    var raw := RawOf(e, m.score, size);
    var e1 := e.(hits := HitsAfter(e.hits, m.score));
    ObserveKeeps(e1, h, now, m, canonical, raw, EffectiveStability(h.stability));
    ObserveKeepsRest(e1, h, now, m, canonical, raw, EffectiveStability(h.stability));
    EmaSnoc(raws, raw);
    EmaSnoc([], raw);
    AverageIsEma(raws + [raw]);
    AverageIsEma([] + [raw]);
  }

  lemma ConfirmKeepsWakes(t: Telemetry)
    ensures TelConfirm(t).wakes == t.wakes
  {
  }

  lemma DecidedOn(w: World, h: Heard, now: real, size: nat, m: M.Match, canonical: string)
    requires w.e.smooth == EmaAll(w.raws)
    ensures Decided(w, StepOn(w, h, now, size, m, canonical), h, now, m.phrase, RawOf(w.e, m.score, size))
    ensures var w' := StepOn(w, h, now, size, m, canonical); w'.wakes == w.wakes ==>
      && w'.e.hits == (if h.generation != w.e.seenGen then 0 else HitsAfter(w.e.hits, m.score))
      && w'.e.buffer == w.e.buffer
  {
    var raw := RawOf(w.e, m.score, size);
    BeforeGates(w.e, h, now, size, m, canonical, w.raws);
    var e1 := w.e.(hits := HitsAfter(w.e.hits, m.score));
    var e2 := Observe(e1, h, now, m, canonical, raw, EffectiveStability(h.stability));
    var e3 := Smoothed(e2, h.generation, m.phrase, raw);
    ConfirmKeepsWakes(e3.tel.(wakes := e3.tel.wakes + 1));
    assert Decide(w.e, h, now, size, m, canonical)
        == if Confident(e3.smooth, raw) && Allowed(e3, h.generation, now)
           then (Fired(e3, h.generation, now), Some(Wake(m.phrase, raw, e3.smooth, h.generation, now)))
           else (e3, None);
  }

  /** The raw confidence of a hypothesis, from the match's score, the size of the window and the hits so far. */
  function RawNow(w: World, ev: Event, f: M.Foreign): real {
    var score := MatchOf(w.e, ev, f).score;
    RawWith(score, |Buffered(w.e.buffer, ev.h, ev.now)|, HitsWith(w.e.hits, score))
  }

  /**
   In every world reached and for every hypothesis: a wake is added exactly when the raw confidence
   reaches 0.86 or the average reaches 0.78, and the gates are open.
   */
  lemma WakesExactlyWhen(w: World, ev: Event, f: M.Foreign)
    requires Inv(w)
    ensures Decided(w, Step(w, ev, f), ev.h, ev.now, MatchOf(w.e, ev, f).phrase, RawNow(w, ev, f))
  {
    var b := Buffered(w.e.buffer, ev.h, ev.now);
    var m := MatchOf(w.e, ev, f);
    RawIs(w.e, m.score, |b|);
    DecidedOn(w.(e := w.e.(buffer := b)), ev.h, ev.now, |b|, m, M.CanonicalOf(m.variant, ev.p));
    DecidedWithin(w, b, Step(w, ev, f), ev.h, ev.now, m.phrase, RawNow(w, ev, f));
  }

  /** What is in the window makes no difference to the decision once it is matched. */
  lemma DecidedWithin(w: World, b: seq<HB.Entry>, w': World, h: Heard, now: real, phrase: string, raw: real)
    requires Decided(w.(e := w.e.(buffer := b)), w', h, now, phrase, raw)
    ensures Decided(w, w', h, now, phrase, raw)
  {
    assert RawsWith(w.(e := w.e.(buffer := b)), h, phrase, raw) == RawsWith(w, h, phrase, raw);
  }

  /** A hypothesis that does not wake leaves its window and its hit; a new generation starts the hits over. */
  lemma QuietHypothesis(w: World, ev: Event, f: M.Foreign)
    requires Inv(w) && Step(w, ev, f).wakes == w.wakes
    ensures var w' := Step(w, ev, f);
      && w'.e.hits == (if ev.h.generation != w.e.seenGen then 0 else HitsWith(w.e.hits, MatchOf(w.e, ev, f).score))
      && w'.e.buffer == Buffered(w.e.buffer, ev.h, ev.now)
  {
    var b := Buffered(w.e.buffer, ev.h, ev.now);
    var m := MatchOf(w.e, ev, f);
    RawIs(w.e, m.score, |b|);
    DecidedOn(w.(e := w.e.(buffer := b)), ev.h, ev.now, |b|, m, M.CanonicalOf(m.variant, ev.p));
  }

  /** The gates remember the last wake of the run. */
  ghost predicate Remembers(w: World) {
    if w.wakes == [] then w.e.triggerGen == -1 && w.e.lastTrigger == 0.0
    else
      var last := w.wakes[|w.wakes| - 1];
      w.e.triggerGen == last.generation && w.e.lastTrigger == last.time
  }

  lemma DecidedRemembers(w: World, w': World, h: Heard, now: real, phrase: string, raw: real)
    requires Remembers(w) && Decided(w, w', h, now, phrase, raw)
    ensures Remembers(w')
  {
  }

  lemma {:induction false} RunRemembers(w: World, evs: seq<Event>, f: M.Foreign)
    requires Inv(w) && Remembers(w) && M.InRange(f) && PhrasesNonEmpty(evs)
    ensures Remembers(Run(w, evs, f))
    decreases |evs|
  {
    if evs == [] {
    } else {
      var ev, w' := evs[0], Step(w, evs[0], f);
      WakesExactlyWhen(w, ev, f);
      DecidedRemembers(w, w', ev.h, ev.now, MatchOf(w.e, ev, f).phrase, RawNow(w, ev, f));
      StepInv(w, ev, f);
      RunRemembers(w', evs[1..], f);
    }
  }

  /** After any run the gates compare with the generation and the time of its last wake. */
  lemma GatesRememberLastWake(evs: seq<Event>, f: M.Foreign)
    requires M.InRange(f) && PhrasesNonEmpty(evs)
    ensures Remembers(Run(Start, evs, f))
  {
    StartInv();
    RunRemembers(Start, evs, f);
  }

  lemma DecidedWakes(w: World, w': World, h: Heard, now: real, phrase: string, raw: real)
    requires Decided(w, w', h, now, phrase, raw) && GatesOpen(w, h, now)
    requires raw >= 0.86 || Average(RawsWith(w, h, phrase, raw)) >= 0.78
    ensures |w'.wakes| == |w.wakes| + 1 && w'.wakes[|w.wakes|].raw == raw
  {
  }

  lemma AverageRises(raws: seq<real>, r: real)
    requires r >= 0.0 && AtLeast(raws, r)
    ensures Average(raws) >= r * (1.0 - Pow(0.3, |raws|))
  {
    var k := |raws|;
    EmaFloor(raws, r);
    AverageIsEma(raws);
    DecayedIsPower(r, k);
    assert r * (1.0 - Pow(0.3, k)) == r - r * Pow(0.3, k);
  }

  /** `k` raw values of at least `r` that force an average of 0.78. */
  ghost predicate Sustained(raws: seq<real>, r: real) {
    r >= 0.0 && AtLeast(raws, r) && r * (1.0 - Pow(0.3, |raws|)) >= 0.78
  }

  lemma SustainedIsWake(w: World, w': World, h: Heard, now: real, phrase: string, raw: real, r: real)
    requires Decided(w, w', h, now, phrase, raw) && GatesOpen(w, h, now) && Sustained(RawsWith(w, h, phrase, raw), r)
    ensures |w'.wakes| == |w.wakes| + 1
  {
    AverageRises(RawsWith(w, h, phrase, raw), r);
    DecidedWakes(w, w', h, now, phrase, raw);
  }

  /** Raw values of at least `r`, often enough: the average reaches 0.78, and with open gates that is a wake. */
  lemma SustainedConfidenceWakes(w: World, ev: Event, f: M.Foreign, phrase: string, raw: real, r: real)
    requires Inv(w) && GatesOpen(w, ev.h, ev.now)
    requires phrase == MatchOf(w.e, ev, f).phrase && raw == RawNow(w, ev, f)
    requires Sustained(RawsWith(w, ev.h, phrase, raw), r)
    ensures |Step(w, ev, f).wakes| == |w.wakes| + 1
  {
    var w' := Step(w, ev, f);
    assert Decided(w, w', ev.h, ev.now, phrase, raw) by { WakesExactlyWhen(w, ev, f); }
    SustainedIsWake(w, w', ev.h, ev.now, phrase, raw, r);
  }

  // ----- the candidate -----

  /** The candidate a hypothesis leaves open before the decision. */
  function OpenCandidate(w: World, h: Heard, now: real, m: M.Match, canonical: string, raw: real): Option<Session> {
    var stability := if h.stability < 12 then h.stability else 12;
    match w.e.candidate
    case None =>
      if m.phrase != "" && raw >= 0.5 then Some(NewCandidate(w, h, now, m, canonical, raw)) else None
    case Some(c) =>
      if m.phrase == "" || raw < 0.5 then (if now - c.lastUpdate > 1.0 then None else Some(c))
      else if c.phrase != m.phrase then Some(NewCandidate(w, h, now, m, canonical, raw))
      else Some(Session(c.phrase, c.variant, c.canonical, c.startTime, now,
                        if raw > c.peakRaw then raw else c.peakRaw,
                        if w.e.smooth > c.peakSmooth then w.e.smooth else c.peakSmooth,
                        c.transcript + [h.text], if stability > c.frames then stability else c.frames, Updated))
  }

  function NewCandidate(w: World, h: Heard, now: real, m: M.Match, canonical: string, raw: real): Session {
    Session(m.phrase, m.variant, if canonical == "" then m.phrase else canonical, now, now, raw, w.e.smooth,
            [h.text], if h.stability < 12 then h.stability else 12, Started)
  }

  /** What happened to a session archived by this hypothesis: replaced, timed out, or neither. */
  function Ended(w: World, now: real, m: M.Match, raw: real): seq<Archived> {
    match w.e.candidate
    case None => []
    case Some(c) =>
      if m.phrase != "" && raw >= 0.5 then
        (if c.phrase != m.phrase then [Archived(c.(status := Dropped), true)] else [])
      else if now - c.lastUpdate > 1.0 then [Archived(c.(status := Dropped), false)] else []
  }

  /**
   Engine and telemetry after a hypothesis: a candidate that ended is archived and counts as a false wake,
   and a wake archives the open one as confirmed.
   */
  ghost predicate CandidateAfter(
      w: World, w': World, h: Heard, now: real, m: M.Match, canonical: string, raw: real) {
    var candidate, ended := OpenCandidate(w, h, now, m, canonical, raw), Ended(w, now, m, raw);
    && w'.e.tel.falseWakes == w.e.tel.falseWakes + |ended|
    && w'.e.tel.active == w'.e.candidate
    && if w'.wakes == w.wakes then w'.e.candidate == candidate && w'.e.tel.sessions == w.e.tel.sessions + ended
       else
         && w'.e.candidate == None
         && w'.e.tel.sessions == w.e.tel.sessions + ended +
              match candidate case None => [] case Some(c) => [Archived(c.(status := Confirmed), false)]
  }

  lemma ObservedCandidate(w: World, e1: Engine, h: Heard, now: real, m: M.Match, canonical: string, raw: real)
    requires w.e.tel.active == w.e.candidate && e1 == w.e.(hits := e1.hits)
    ensures var e2 := Observe(e1, h, now, m, canonical, raw, EffectiveStability(h.stability));
      && e2.candidate == OpenCandidate(w, h, now, m, canonical, raw) && e2.tel.active == e2.candidate
      && e2.tel.sessions == w.e.tel.sessions + Ended(w, now, m, raw)
      && e2.tel.falseWakes == w.e.tel.falseWakes + |Ended(w, now, m, raw)|
  {
  }

  lemma CandidateOn(w: World, h: Heard, now: real, size: nat, m: M.Match, canonical: string)
    requires w.e.tel.active == w.e.candidate
    ensures CandidateAfter(w, StepOn(w, h, now, size, m, canonical), h, now, m, canonical, RawOf(w.e, m.score, size))
  {
    var raw := RawOf(w.e, m.score, size);
    var e1 := w.e.(hits := HitsAfter(w.e.hits, m.score));
    ObservedCandidate(w, e1, h, now, m, canonical, raw);
    var e2 := Observe(e1, h, now, m, canonical, raw, EffectiveStability(h.stability));
    var e3 := Smoothed(e2, h.generation, m.phrase, raw);
    var t := e3.tel.(wakes := e3.tel.wakes + 1);
    assert TelConfirm(t).sessions
        == e3.tel.sessions +
             match e3.candidate case None => [] case Some(c) => [Archived(c.(status := Confirmed), false)];
    assert Decide(w.e, h, now, size, m, canonical)
        == if Confident(e3.smooth, raw) && Allowed(e3, h.generation, now)
           then (Fired(e3, h.generation, now), Some(Wake(m.phrase, raw, e3.smooth, h.generation, now)))
           else (e3, None);
  }

  /** The candidate in every world reached and for every hypothesis. */
  lemma CandidateIsKept(w: World, ev: Event, f: M.Foreign)
    requires Inv(w)
    ensures var m := MatchOf(w.e, ev, f);
      CandidateAfter(w, Step(w, ev, f), ev.h, ev.now, m, M.CanonicalOf(m.variant, ev.p), RawNow(w, ev, f))
  {
    var b := Buffered(w.e.buffer, ev.h, ev.now);
    var m := MatchOf(w.e, ev, f);
    var canonical := M.CanonicalOf(m.variant, ev.p);
    RawIs(w.e, m.score, |b|);
    CandidateOn(w.(e := w.e.(buffer := b)), ev.h, ev.now, |b|, m, canonical);
    CandidateWithin(w, b, Step(w, ev, f), ev.h, ev.now, m, canonical, RawNow(w, ev, f));
  }

  /** What is in the window makes no difference to the candidate. */
  lemma CandidateWithin(
      w: World, b: seq<HB.Entry>, w': World, h: Heard, now: real, m: M.Match, canonical: string, raw: real)
    requires CandidateAfter(w.(e := w.e.(buffer := b)), w', h, now, m, canonical, raw)
    ensures CandidateAfter(w, w', h, now, m, canonical, raw)
  {
    var v := w.(e := w.e.(buffer := b));
    assert OpenCandidate(v, h, now, m, canonical, raw) == OpenCandidate(w, h, now, m, canonical, raw);
    assert Ended(v, now, m, raw) == Ended(w, now, m, raw);
  }

  // ----- the window -----

  /** What a hypothesis adds: its text, and a longer peak behind it or in its place. */
  function NewEntries(h: Heard, now: real): seq<HB.Entry> {
    var stability := if h.stability < 12 then h.stability else 12;
    var text, peak := HB.Entry(now, h.text, stability), HB.Entry(now, h.peak, stability + 2);
    if |h.peak| <= |h.text| then [text] else if h.text != "" && h.text <= h.peak then [peak] else [text, peak]
  }

  /** The old entries, without the last one if it and the new text are prefixes of one another. */
  function Superseded(buffer: seq<HB.Entry>, text: string): seq<HB.Entry> {
    if buffer == [] then []
    else
      var last := buffer[|buffer| - 1].text;
      if last != "" && (last <= text || text <= last) then buffer[..|buffer| - 1] else buffer
  }

  /** The old entries of the last 3.5 seconds and then the new ones. */
  ghost predicate WindowAfter(buffer: seq<HB.Entry>, buffer': seq<HB.Entry>, h: Heard, now: real) {
    var kept := Superseded(buffer, h.text);
    exists k ::
      && 0 <= k <= |kept|
      && (forall i :: 0 <= i < k ==> kept[i].time < now - 3.5)
      && (forall i :: k <= i < |kept| ==> kept[i].time >= now - 3.5)
      && buffer' == kept[k..] + NewEntries(h, now)
  }

  lemma RecentCons(e: HB.Entry, es: seq<HB.Entry>, cutoff: real)
    ensures HB.Recent([e] + es, cutoff) == (if e.time < cutoff then [] else [e]) + HB.Recent(es, cutoff)
  {
  }

  lemma RecentAppendCons(e: HB.Entry, es: seq<HB.Entry>, b: seq<HB.Entry>, cutoff: real)
    requires HB.Recent(es + b, cutoff) == HB.Recent(es, cutoff) + b
    ensures HB.Recent([e] + es + b, cutoff) == HB.Recent([e] + es, cutoff) + b
  {
    RecentCons(e, es, cutoff);
    RecentCons(e, es + b, cutoff);
    assert [e] + es + b == [e] + (es + b);
  }

  lemma {:induction false} RecentAppend(a: seq<HB.Entry>, b: seq<HB.Entry>, cutoff: real)
    requires forall i :: 0 <= i < |b| ==> b[i].time >= cutoff
    ensures HB.Recent(a + b, cutoff) == HB.Recent(a, cutoff) + b
  {
    if a == [] {
      assert a + b == b;
      HB.AllRecent(b, cutoff);
    } else {
      RecentAppend(a[1..], b, cutoff);
      RecentAppendCons(a[0], a[1..], b, cutoff);
      assert [a[0]] + a[1..] == a;
    }
  }

  lemma RecentTwice(a: seq<HB.Entry>, cutoff: real)
    requires HB.TimesAscend(a)
    ensures HB.TimesAscend(HB.Recent(a, cutoff))
    ensures HB.Recent(HB.Recent(a, cutoff), cutoff) == HB.Recent(a, cutoff)
  {
    var k := HB.RecentSuffix(a, cutoff);
    HB.AllRecent(a[k..], cutoff);
  }

  lemma TextPlaced(buffer: seq<HB.Entry>, h: Heard, now: real)
    requires HB.TimesAscend(buffer)
    ensures var text := HB.Entry(now, h.text, if h.stability < 12 then h.stability else 12);
      WithText(buffer, h, now) == HB.Recent(Superseded(buffer, h.text), now - 3.5) + [text]
  {
    var text := HB.Entry(now, h.text, EffectiveStability(h.stability));
    assert HB.Placed(buffer, text) == Superseded(buffer, h.text) + [text];
    RecentAppend(Superseded(buffer, h.text), [text], now - 3.5);
  }

  /** The peak is pushed exactly when it counts, and takes the text's place exactly when it extends it. */
  lemma PeakPlaced(old': seq<HB.Entry>, h: Heard, now: real, text: HB.Entry, all: seq<HB.Entry>)
    requires text == HB.Entry(now, h.text, if h.stability < 12 then h.stability else 12)
    requires all == old' + NewEntries(h, now)
    ensures WithPeak(old' + [text], h, now) == if PeakCounts(h) then HB.Recent(all, now - 3.5) else all
  {
    if PeakCounts(h) {
      assert HB.Placed(old' + [text], HB.Entry(now, h.peak, text.stability + 2)) == all by {
        PeakReplaces(old', text, HB.Entry(now, h.peak, text.stability + 2));
      }
    } else {
      assert NewEntries(h, now) == [text];
    }
  }

  lemma RecentNew(old': seq<HB.Entry>, h: Heard, now: real, all: seq<HB.Entry>)
    requires HB.Recent(old', now - 3.5) == old' && all == old' + NewEntries(h, now)
    ensures HB.Recent(all, now - 3.5) == all
  {
    RecentAppend(old', NewEntries(h, now), now - 3.5);
  }

  lemma PeakReplaces(old': seq<HB.Entry>, text: HB.Entry, peak: HB.Entry)
    requires |peak.text| > |text.text|
    ensures HB.Placed(old' + [text], peak)
         == old' + if text.text != "" && text.text <= peak.text then [peak] else [text, peak]
  {
    var all := old' + [text];
    assert all[|all| - 1] == text;
    assert HB.Replaces(all, peak.text) <==> text.text != "" && text.text <= peak.text;
    assert all[|all| - 1 := peak] == old' + [peak];
    assert all + [peak] == old' + [text, peak];
  }

  lemma RecentlyKept(kept: seq<HB.Entry>, buffer': seq<HB.Entry>, cutoff: real, now: real) returns (k: nat)
    requires HB.TimesAscend(kept) && HB.NoLaterThan(kept, now) && buffer' == HB.Recent(kept, cutoff)
    ensures k <= |kept| && (forall i :: 0 <= i < k ==> kept[i].time < cutoff)
    ensures (forall i :: k <= i < |kept| ==> kept[i].time >= cutoff) && buffer' == kept[k..]
    ensures HB.TimesAscend(buffer') && HB.NoLaterThan(buffer', now)
  {
    k := HB.RecentSuffix(kept, cutoff);
  }

  lemma BufferedIs(buffer: seq<HB.Entry>, h: Heard, now: real, recent: seq<HB.Entry>)
    requires HB.TimesAscend(buffer)
    requires recent == HB.Recent(Superseded(buffer, h.text), now - 3.5) == HB.Recent(recent, now - 3.5)
    ensures Buffered(buffer, h, now) == recent + NewEntries(h, now)
  {
    var text, all := HB.Entry(now, h.text, EffectiveStability(h.stability)), recent + NewEntries(h, now);
    TextPlaced(buffer, h, now);
    PeakPlaced(recent, h, now, text, all);
    RecentNew(recent, h, now, all);
  }

  lemma NewAscend(recent: seq<HB.Entry>, h: Heard, now: real)
    requires HB.TimesAscend(recent) && HB.NoLaterThan(recent, now)
    ensures HB.TimesAscend(recent + NewEntries(h, now)) && HB.NoLaterThan(recent + NewEntries(h, now), now)
  {
  }

  /** The window of every hypothesis, and that times go on ascending in it. */
  lemma WindowIsKept(buffer: seq<HB.Entry>, h: Heard, now: real)
    requires HB.TimesAscend(buffer) && HB.NoLaterThan(buffer, now)
    ensures WindowAfter(buffer, Buffered(buffer, h, now), h, now)
    ensures HB.TimesAscend(Buffered(buffer, h, now)) && HB.NoLaterThan(Buffered(buffer, h, now), now)
  {
    var kept := Superseded(buffer, h.text);
    var recent := HB.Recent(kept, now - 3.5);
    var k := RecentlyKept(kept, recent, now - 3.5, now);
    RecentTwice(kept, now - 3.5);
    BufferedIs(buffer, h, now, recent);
    NewAscend(recent, h, now);
  }

  // ----- a run that wakes without the escape threshold -----

  /** Whatever was heard, as long as it is "hey" alone, matches "hey" with score 0.80. */
  ghost predicate AlwaysHey(p: M.Phrases, f: M.Foreign) {
    && M.InRange(f) && M.NonEmpty(p)
    && forall window: M.Window :: |window| == 1 && window[0] == ("hey", 0) ==>
         M.BestMatch(window, p, f) == M.Match(0.8, "hey", "")
  }

  function HeyEvent(now: real, p: M.Phrases): Event {
    Event(Heard("hey", 0, "", 1), now, p)
  }

  /** The window never holds more than the one text. */
  lemma SteadyBuffer(buffer: seq<HB.Entry>, now: real)
    requires |buffer| <= 1 && forall i :: 0 <= i < |buffer| ==> buffer[i].text == "hey"
    ensures Buffered(buffer, Heard("hey", 0, "", 1), now) == [HB.Entry(now, "hey", 0)]
  {
    var e := HB.Entry(now, "hey", 0);
    assert HB.Placed(buffer, e) == [e];
    assert HB.Recent([e], now - HB.WINDOW_SECONDS) == [e];
  }

  /** A state of the run: nothing but "hey" was heard. */
  ghost predicate Steadied(w: World, hits: nat, raws: seq<real>) {
    && w.wakes == [] && w.raws == raws && w.e.hits == hits
    && w.e.triggerGen == -1 && w.e.lastTrigger == 0.0
    && |w.e.buffer| <= 1 && (forall i :: 0 <= i < |w.e.buffer| ==> w.e.buffer[i].text == "hey")
    && (raws != [] ==> w.e.seenGen == 1 && w.e.lastPhrase == "hey")
    && (raws == [] ==> w.e.seenGen == -1)
  }

  lemma SteadyHeard(w: World, now: real, p: M.Phrases, f: M.Foreign)
    requires |w.e.buffer| <= 1 && (forall i :: 0 <= i < |w.e.buffer| ==> w.e.buffer[i].text == "hey") && AlwaysHey(p, f)
    ensures var ev := HeyEvent(now, p);
      && Buffered(w.e.buffer, ev.h, now) == [HB.Entry(now, "hey", 0)]
      && MatchOf(w.e, ev, f) == M.Match(0.8, "hey", "")
  {
    SteadyBuffer(w.e.buffer, now);
    var window := HB.Window([HB.Entry(now, "hey", 0)]);
    assert |window| == 1 && window[0] == ("hey", 0);
  }

  lemma SteadyRaw(w: World, now: real, hits: nat, raws: seq<real>, p: M.Phrases, f: M.Foreign)
    requires Steadied(w, hits, raws) && AlwaysHey(p, f)
    ensures var ev := HeyEvent(now, p);
      && Buffered(w.e.buffer, ev.h, now) == [HB.Entry(now, "hey", 0)]
      && MatchOf(w.e, ev, f) == M.Match(0.8, "hey", "")
      && RawNow(w, ev, f) == RawWith(0.8, 1, hits + 1)
      && RawsWith(w, ev.h, "hey", RawNow(w, ev, f)) == raws + [RawWith(0.8, 1, hits + 1)]
  {
    SteadyHeard(w, now, p, f);
  }

  lemma DecidedSteady(w: World, w': World, now: real, hits: nat, raws: seq<real>)
    requires Steadied(w, hits, raws) && now >= 2.0
    requires var h, raw := Heard("hey", 0, "", 1), RawWith(0.8, 1, hits + 1);
      && raw < 0.86 && Average(raws + [raw]) < 0.78
      && RawsWith(w, h, "hey", raw) == raws + [raw] && Decided(w, w', h, now, "hey", raw)
    requires w'.wakes == w.wakes ==>
      w'.e.buffer == [HB.Entry(now, "hey", 0)] && w'.e.hits == (if w.e.seenGen != 1 then 0 else hits + 1)
    ensures Steadied(w', if raws == [] then 0 else hits + 1, raws + [RawWith(0.8, 1, hits + 1)])
  {
  }

  /** What a steady hypothesis does while the average stays below 0.78. */
  lemma SteadyStep(w: World, now: real, hits: nat, raws: seq<real>, p: M.Phrases, f: M.Foreign)
    requires Inv(w) && Steadied(w, hits, raws) && now >= 2.0 && AlwaysHey(p, f)
    requires RawWith(0.8, 1, hits + 1) < 0.86 && Average(raws + [RawWith(0.8, 1, hits + 1)]) < 0.78
    ensures var w' := Step(w, HeyEvent(now, p), f);
      Inv(w') && Steadied(w', if raws == [] then 0 else hits + 1, raws + [RawWith(0.8, 1, hits + 1)])
  {
    var ev := HeyEvent(now, p);
    var w' := Step(w, ev, f);
    SteadyRaw(w, now, hits, raws, p, f);
    WakesExactlyWhen(w, ev, f);
    if w'.wakes == w.wakes { QuietHypothesis(w, ev, f); }
    DecidedSteady(w, w', now, hits, raws);
    StepInv(w, ev, f);
  }

  /** The raw values of the run: the first hypothesis of a generation does not keep its hit. */
  lemma SteadyValues()
    ensures var a, b, c := 0.64 + 0.2 / 3.0, 0.64 + 0.4 / 3.0, 0.84;
      && RawWith(0.8, 1, 1) == a && RawWith(0.8, 1, 2) == b && RawWith(0.8, 1, 3) == c
      && Average([a]) < 0.78 && Average([a, a]) < 0.78 && Average([a, a, b]) < 0.78 && Average([a, a, b, c]) >= 0.78
  {
    var a, b, c := 0.64 + 0.2 / 3.0, 0.64 + 0.4 / 3.0, 0.84;
    assert [a][..0] == [] && [a, a][..1] == [a] && [a, a, b][..2] == [a, a] && [a, a, b, c][..3] == [a, a, b];
    assert Average([a]) == 0.7 * a;
    assert Average([a, a]) == 0.7 * a + 0.3 * (0.7 * a);
    assert Average([a, a, b]) == 0.7 * b + 0.3 * Average([a, a]);
    assert Average([a, a, b, c]) == 0.7 * c + 0.3 * Average([a, a, b]);
  }

  /** The state as a whole, and the next raw values with what they do to the average. */
  ghost predicate SteadyState(w: World, hits: nat, raws: seq<real>) {
    Inv(w) && Steadied(w, hits, raws)
  }

  ghost predicate StaysQuiet(hits: nat, raws: seq<real>, raw: real) {
    raw == RawWith(0.8, 1, hits + 1) && raw < 0.86 && Average(raws + [raw]) < 0.78
  }

  /** One more event at the end of a run that has not woken. */
  lemma SteadySnoc(
      start: World, evs: seq<Event>, now: real, hits: nat, raws: seq<real>, raw: real, p: M.Phrases, f: M.Foreign)
    requires SteadyState(Run(start, evs, f), hits, raws) && StaysQuiet(hits, raws, raw)
    requires now >= 2.0 && AlwaysHey(p, f)
    ensures SteadyState(Run(start, evs + [HeyEvent(now, p)], f), if raws == [] then 0 else hits + 1, raws + [raw])
  {
    RunSnoc(start, evs, HeyEvent(now, p), f);
    SteadyStep(Run(start, evs, f), now, hits, raws, p, f);
  }

  lemma {:induction false} RunSnoc(w: World, evs: seq<Event>, ev: Event, f: M.Foreign)
    ensures Run(w, evs + [ev], f) == Step(Run(w, evs, f), ev, f)
    decreases |evs|
  {
    var all := evs + [ev];
    if evs == [] {
      assert all[1..] == [];
    } else {
      assert all[1..] == evs[1..] + [ev];
      RunSnoc(Step(w, evs[0], f), evs[1..], ev, f);
    }
  }

  /** At the start nothing has been heard. */
  lemma SteadyAtStart()
    ensures SteadyState(Start, 0, [])
  {
    assert Steadied(Start, 0, []);
    StartInv();
  }

  lemma SteadyAppend(
      start: World, evs: seq<Event>, now: real, hits: nat, raws: seq<real>, raw: real, p: M.Phrases, f: M.Foreign,
      evs': seq<Event>, hits': nat, raws': seq<real>)
    requires SteadyState(Run(start, evs, f), hits, raws) && StaysQuiet(hits, raws, raw)
    requires now >= 2.0 && AlwaysHey(p, f)
    requires evs' == evs + [HeyEvent(now, p)] && raws' == raws + [raw] && hits' == if raws == [] then 0 else hits + 1
    ensures SteadyState(Run(start, evs', f), hits', raws')
  {
    SteadySnoc(start, evs, now, hits, raws, raw, p, f);
  }

  lemma SteadyOne(start: World, a: real, p: M.Phrases, f: M.Foreign, none: seq<Event>, one: seq<Event>)
    requires StaysQuiet(0, [], a) && AlwaysHey(p, f) && SteadyState(Run(start, none, f), 0, [])
    requires one == none + [HeyEvent(10.0, p)]
    ensures SteadyState(Run(start, one, f), 0, [a])
  {
    SteadyAppend(start, none, 10.0, 0, [], a, p, f, one, 0, [a]);
  }

  lemma SteadyTwo(start: World, a: real, p: M.Phrases, f: M.Foreign, one: seq<Event>, two: seq<Event>)
    requires StaysQuiet(0, [a], a) && AlwaysHey(p, f) && SteadyState(Run(start, one, f), 0, [a])
    requires two == one + [HeyEvent(10.1, p)]
    ensures SteadyState(Run(start, two, f), 1, [a, a])
  {
    SteadyAppend(start, one, 10.1, 0, [a], a, p, f, two, 1, [a, a]);
  }

  lemma SteadyThree(start: World, a: real, b: real, p: M.Phrases, f: M.Foreign, two: seq<Event>, three: seq<Event>)
    requires StaysQuiet(1, [a, a], b) && AlwaysHey(p, f) && SteadyState(Run(start, two, f), 1, [a, a])
    requires three == two + [HeyEvent(10.2, p)]
    ensures SteadyState(Run(start, three, f), 2, [a, a, b])
  {
    SteadyAppend(start, two, 10.2, 1, [a, a], b, p, f, three, 2, [a, a, b]);
  }

  /** The first three hypotheses do not wake. */
  lemma SteadyStart(
      start: World, a: real, b: real, p: M.Phrases, f: M.Foreign,
      none: seq<Event>, one: seq<Event>, two: seq<Event>, three: seq<Event>)
    requires SteadyState(Run(start, none, f), 0, []) && AlwaysHey(p, f)
    requires StaysQuiet(0, [], a) && StaysQuiet(0, [a], a) && StaysQuiet(1, [a, a], b)
    requires one == none + [HeyEvent(10.0, p)] && two == one + [HeyEvent(10.1, p)] && three == two + [HeyEvent(10.2, p)]
    ensures SteadyState(Run(start, three, f), 2, [a, a, b])
  {
    SteadyOne(start, a, p, f, none, one);
    SteadyTwo(start, a, p, f, one, two);
    SteadyThree(start, a, b, p, f, two, three);
  }

  lemma SteadyFourth(w: World, a: real, b: real, c: real, p: M.Phrases, f: M.Foreign)
    requires Inv(w) && Steadied(w, 2, [a, a, b]) && AlwaysHey(p, f)
    requires c == RawWith(0.8, 1, 3) < 0.86 && Average([a, a, b, c]) >= 0.78
    ensures var wakes := Step(w, HeyEvent(10.3, p), f).wakes; |wakes| == 1 && wakes[0].raw < 0.86
  {
    var ev := HeyEvent(10.3, p);
    SteadyRaw(w, 10.3, 2, [a, a, b], p, f);
    assert [a, a, b] + [c] == [a, a, b, c];
    WakesExactlyWhen(w, ev, f);
    DecidedWakes(w, Step(w, ev, f), ev.h, 10.3, "hey", c);
  }

  /**
   With nothing heard before, three hypotheses leave raw values below 0.86 and do not wake; the fourth, with
   another raw value below 0.86, does.
   */
  lemma SteadyHypothesesWake(start: World, p: M.Phrases, f: M.Foreign)
    requires SteadyState(start, 0, []) && AlwaysHey(p, f)
    ensures var w := Run(start, [HeyEvent(10.0, p), HeyEvent(10.1, p), HeyEvent(10.2, p)], f);
      && w.wakes == [] && |w.raws| == 3 && w.raws[0] < 0.86 && w.raws[1] < 0.86 && w.raws[2] < 0.86
      && var wakes := Step(w, HeyEvent(10.3, p), f).wakes; |wakes| == 1 && wakes[0].raw < 0.86
  {
    var a, b, c := RawWith(0.8, 1, 1), RawWith(0.8, 1, 2), RawWith(0.8, 1, 3);
    SteadyValues();
    assert [] + [a] == [a] && [a] + [a] == [a, a] && [a, a] + [b] == [a, a, b];
    var one := [HeyEvent(10.0, p)];
    var two := one + [HeyEvent(10.1, p)];
    var three := [HeyEvent(10.0, p), HeyEvent(10.1, p), HeyEvent(10.2, p)];
    SteadyStart(start, a, b, p, f, [], one, two, three);
    SteadyFourth(Run(start, three, f), a, b, c, p, f);
  }

  /** A scorer that gives 12/13 to everything, an open anchor gate, and every string one word. */
  const Steady := M.Foreign((a, b) => 12.0 / 13.0, (text, variants) => true, s => s, s => [s])

  const HeyOnly := M.Phrases(["hey"], [], VariantIndex.EmptyIndex, VariantIndex.EmptyIndex, s => s)

  /** One phrase of one word, heard once: 0.65 * 12/13 + 0.20. */
  lemma SteadyMatch(window: M.Window)
    requires |window| == 1 && window[0] == ("hey", 0)
    ensures M.BestMatch(window, HeyOnly, Steady) == M.Match(0.8, "hey", "")
  {
    var combined := M.Combined(window, Steady);
    assert M.LongestOccurring([], [combined] + M.Texts(window), Steady) == "";
    assert M.Scored(HeyOnly, "") == ["hey"];
    assert M.Texts(window) == ["hey"] && M.Texts(window)[..0] == [];
    assert M.MaxRatio(["hey"], "hey", Steady) == RMax(M.MaxRatio([], "hey", Steady), 12.0 / 13.0) by {
      assert ["hey"][..0] == [];
    }
    assert M.AllTokens(["hey"], Steady) == M.Distinct(["hey"]) by { assert ["hey"][..0] == []; }
    assert M.CountStable(window) == 0 by { assert window[..0] == []; }
    assert M.ContextScore(combined, "hey", Steady) == 1.0;
    assert M.Score("hey", window, combined, "", "", Steady) == Some(12.0 / 13.0 * 0.65 + 0.20);
    assert M.Candidates(["hey"], window, combined, "", "", Steady) == [M.Candidate(0.8, "hey")] by {
      assert ["hey"][..0] == [];
    }
  }

  lemma SteadyIsHey()
    ensures AlwaysHey(HeyOnly, Steady)
  {
    forall window: M.Window | |window| == 1 && window[0] == ("hey", 0)
      ensures M.BestMatch(window, HeyOnly, Steady) == M.Match(0.8, "hey", "")
    {
      SteadyMatch(window);
    }
  }
}
