/**
 The wake-phrase matcher: which phrase a window of hypotheses matches best, and how well.

 The fuzzy scorer, the anchor gate and the text operations are foreign and appear as functions; all
 that is used of the scorer is its range.
 */
module Matcher {
  import opened Common
  import opened VariantIndex

  const FUZZY_THRESHOLD := 0.65
  const WEIGHT_MATCH := 0.65
  const WEIGHT_CONTEXT := 0.20
  const WEIGHT_STABILITY := 0.15

  type Window = seq<(string, nat)>

  /**
   `ratio` is the token-set similarity scaled to 0..1, `anchored` the hard gate, `lower` and `split`
   the case folding and tokenising of strings.
   */
  datatype Foreign = Foreign(
    ratio: (string, string) -> real,
    anchored: (string, seq<string>) -> bool,
    lower: string -> string,
    split: string -> seq<string>)

  /**
   What the matcher reads, one lock at a time: the enabled phrases, the variants for the anchor gate, the
   index when a variant is picked and the index when its canonical phrase is looked up.
   */
  datatype Phrases = Phrases(active: seq<string>, anchors: seq<string>, index: Index, lookup: Index, norm: Normaliser)

  datatype Candidate = Candidate(score: real, phrase: string)

  datatype Match = Match(score: real, phrase: string, variant: string)

  const NoMatch := Match(0.0, "", "")

  ghost predicate InRange(f: Foreign) {
    forall a, b :: 0.0 <= f.ratio(a, b) <= 1.0
  }

  /** No phrase is empty: the registry accepts only non-empty phrases. */
  ghost predicate NonEmpty(p: Phrases) {
    && (forall i :: 0 <= i < |p.active| ==> p.active[i] != "")
    && (forall key :: key in p.lookup.canon ==> p.lookup.canon[key] != "")
  }

  // ----- the window as text -----

  function Join(parts: seq<string>): string {
    if parts == [] then "" else if |parts| == 1 then parts[0] else parts[0] + " " + Join(parts[1..])
  }

  function Weight(stability: nat): nat {
    1 + if stability / 2 < 3 then stability / 2 else 3
  }

  /** Every hypothesis, repeated by the weight of its stability. */
  function WeightedParts(w: Window): seq<string> {
    if w == [] then [] else WeightedParts(w[..|w| - 1]) + seq(Weight(w[|w| - 1].1), _ => w[|w| - 1].0)
  }

  function Combined(w: Window, f: Foreign): string {
    f.lower(Join(WeightedParts(w)))
  }

  function Texts(w: Window): (ts: seq<string>)
    ensures |ts| == |w| && forall i :: 0 <= i < |w| ==> ts[i] == w[i].0
  {
    seq(|w|, i requires 0 <= i < |w| => w[i].0)
  }

  function CountStable(w: Window): (n: nat)
    ensures n <= |w|
  {
    if w == [] then 0 else CountStable(w[..|w| - 1]) + if w[|w| - 1].1 >= 2 then 1 else 0
  }

  function Ratio(part: nat, whole: nat): (r: real)
    requires part <= whole && whole > 0
    ensures 0.0 <= r <= 1.0
  {
    part as real / whole as real
  }

  /** Share of hypotheses seen for at least two frames. */
  function StabilityScore(w: Window): (r: real)
    ensures 0.0 <= r <= 1.0
  {
    if w == [] then 0.0 else Ratio(CountStable(w), |w|)
  }

  function CountIn(words: seq<string>, among: set<string>): (n: nat)
    ensures n <= |words|
  {
    if words == [] then 0 else CountIn(words[..|words| - 1], among) + if words[|words| - 1] in among then 1 else 0
  }

  /** Share of the words before the phrase's last one that occur in the text; 1 when there are none. */
  function ContextScore(text: string, phrase: string, f: Foreign): (r: real)
    ensures 0.0 <= r <= 1.0
  {
    var words := f.split(phrase);
    if |words| <= 1 then 1.0
    else
      var context := words[..|words| - 1];
      Ratio(CountIn(context, Distinct(f.split(f.lower(text)))), |context|)
  }

  // ----- which variant fired -----

  predicate Occurs(variant: string, texts: seq<string>, f: Foreign) {
    exists t :: t in texts && Contains(f.lower(t), variant)
  }

  /** The longest variant occurring in the texts, the first such in index order. */
  function LongestOccurring(variants: seq<string>, texts: seq<string>, f: Foreign): string {
    if variants == [] then ""
    else
      var best := LongestOccurring(variants[..|variants| - 1], texts, f);
      var v := variants[|variants| - 1];
      if Occurs(v, texts, f) && |v| > |best| then v else best
  }

  lemma {:induction false} LongestIsLongest(variants: seq<string>, texts: seq<string>, f: Foreign)
    ensures var best := LongestOccurring(variants, texts, f);
      && (best != "" ==> best in variants && Occurs(best, texts, f))
      && forall v :: v in variants && Occurs(v, texts, f) ==> |v| <= |best|
  {
    if variants == [] {
    } else {
      LongestIsLongest(variants[..|variants| - 1], texts, f);
    }
  }

  /** `_find_matched_variant`, with its inner loop and break. */
  method FindMatchedVariant(combined: string, w: Window, variants: seq<string>, f: Foreign) returns (best: string)
    ensures best == LongestOccurring(variants, [combined] + Texts(w), f)
  {
    var texts := [combined] + Texts(w);
    best := "";
    for i := 0 to |variants|
      invariant best == LongestOccurring(variants[..i], texts, f)
    {
      assert variants[..i + 1][..i] == variants[..i];
      var v := variants[i];
      ghost var before := best;
      var j := 0;
      while j < |texts|
        invariant 0 <= j <= |texts| && best == before
        invariant forall k :: 0 <= k < j ==> !Contains(f.lower(texts[k]), v) || |v| <= |best|
      {
        if Contains(f.lower(texts[j]), v) {
          if |v| > |best| {
            assert texts[j] in texts;
            best := v;
            break;
          }
        }
        j := j + 1;
      }
    }
    assert variants[..|variants|] == variants;
  }

  // ----- scoring -----

  function MaxRatio(ts: seq<string>, phrase: string, f: Foreign): (r: real)
    ensures r >= 0.0
    ensures InRange(f) ==> r <= 1.0
  {
    if ts == [] then 0.0 else RMax(MaxRatio(ts[..|ts| - 1], phrase, f), f.ratio(ts[|ts| - 1], phrase))
  }

  function Distinct(words: seq<string>): set<string> {
    set t | t in words
  }

  function AllTokens(ts: seq<string>, f: Foreign): set<string> {
    if ts == [] then {} else AllTokens(ts[..|ts| - 1], f) + Distinct(f.split(f.lower(ts[|ts| - 1])))
  }

  /** The canonical phrase of the variant that fired, or "" when there is none. */
  function CanonicalOf(variant: string, p: Phrases): string {
    if variant == "" then ""
    else match Canonical(p.lookup, variant, p.norm) case Some(c) => c case None => ""
  }

  /** The phrases scored: the enabled ones, and the canonical phrase of the variant that fired. */
  function Scored(p: Phrases, canonical: string): seq<string> {
    if canonical != "" && canonical !in p.active then p.active + [canonical] else p.active
  }

  function Fuzzy(phrase: string, w: Window, combined: string, variant: string, canonical: string, f: Foreign): real {
    var target := f.lower(phrase);
    var viaVariant := if canonical == phrase && variant != "" then f.ratio(combined, variant) * 0.85 else 0.0;
    RMax(RMax(f.ratio(combined, target), MaxRatio(Texts(w), target, f)), viaVariant)
  }

  /** A phrase's score, or `None` when it is below the fuzzy threshold or longer than what was heard. */
  function Score(
      phrase: string, w: Window, combined: string, variant: string, canonical: string, f: Foreign): Option<real> {
    var fuzzy := Fuzzy(phrase, w, combined, variant, canonical, f);
    var heard := AllTokens(Texts(w), f);
    var needed := Distinct(f.split(f.lower(phrase)));
    if fuzzy < FUZZY_THRESHOLD || |heard| < |needed| then None
    else Some(fuzzy * WEIGHT_MATCH +
              ContextScore(combined, phrase, f) * WEIGHT_CONTEXT +
              StabilityScore(w) * WEIGHT_STABILITY)
  }

  function Candidates(
      phrases: seq<string>, w: Window, combined: string, variant: string, canonical: string,
      f: Foreign): seq<Candidate> {
    if phrases == [] then []
    else
      var phrase := phrases[|phrases| - 1];
      Candidates(phrases[..|phrases| - 1], w, combined, variant, canonical, f) +
      match Score(phrase, w, combined, variant, canonical, f) { case Some(s) => [Candidate(s, phrase)] case None => [] }
  }

  // ----- choosing among candidates -----

  /** Lexicographic order of strings. */
  predicate LexLess(a: string, b: string) {
    b != [] && (a == [] || a[0] < b[0] || (a[0] == b[0] && LexLess(a[1..], b[1..])))
  }

  /** The sort key: score, then length of the phrase, then the phrase itself. */
  predicate Below(a: Candidate, b: Candidate) {
    a.score < b.score ||
    (a.score == b.score && (|a.phrase| < |b.phrase| || (|a.phrase| == |b.phrase| && LexLess(a.phrase, b.phrase))))
  }

  function TopFrom(best: Candidate, cs: seq<Candidate>): Candidate
    decreases |cs|
  {
    if cs == [] then best else TopFrom(if Below(best, cs[0]) then cs[0] else best, cs[1..])
  }

  /** The winner and the best score; an empty phrase and 0 when nothing qualified. */
  function Pick(cs: seq<Candidate>): Candidate {
    if cs == [] then Candidate(0.0, "") else TopFrom(cs[0], cs[1..])
  }

  lemma {:induction false} LexTransitive(a: string, b: string, c: string)
    requires LexLess(a, b) && LexLess(b, c)
    ensures LexLess(a, c)
  {
    if a != [] && a[0] == b[0] && b[0] == c[0] { LexTransitive(a[1..], b[1..], c[1..]); }
  }

  lemma {:induction false} LexTotal(a: string, b: string)
    ensures a == b || LexLess(a, b) || LexLess(b, a)
  {
    if a != [] && b != [] && a[0] == b[0] {
      LexTotal(a[1..], b[1..]);
      assert a == [a[0]] + a[1..] && b == [b[0]] + b[1..];
    }
  }

  lemma {:induction false} LexIrreflexive(a: string)
    ensures !LexLess(a, a)
  {
    if a == [] {
    } else {
      LexIrreflexive(a[1..]);
    }
  }

  lemma BelowTotal(a: Candidate, b: Candidate)
    ensures a == b || Below(a, b) || Below(b, a)
  {
    LexTotal(a.phrase, b.phrase);
  }

  lemma BelowTransitive(a: Candidate, b: Candidate, c: Candidate)
    requires Below(a, b) && Below(b, c)
    ensures Below(a, c)
  {
    if a.score == b.score == c.score && |a.phrase| == |b.phrase| == |c.phrase| {
      LexTransitive(a.phrase, b.phrase, c.phrase);
    }
  }

  /** The pick is a candidate and no candidate ranks above it. */
  lemma {:induction false} TopIsTop(best: Candidate, cs: seq<Candidate>)
    ensures var top := TopFrom(best, cs);
      && (top == best || top in cs)
      && (top == best || Below(best, top))
      && forall c :: c in cs ==> c == top || Below(c, top)
    decreases |cs|
  {
    if cs == [] {
    } else {
      var next := if Below(best, cs[0]) then cs[0] else best;
      var top := TopFrom(best, cs);
      TopIsTop(next, cs[1..]);
      BelowTotal(best, cs[0]);
      if top != next {
        if Below(best, cs[0]) {
          BelowTransitive(best, next, top);
        } else if best != cs[0] {
          BelowTransitive(cs[0], best, top);
        }
      }
      forall c | c in cs ensures c == top || Below(c, top) {
        if c != cs[0] { assert c in cs[1..]; }
      }
    }
  }

  /** `_resolve_phrase_candidate` in its default mode, and the maximum of the scores beside it. */
  method ResolveCandidate(cs: seq<Candidate>) returns (best: Candidate)
    ensures best == Pick(cs)
    ensures cs != [] ==> best in cs && forall c :: c in cs ==> c == best || Below(c, best)
  {
    if cs == [] { return Candidate(0.0, ""); }
    best := cs[0];
    for i := 1 to |cs|
      invariant TopFrom(best, cs[i..]) == Pick(cs)
    {
      assert cs[i..][1..] == cs[i + 1..];
      if Below(best, cs[i]) { best := cs[i]; }
    }
    assert cs[|cs|..] == [];
    TopIsTop(cs[0], cs[1..]);
    forall c | c in cs ensures c == best || Below(c, best) {
      if c != cs[0] { assert c in cs[1..]; }
    }
  }

  // ----- the whole match -----

  function BestMatch(w: Window, p: Phrases, f: Foreign): Match {
    if w == [] || p.active == [] || !f.anchored(Combined(w, f), p.anchors) then NoMatch
    else
      var combined := Combined(w, f);
      var variant := LongestOccurring(p.index.variants, [combined] + Texts(w), f);
      var canonical := CanonicalOf(variant, p);
      var top := Pick(Candidates(Scored(p, canonical), w, combined, variant, canonical, f));
      Match(top.score, top.phrase, variant)
  }

  /** The loop that scores the phrases. */
  method CollectCandidates(
      phrases: seq<string>, w: Window, combined: string, variant: string, canonical: string, f: Foreign)
    returns (cs: seq<Candidate>)
    ensures cs == Candidates(phrases, w, combined, variant, canonical, f)
  {
    cs := [];
    for i := 0 to |phrases|
      invariant cs == Candidates(phrases[..i], w, combined, variant, canonical, f)
    {
      assert phrases[..i + 1][..i] == phrases[..i];
      var s := Score(phrases[i], w, combined, variant, canonical, f);
      if s.Some? { cs := cs + [Candidate(s.value, phrases[i])]; }
    }
    assert phrases[..|phrases|] == phrases;
  }

  method ComputeBestMatch(w: Window, p: Phrases, f: Foreign) returns (m: Match)
    ensures m == BestMatch(w, p, f)
  {
    if w == [] || p.active == [] { return NoMatch; }
    var combined := Combined(w, f);
    if !f.anchored(combined, p.anchors) { return NoMatch; }
    var variant := FindMatchedVariant(combined, w, p.index.variants, f);
    var canonical := CanonicalOf(variant, p);
    var phrases := p.active;
    if canonical != "" && canonical !in phrases { phrases := phrases + [canonical]; }
    var cs := CollectCandidates(phrases, w, combined, variant, canonical, f);
    var best := ResolveCandidate(cs);
    m := Match(best.score, best.phrase, variant);
  }

  /** A qualifying score is positive and at most 1. */
  lemma ScoreRange(phrase: string, w: Window, combined: string, variant: string, canonical: string, f: Foreign)
    requires InRange(f)
    ensures var s := Score(phrase, w, combined, variant, canonical, f); s.Some? ==> 0.4225 <= s.value <= 1.0
  {
  }

  lemma {:induction false} CandidatesFit(
      phrases: seq<string>, w: Window, combined: string, variant: string, canonical: string, f: Foreign)
    requires InRange(f) && forall i :: 0 <= i < |phrases| ==> phrases[i] != ""
    ensures forall c :: c in Candidates(phrases, w, combined, variant, canonical, f) ==>
      0.4225 <= c.score <= 1.0 && c.phrase != "" && c.phrase in phrases
  {
    if phrases == [] {
    } else {
      CandidatesFit(phrases[..|phrases| - 1], w, combined, variant, canonical, f);
      ScoreRange(phrases[|phrases| - 1], w, combined, variant, canonical, f);
    }
  }

  /** What the engine relies on. */
  ghost predicate Fits(m: Match) {
    0.0 <= m.score <= 1.0 && (m.phrase == "" <==> m.score == 0.0)
  }

  /** The phrase is empty exactly when the score is 0. */
  lemma MatchFits(w: Window, p: Phrases, f: Foreign)
    requires InRange(f) && NonEmpty(p)
    ensures Fits(BestMatch(w, p, f))
  {
    var combined := Combined(w, f);
    var variant := LongestOccurring(p.index.variants, [combined] + Texts(w), f);
    var canonical := CanonicalOf(variant, p);
    var cs := Candidates(Scored(p, canonical), w, combined, variant, canonical, f);
    CandidatesFit(Scored(p, canonical), w, combined, variant, canonical, f);
    if cs != [] { TopIsTop(cs[0], cs[1..]); }
  }

  /** The match's phrase qualifies with the match's score, and no scored phrase outranks it. */
  ghost predicate IsBest(m: Match, w: Window, p: Phrases, f: Foreign) {
    var combined, canonical := Combined(w, f), CanonicalOf(m.variant, p);
    && m.phrase in Scored(p, canonical)
    && Score(m.phrase, w, combined, m.variant, canonical, f) == Some(m.score)
    && forall rival :: rival in Scored(p, canonical) ==>
         match Score(rival, w, combined, m.variant, canonical, f)
         case None => true
         case Some(s) => s < m.score || (s == m.score && |rival| <= |m.phrase|)
  }

  /**
   A non-empty match is a qualifying phrase that no other outranks: none scores higher, and among
   equal scores none is longer.
   */
  lemma MatchIsBest(w: Window, p: Phrases, f: Foreign)
    requires InRange(f) && NonEmpty(p)
    ensures BestMatch(w, p, f).phrase != "" ==> IsBest(BestMatch(w, p, f), w, p, f)
  {
    var m, combined := BestMatch(w, p, f), Combined(w, f);
    if m.phrase != "" {
      var canonical := CanonicalOf(m.variant, p);
      var phrases := Scored(p, canonical);
      var cs := Candidates(phrases, w, combined, m.variant, canonical, f);
      CandidatesExact(phrases, w, combined, m.variant, canonical, f);
      TopIsTop(cs[0], cs[1..]);
      forall rival | rival in phrases
        ensures match Score(rival, w, combined, m.variant, canonical, f)
          case None => true
          case Some(s) => s < m.score || (s == m.score && |rival| <= |m.phrase|)
      {
        var s := Score(rival, w, combined, m.variant, canonical, f);
        if s.Some? {
          assert Candidate(s.value, rival) in cs;
          assert Candidate(s.value, rival) == cs[0] || Candidate(s.value, rival) in cs[1..];
        }
      }
    }
  }

  lemma {:induction false} CandidatesExact(
      phrases: seq<string>, w: Window, combined: string, variant: string, canonical: string, f: Foreign)
    ensures forall c ::
      c in Candidates(phrases, w, combined, variant, canonical, f)
      <==> c.phrase in phrases && Score(c.phrase, w, combined, variant, canonical, f) == Some(c.score)
  {
    if phrases == [] {
    } else {
      CandidatesExact(phrases[..|phrases| - 1], w, combined, variant, canonical, f);
      var last := phrases[|phrases| - 1];
      assert forall x :: x in phrases <==> x in phrases[..|phrases| - 1] || x == last;
    }
  }

  /**
   The variant the matcher picks, if any, is the longest variant heard. It has a canonical phrase exactly
   when it is still listed when that phrase is looked up; the phrase is then that of its last listing, and
   is among the phrases scored. Otherwise just the enabled phrases are scored.
   */
  lemma PickedVariantIsScored(w: Window, p: Phrases, ps: seq<PhraseConfig>, f: Foreign)
    requires Idempotent(p.norm) && Indexes(p.lookup, ps, p.norm) && NonEmpty(p)
    requires exists before :: Indexes(p.index, before, p.norm)
    ensures BestMatch(w, p, f).variant != "" ==> PicksLongest(BestMatch(w, p, f).variant, w, p, ps, f)
  {
    var v := BestMatch(w, p, f).variant;
    LongestIsLongest(p.index.variants, [Combined(w, f)] + Texts(w), f);
    if v != "" {
      var before :| Indexes(p.index, before, p.norm);
      ListedIsNormal(before, v, p.norm);
      if v in p.lookup.variants { VariantHasCanonical(p.lookup, ps, v, p.norm); }
    }
  }

  /** `v` is the longest variant heard; if it is still listed, its canonical phrase is scored. */
  ghost predicate PicksLongest(v: string, w: Window, p: Phrases, ps: seq<PhraseConfig>, f: Foreign) {
    && v in p.index.variants
    && (forall u :: u in p.index.variants && Occurs(u, [Combined(w, f)] + Texts(w), f) ==> |u| <= |v|)
    && (Canonical(p.lookup, v, p.norm).Some? <==> v in p.lookup.variants)
    && Canonical(p.lookup, v, p.norm) == LastListing(ps, v, p.norm)
    && if Canonical(p.lookup, v, p.norm).Some? then CanonicalOf(v, p) in Scored(p, CanonicalOf(v, p))
       else Scored(p, CanonicalOf(v, p)) == p.active
  }
}
