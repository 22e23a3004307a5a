/**
 What a match is, in the texts, tokens and ratios themselves.

 Main result: a match is empty exactly when the anchor gate is shut or no phrase in question has both a
 ratio of 0.65 and as many tokens heard as it has itself; otherwise its phrase qualifies, its score is
 0.65, 0.20 and 0.15 parts of the best ratio, the context heard and the stable hypotheses, and no other
 phrase in question ranks above it (`MatchMeaning`).
 */
module MatchScores {
  import opened Common
  import opened VariantIndex
  import opened Matcher

  // ----- the text of a window -----

  /** A text counts once, and once more for each of the stabilities 2, 4 and 6 it has reached. */
  function Copies(stability: nat): nat {
    if stability < 2 then 1 else if stability < 4 then 2 else if stability < 6 then 3 else 4
  }

  function Repeat(text: string, times: nat): string {
    if times <= 1 then text else text + " " + Repeat(text, times - 1)
  }

  /** The texts with their repetitions, a blank between any two. */
  function Spoken(w: Window): string {
    if w == [] then ""
    else if |w| == 1 then Repeat(w[0].0, Copies(w[0].1))
    else Repeat(w[0].0, Copies(w[0].1)) + " " + Spoken(w[1..])
  }

  lemma {:induction false} JoinRepeated(text: string, times: nat)
    requires times > 0
    ensures Join(seq(times, _ => text)) == Repeat(text, times)
  {
    if times == 1 {
    } else {
      JoinRepeated(text, times - 1);
      assert seq(times, _ => text)[1..] == seq(times - 1, _ => text);
    }
  }

  lemma {:induction false} JoinAppend(a: seq<string>, b: seq<string>)
    requires a != [] && b != []
    ensures Join(a + b) == Join(a) + " " + Join(b)
  {
    if |a| == 1 {
      assert (a + b)[1..] == b;
    } else {
      assert (a + b)[1..] == a[1..] + b;
      JoinAppend(a[1..], b);
    }
  }

  lemma {:induction false} WeightedCons(w: Window)
    requires w != []
    ensures WeightedParts(w) == seq(Copies(w[0].1), _ => w[0].0) + WeightedParts(w[1..])
  {
    var prev, last := w[..|w| - 1], seq(Copies(w[|w| - 1].1), _ => w[|w| - 1].0);
    assert WeightedParts(w) == WeightedParts(prev) + last;
    if |w| == 1 {
      assert prev == [] && w[1..] == [];
    } else {
      WeightedCons(prev);
      assert prev[1..] == w[1..][..|w| - 2];
      assert WeightedParts(w[1..]) == WeightedParts(prev[1..]) + last;
    }
  }

  lemma {:induction false} CombinedIsSpoken(w: Window)
    ensures Join(WeightedParts(w)) == Spoken(w)
  {
    if w == [] {
    } else {
      var first := seq(Copies(w[0].1), _ => w[0].0);
      WeightedCons(w);
      JoinRepeated(w[0].0, Copies(w[0].1));
      CombinedIsSpoken(w[1..]);
      if |w| == 1 {
        assert WeightedParts(w[1..]) == [];
        assert WeightedParts(w) == first;
      } else {
        WeightedCons(w[1..]);
        JoinAppend(first, WeightedParts(w[1..]));
      }
    }
  }

  // ----- the variant heard -----

  /** Is the variant heard in the whole text or in one of the hypotheses? */
  ghost predicate Heard(v: string, text: string, w: Window, f: Foreign) {
    SaidIn(f.lower(text), v) || exists i :: 0 <= i < |w| && SaidIn(f.lower(w[i].0), v)
  }

  lemma OccursIsHeard(v: string, text: string, w: Window, f: Foreign)
    ensures Occurs(v, [text] + Texts(w), f) <==> Heard(v, text, w, f)
  {
    var ts := [text] + Texts(w);
    forall t | t in ts ensures Contains(f.lower(t), v) <==> SaidIn(f.lower(t), v) {
      ContainsIsSaid(f.lower(t), v);
    }
    if i :| 0 <= i < |w| && SaidIn(f.lower(w[i].0), v) { assert ts[i + 1] == w[i].0; }
    assert ts[0] == text;
  }

  /** Entry `k` is heard, none heard is longer, and none heard before it is as long. */
  ghost predicate LongestAt(k: int, variants: seq<string>, text: string, w: Window, f: Foreign) {
    && 0 <= k < |variants| && Heard(variants[k], text, w, f)
    && forall i :: 0 <= i < |variants| && Heard(variants[i], text, w, f) ==>
         |variants[i]| <= |variants[k]| && (i < k ==> |variants[i]| < |variants[k]|)
  }

  /** The first of the longest variants heard, or none. */
  ghost predicate FirstLongest(best: string, variants: seq<string>, text: string, w: Window, f: Foreign) {
    if best == "" then forall i :: 0 <= i < |variants| && Heard(variants[i], text, w, f) ==> variants[i] == ""
    else exists k :: LongestAt(k, variants, text, w, f) && variants[k] == best
  }

  lemma LongestSnoc(best: string, prev: seq<string>, v: string, text: string, w: Window, f: Foreign)
    requires FirstLongest(best, prev, text, w, f)
    ensures FirstLongest(if Heard(v, text, w, f) && |v| > |best| then v else best, prev + [v], text, w, f)
  {
    var all := prev + [v];
    if Heard(v, text, w, f) && |v| > |best| {
      assert LongestAt(|prev|, all, text, w, f);
    } else if best != "" {
      var k :| LongestAt(k, prev, text, w, f) && prev[k] == best;
      assert LongestAt(k, all, text, w, f);
    }
  }

  lemma {:induction false} LongestIsFirst(variants: seq<string>, text: string, w: Window, f: Foreign)
    ensures FirstLongest(LongestOccurring(variants, [text] + Texts(w), f), variants, text, w, f)
  {
    if variants == [] {
    } else {
      var prev, v := variants[..|variants| - 1], variants[|variants| - 1];
      LongestIsFirst(prev, text, w, f);
      OccursIsHeard(v, text, w, f);
      LongestSnoc(LongestOccurring(prev, [text] + Texts(w), f), prev, v, text, w, f);
      assert variants == prev + [v];
    }
  }

  // ----- tokens and shares -----

  function HeardTokens(w: Window, f: Foreign): set<string> {
    set i, t | 0 <= i < |w| && t in f.split(f.lower(w[i].0)) :: t
  }

  function TokensOf(q: string, f: Foreign): set<string> {
    set t | t in f.split(f.lower(q))
  }

  lemma {:induction false} TokensAreHeard(w: Window, f: Foreign)
    ensures AllTokens(Texts(w), f) == HeardTokens(w, f)
  {
    if w == [] {
    } else {
      var prev := w[..|w| - 1];
      TokensAreHeard(prev, f);
      assert Texts(w)[..|w| - 1] == Texts(prev);
    }
  }

  lemma {:induction false} CountInIsCard(words: seq<string>, among: set<string>)
    ensures CountIn(words, among) == |set i | 0 <= i < |words| && words[i] in among|
  {
    if words == [] {
    } else {
      var n, prev := |words| - 1, words[..|words| - 1];
      CountInIsCard(prev, among);
      var before := set i | 0 <= i < n && prev[i] in among;
      assert (set i | 0 <= i < |words| && words[i] in among)
          == before + if words[n] in among then {n} else {};
    }
  }

  lemma {:induction false} CountStableIsCard(w: Window)
    ensures CountStable(w) == |set i | 0 <= i < |w| && w[i].1 >= 2|
  {
    if w == [] {
    } else {
      var n, prev := |w| - 1, w[..|w| - 1];
      CountStableIsCard(prev);
      var before := set i | 0 <= i < n && prev[i].1 >= 2;
      assert (set i | 0 <= i < |w| && w[i].1 >= 2) == before + if w[n].1 >= 2 then {n} else {};
    }
  }

  /** The share of the words before the phrase's last one that are among those of the text; 1 if there are none. */
  function ContextShare(q: string, text: string, f: Foreign): real {
    var words, heard := f.split(q), f.split(f.lower(text));
    if |words| <= 1 then 1.0
    else |set i | 0 <= i < |words| - 1 && words[i] in heard| as real / (|words| - 1) as real
  }

  lemma ContextIsShare(q: string, text: string, f: Foreign)
    ensures ContextScore(text, q, f) == ContextShare(q, text, f)
  {
    var words, heard := f.split(q), f.split(f.lower(text));
    if |words| > 1 {
      var context := words[..|words| - 1];
      CountInIsCard(context, Distinct(heard));
      assert (set i | 0 <= i < |context| && context[i] in Distinct(heard))
          == set i | 0 <= i < |words| - 1 && words[i] in heard;
    }
  }

  /** The share of the hypotheses that were seen for two frames. */
  function StableShare(w: Window): real
    requires w != []
  {
    |set i | 0 <= i < |w| && w[i].1 >= 2| as real / |w| as real
  }

  // ----- scores -----

  /** Is `q` the phrase that the variant stands for when it is looked up? */
  predicate StandsFor(variant: string, q: string, p: Phrases) {
    variant != "" && p.norm(variant) in p.lookup.canon && p.lookup.canon[p.norm(variant)] == q
  }

  predicate InQuestion(q: string, variant: string, p: Phrases) {
    q in p.active || StandsFor(variant, q, p)
  }

  /** The ratios of a phrase: with the whole text, with each hypothesis, and by way of its variant. */
  ghost predicate IsRatio(r: real, q: string, text: string, w: Window, variant: string, p: Phrases, f: Foreign) {
    || r == f.ratio(text, f.lower(q))
    || (exists i :: 0 <= i < |w| && r == f.ratio(w[i].0, f.lower(q)))
    || (StandsFor(variant, q, p) && r == 0.85 * f.ratio(text, variant))
  }

  ghost predicate BestRatio(r: real, q: string, text: string, w: Window, variant: string, p: Phrases, f: Foreign) {
    && IsRatio(r, q, text, w, variant, p, f)
    && forall other :: IsRatio(other, q, text, w, variant, p, f) ==> other <= r
  }

  /** A phrase in question with a ratio of 0.65 and no more tokens than were heard. */
  ghost predicate Qualifies(q: string, r: real, text: string, w: Window, variant: string, p: Phrases, f: Foreign) {
    && InQuestion(q, variant, p) && BestRatio(r, q, text, w, variant, p, f)
    && r >= 0.65 && |HeardTokens(w, f)| >= |TokensOf(q, f)|
  }

  function ScoreAt(q: string, r: real, text: string, w: Window, f: Foreign): real
    requires w != []
  {
    0.65 * r + 0.20 * ContextShare(q, text, f) + 0.15 * StableShare(w)
  }

  /** Of two strings of one length the later in the dictionary. */
  ghost predicate Later(a: string, b: string) {
    exists k :: 0 <= k < |a| && k < |b| && a[..k] == b[..k] && a[k] > b[k]
  }

  /** Ranked by score, then by length, then by spelling. */
  ghost predicate RanksAbove(s: real, q: string, s': real, q': string) {
    s > s' || (s == s' && (|q| > |q'| || (|q| == |q'| && Later(q, q'))))
  }

  lemma {:induction false} LexIsLater(a: string, b: string)
    requires |a| == |b|
    ensures LexLess(a, b) <==> Later(b, a)
  {
    if a == [] {
    } else {
      LexIsLater(a[1..], b[1..]);
      if a[0] < b[0] { assert b[..0] == a[..0]; }
      if LexLess(a, b) && a[0] == b[0] {
        var k :| 0 <= k < |a| - 1 && b[1..][..k] == a[1..][..k] && b[1..][k] > a[1..][k];
        assert b[..k + 1] == [b[0]] + b[1..][..k] && a[..k + 1] == [a[0]] + a[1..][..k];
      }
      if k :| 0 <= k < |b| && b[..k] == a[..k] && b[k] > a[k] && k > 0 {
        assert a[0] == a[..k][0] && b[0] == b[..k][0];
        assert b[1..][..k - 1] == b[..k][1..] && a[1..][..k - 1] == a[..k][1..];
        assert b[1..][k - 1] > a[1..][k - 1];
      }
    }
  }

  lemma BelowIsRanks(a: Candidate, b: Candidate)
    ensures Below(a, b) <==> RanksAbove(b.score, b.phrase, a.score, a.phrase)
  {
    if |a.phrase| == |b.phrase| { LexIsLater(a.phrase, b.phrase); }
  }

  lemma {:induction false} MaxRatioAttained(ts: seq<string>, q: string, f: Foreign)
    requires InRange(f) && ts != []
    ensures exists i :: 0 <= i < |ts| && MaxRatio(ts, q, f) == f.ratio(ts[i], q)
    ensures forall i :: 0 <= i < |ts| ==> f.ratio(ts[i], q) <= MaxRatio(ts, q, f)
  {
    var prev := ts[..|ts| - 1];
    if prev == [] {
      assert MaxRatio(ts, q, f) == f.ratio(ts[0], q);
    } else {
      MaxRatioAttained(prev, q, f);
      var i :| 0 <= i < |prev| && MaxRatio(prev, q, f) == f.ratio(prev[i], q);
      assert ts[i] == prev[i];
      forall j | 0 <= j < |ts| - 1 ensures f.ratio(ts[j], q) <= MaxRatio(prev, q, f) { assert ts[j] == prev[j]; }
    }
  }

  lemma FuzzyIsBest(q: string, text: string, w: Window, variant: string, p: Phrases, f: Foreign)
    requires InRange(f) && w != [] && q != ""
    ensures BestRatio(Fuzzy(q, w, text, variant, CanonicalOf(variant, p), f), q, text, w, variant, p, f)
  {
    MaxRatioAttained(Texts(w), f.lower(q), f);
    assert CanonicalOf(variant, p) == q && variant != "" <==> StandsFor(variant, q, p);
    var i :| 0 <= i < |w| && MaxRatio(Texts(w), f.lower(q), f) == f.ratio(Texts(w)[i], f.lower(q));
    assert Texts(w)[i] == w[i].0;
    assert forall j :: 0 <= j < |w| ==> Texts(w)[j] == w[j].0;
  }

  /** Being scored means to qualify, with that score. */
  lemma ScoreIsQualified(q: string, r: real, text: string, w: Window, variant: string, p: Phrases, f: Foreign)
    requires InRange(f) && w != [] && q != ""
    requires BestRatio(r, q, text, w, variant, p, f)
    ensures var canonical := CanonicalOf(variant, p);
      && (q in Scored(p, canonical) <==> InQuestion(q, variant, p))
      && Score(q, w, text, variant, canonical, f)
         == if r >= 0.65 && |HeardTokens(w, f)| >= |TokensOf(q, f)| then Some(ScoreAt(q, r, text, w, f)) else None
  {
    var canonical := CanonicalOf(variant, p);
    assert Fuzzy(q, w, text, variant, canonical, f) == r by { FuzzyIsBest(q, text, w, variant, p, f); }
    assert AllTokens(Texts(w), f) == HeardTokens(w, f) by { TokensAreHeard(w, f); }
    assert ContextScore(text, q, f) == ContextShare(q, text, f) by { ContextIsShare(q, text, f); }
    assert StabilityScore(w) == StableShare(w) by { CountStableIsCard(w); }
    ScoredIsInQuestion(q, variant, p);
  }

  lemma ScoredIsInQuestion(q: string, variant: string, p: Phrases)
    requires q != ""
    ensures q in Scored(p, CanonicalOf(variant, p)) <==> InQuestion(q, variant, p)
  {
  }

  /** The candidates are exactly the phrases that qualify, with their scores. */
  lemma CandidateQualifies(q: string, r: real, text: string, w: Window, variant: string, p: Phrases, f: Foreign)
    requires InRange(f) && NonEmpty(p) && w != []
    requires Qualifies(q, r, text, w, variant, p, f)
    ensures var canonical := CanonicalOf(variant, p);
      Candidate(ScoreAt(q, r, text, w, f), q) in Candidates(Scored(p, canonical), w, text, variant, canonical, f)
  {
    var canonical := CanonicalOf(variant, p);
    CandidatesExact(Scored(p, canonical), w, text, variant, canonical, f);
    assert q != "";
    ScoreIsQualified(q, r, text, w, variant, p, f);
  }

  lemma CandidateIsQualified(c: Candidate, text: string, w: Window, variant: string, p: Phrases, f: Foreign)
    requires InRange(f) && NonEmpty(p) && w != []
    requires var canonical := CanonicalOf(variant, p);
      c in Candidates(Scored(p, canonical), w, text, variant, canonical, f)
    ensures c.phrase != ""
    ensures exists r :: Qualifies(c.phrase, r, text, w, variant, p, f) && c.score == ScoreAt(c.phrase, r, text, w, f)
  {
    var canonical := CanonicalOf(variant, p);
    CandidatesExact(Scored(p, canonical), w, text, variant, canonical, f);
    assert c.phrase != "";
    FuzzyIsBest(c.phrase, text, w, variant, p, f);
    var r := Fuzzy(c.phrase, w, text, variant, canonical, f);
    ScoreIsQualified(c.phrase, r, text, w, variant, p, f);
    assert Qualifies(c.phrase, r, text, w, variant, p, f);
  }

  // ----- the match -----

  /** A match that is not empty: a phrase that qualifies with this score, and none that ranks above it. */
  ghost predicate Wins(m: Match, text: string, w: Window, p: Phrases, f: Foreign)
    requires w != []
  {
    && (exists r :: Qualifies(m.phrase, r, text, w, m.variant, p, f) && m.score == ScoreAt(m.phrase, r, text, w, f))
    && forall q, r :: q != m.phrase && Qualifies(q, r, text, w, m.variant, p, f) ==>
         RanksAbove(m.score, m.phrase, ScoreAt(q, r, text, w, f), q)
  }

  ghost predicate NoneQualifies(variant: string, text: string, w: Window, p: Phrases, f: Foreign) {
    forall q, r :: !Qualifies(q, r, text, w, variant, p, f)
  }

  ghost predicate Means(m: Match, text: string, w: Window, p: Phrases, f: Foreign) {
    if w == [] || p.active == [] || !f.anchored(text, p.anchors) then m == Match(0.0, "", "")
    else
      && FirstLongest(m.variant, p.index.variants, text, w, f)
      && if m.phrase == "" then m.score == 0.0 && NoneQualifies(m.variant, text, w, p, f)
         else Wins(m, text, w, p, f)
  }

  lemma WinnerWins(cs: seq<Candidate>, m: Match, text: string, w: Window, p: Phrases, f: Foreign)
    requires InRange(f) && NonEmpty(p) && w != []
    requires var canonical := CanonicalOf(m.variant, p);
      cs == Candidates(Scored(p, canonical), w, text, m.variant, canonical, f)
    requires cs != [] && Candidate(m.score, m.phrase) == Pick(cs)
    ensures m.phrase != "" && Wins(m, text, w, p, f)
  {
    var top := Pick(cs);
    TopIsTop(cs[0], cs[1..]);
    assert top in cs;
    CandidateIsQualified(top, text, w, m.variant, p, f);
    forall q, r | q != m.phrase && Qualifies(q, r, text, w, m.variant, p, f)
      ensures RanksAbove(m.score, m.phrase, ScoreAt(q, r, text, w, f), q)
    {
      var c := Candidate(ScoreAt(q, r, text, w, f), q);
      CandidateQualifies(q, r, text, w, m.variant, p, f);
      assert c == cs[0] || c in cs[1..];
      BelowIsRanks(c, top);
    }
  }

  lemma EmptyMeansNone(variant: string, text: string, w: Window, p: Phrases, f: Foreign)
    requires InRange(f) && NonEmpty(p) && w != []
    requires var canonical := CanonicalOf(variant, p);
      Candidates(Scored(p, canonical), w, text, variant, canonical, f) == []
    ensures NoneQualifies(variant, text, w, p, f)
  {
    forall q, r ensures !Qualifies(q, r, text, w, variant, p, f) {
      if Qualifies(q, r, text, w, variant, p, f) { CandidateQualifies(q, r, text, w, variant, p, f); }
    }
  }

  /** The meaning of every match, over the lower-cased text of the window. */
  lemma MatchMeaning(w: Window, p: Phrases, f: Foreign)
    requires InRange(f) && NonEmpty(p)
    ensures Means(BestMatch(w, p, f), f.lower(Spoken(w)), w, p, f)
  {
    CombinedIsSpoken(w);
    var text, m := f.lower(Spoken(w)), BestMatch(w, p, f);
    if w != [] && p.active != [] && f.anchored(text, p.anchors) {
      LongestIsFirst(p.index.variants, text, w, f);
      var canonical := CanonicalOf(m.variant, p);
      var cs := Candidates(Scored(p, canonical), w, text, m.variant, canonical, f);
      if cs == [] {
        EmptyMeansNone(m.variant, text, w, p, f);
      } else {
        WinnerWins(cs, m, text, w, p, f);
      }
    }
  }

  /** Behind an open gate there is a match as soon as a phrase in question has any ratio and tokens enough. */
  lemma GoodRatioMatches(q: string, r: real, w: Window, p: Phrases, f: Foreign)
    requires InRange(f) && NonEmpty(p) && w != [] && p.active != []
    requires var text, variant := f.lower(Spoken(w)), BestMatch(w, p, f).variant;
      && f.anchored(text, p.anchors) && InQuestion(q, variant, p)
      && IsRatio(r, q, text, w, variant, p, f) && r >= 0.65 && |HeardTokens(w, f)| >= |TokensOf(q, f)|
    ensures BestMatch(w, p, f).phrase != ""
  {
    var text, variant := f.lower(Spoken(w)), BestMatch(w, p, f).variant;
    MatchMeaning(w, p, f);
    assert q != "";
    FuzzyIsBest(q, text, w, variant, p, f);
    var best := Fuzzy(q, w, text, variant, CanonicalOf(variant, p), f);
    assert Qualifies(q, best, text, w, variant, p, f);
  }
}
