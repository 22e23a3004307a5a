/**
 The phrase registry and the index from variants to canonical phrases.

 `norm` stands for stripping and lower-casing a string; all that is used of it is that doing it twice
 changes nothing more.
 */
module VariantIndex {
  import opened Common

  const DEFAULT_COOLDOWN_MS := 2000

  type Normaliser = string -> string

  ghost predicate Idempotent(norm: Normaliser) {
    forall s :: norm(norm(s)) == norm(s)
  }

  /** A phrase entry of a profile; every key may be absent. */
  datatype PhraseData = PhraseData(
    phraseId: Option<string>, phrase: Option<string>, variants: Option<seq<string>>,
    threshold: Option<real>, cooldownMs: Option<int>, enabled: Option<bool>, weight: Option<real>)

  /** The descriptor built from an entry. */
  datatype PhraseConfig = PhraseConfig(
    phraseId: string, phrase: string, variants: seq<string>,
    threshold: real, cooldownMs: int, enabled: bool, weight: real)

  datatype Result<+T> = Ok(value: T) | Invalid

  /** Normalised, without blanks, each variant once, in the order of first appearance. */
  function Clean(raw: seq<string>, norm: Normaliser): seq<string> {
    if raw == [] then []
    else
      var done := Clean(raw[..|raw| - 1], norm);
      var v := norm(raw[|raw| - 1]);
      if v == "" || v in done then done else done + [v]
  }

  predicate Acceptable(c: PhraseConfig) {
    c.phraseId != "" && c.phrase != "" && 0.0 < c.threshold <= 1.0 && c.cooldownMs >= 0
  }

  function OrElse<T>(o: Option<T>, default: T): T {
    if o.Some? then o.value else default
  }

  /** The descriptor, if id, phrase and threshold are given; the other keys have defaults. */
  function Described(d: PhraseData, norm: Normaliser): Option<PhraseConfig> {
    if d.phraseId.None? || d.phrase.None? || d.threshold.None? then None
    else Some(PhraseConfig(d.phraseId.value, norm(d.phrase.value),
                           Clean(OrElse(d.variants, []), norm), d.threshold.value,
                           OrElse(d.cooldownMs, DEFAULT_COOLDOWN_MS), OrElse(d.enabled, true), OrElse(d.weight, 1.0)))
  }

  /** Neither a key nor a value of the entry makes `from_dict` raise. */
  predicate Accepted(d: PhraseData, norm: Normaliser) {
    Described(d, norm).Some? && Acceptable(Described(d, norm).value)
  }

  ghost predicate NoDuplicates(vs: seq<string>) {
    forall i, j :: 0 <= i < j < |vs| ==> vs[i] != vs[j]
  }

  /** Cleaning loses no variant, invents none and keeps each once; cleaning again changes nothing. */
  lemma {:induction false} CleanVariants(raw: seq<string>, norm: Normaliser)
    ensures NoDuplicates(Clean(raw, norm))
    ensures forall v :: v in Clean(raw, norm) <==> v != "" && exists r :: r in raw && norm(r) == v
  {
    if raw == [] {
    } else {
      var prev, last := raw[..|raw| - 1], raw[|raw| - 1];
      CleanVariants(prev, norm);
      assert forall r :: r in raw <==> r in prev || r == last;
    }
  }

  /** `PhraseConfig.from_dict`. */
  method FromDict(d: PhraseData, norm: Normaliser) returns (r: Result<PhraseConfig>)
    ensures r == if Accepted(d, norm) then Ok(Described(d, norm).value) else Invalid
  {
    var raw := OrElse(d.variants, []);
    var clean: seq<string>, seen: set<string> := [], {};
    for i := 0 to |raw|
      invariant clean == Clean(raw[..i], norm)
      invariant forall v :: v in seen <==> v in clean
    {
      assert raw[..i + 1][..i] == raw[..i];
      var v := norm(raw[i]);
      if v != "" && v !in seen {
        seen := seen + {v};
        clean := clean + [v];
      }
    }
    assert raw[..|raw|] == raw;
    if d.phraseId.None? || d.phrase.None? || d.threshold.None? { return Invalid; }
    var c := PhraseConfig(d.phraseId.value, norm(d.phrase.value), clean, d.threshold.value,
                          OrElse(d.cooldownMs, DEFAULT_COOLDOWN_MS), OrElse(d.enabled, true), OrElse(d.weight, 1.0));
    r := if Acceptable(c) then Ok(c) else Invalid;
  }

  // ----- the registry: a dictionary by phrase id, in insertion order -----

  ghost predicate DistinctIds(ps: seq<PhraseConfig>) {
    forall i, j :: 0 <= i < j < |ps| ==> ps[i].phraseId != ps[j].phraseId
  }

  /** Adding under a known id replaces in place; the position in the order stays. */
  function Add(ps: seq<PhraseConfig>, c: PhraseConfig): seq<PhraseConfig> {
    if ps == [] then [c]
    else if ps[0].phraseId == c.phraseId then [c] + ps[1..]
    else [ps[0]] + Add(ps[1..], c)
  }

  function AddAll(ps: seq<PhraseConfig>, cs: seq<PhraseConfig>): seq<PhraseConfig> {
    if cs == [] then ps else Add(AddAll(ps, cs[..|cs| - 1]), cs[|cs| - 1])
  }

  lemma {:induction false} AddElements(ps: seq<PhraseConfig>, c: PhraseConfig)
    requires DistinctIds(ps)
    ensures DistinctIds(Add(ps, c))
    ensures forall x :: x in Add(ps, c) <==> x == c || (x in ps && x.phraseId != c.phraseId)
  {
    if ps == [] {
    } else {
      assert forall x :: x in ps <==> x == ps[0] || x in ps[1..];
      if ps[0].phraseId != c.phraseId {
        AddElements(ps[1..], c);
        var r := Add(ps[1..], c);
        forall i | 0 <= i < |r| ensures r[i].phraseId != ps[0].phraseId { assert r[i] in r; }
        assert forall x :: x in Add(ps, c) <==> x == ps[0] || x in r;
      } else {
        assert forall x :: x in Add(ps, c) <==> x == c || x in ps[1..];
      }
    }
  }

  /** Position `i` holds `x`, and no later entry has its id. */
  ghost predicate LastUnderId(cs: seq<PhraseConfig>, x: PhraseConfig, i: nat) {
    i < |cs| && cs[i] == x && forall j :: i < j < |cs| ==> cs[j].phraseId != x.phraseId
  }

  lemma LastUnderIdSnoc(cs: seq<PhraseConfig>, c: PhraseConfig, x: PhraseConfig)
    ensures (exists i :: LastUnderId(cs + [c], x, i))
       <==> x == c || (x.phraseId != c.phraseId && exists i :: LastUnderId(cs, x, i))
  {
    var all := cs + [c];
    if x == c {
      assert LastUnderId(all, x, |cs|);
    } else {
      if i: nat :| LastUnderId(all, x, i) {
        assert all[|cs|] == c;
        assert LastUnderId(cs, x, i) by {
          forall j | i < j < |cs| ensures cs[j].phraseId != x.phraseId { assert all[j] == cs[j]; }
        }
      }
      if i: nat :| x.phraseId != c.phraseId && LastUnderId(cs, x, i) {
        assert LastUnderId(all, x, i);
      }
    }
  }

  /** Loading a list of phrases keeps, for each id, the last phrase listed under it. */
  lemma {:induction false} AddAllKeepsLast(cs: seq<PhraseConfig>)
    ensures DistinctIds(AddAll([], cs))
    ensures forall x :: x in AddAll([], cs) <==> exists i :: LastUnderId(cs, x, i)
  {
    if cs == [] {
    } else {
      var prev, c := cs[..|cs| - 1], cs[|cs| - 1];
      AddAllKeepsLast(prev);
      AddElements(AddAll([], prev), c);
      assert cs == prev + [c];
      forall x ensures x in AddAll([], cs) <==> exists i :: LastUnderId(cs, x, i) {
        LastUnderIdSnoc(prev, c, x);
      }
    }
  }

  // ----- the index -----

  predicate Lists(c: PhraseConfig, key: string, norm: Normaliser) {
    key != "" && exists v :: v in c.variants && norm(v) == key
  }

  /** The canonical phrase of a variant: that of the last phrase in registry order that lists it. */
  function LastListing(ps: seq<PhraseConfig>, key: string, norm: Normaliser): Option<string> {
    if ps == [] then None
    else if Lists(ps[|ps| - 1], key, norm) then Some(ps[|ps| - 1].phrase)
    else LastListing(ps[..|ps| - 1], key, norm)
  }

  /** The last phrase in registry order with a given text. */
  function LastWithPhrase(ps: seq<PhraseConfig>, phrase: string): Option<PhraseConfig> {
    if ps == [] then None
    else if ps[|ps| - 1].phrase == phrase then Some(ps[|ps| - 1])
    else LastWithPhrase(ps[..|ps| - 1], phrase)
  }

  /** The variants, the canonical phrase of each, and the entry of each canonical phrase. */
  datatype Index = Index(variants: seq<string>, canon: map<string, string>, entries: map<string, PhraseConfig>)

  const EmptyIndex := Index([], map[], map[])

  ghost predicate IndexesEntries(entries: map<string, PhraseConfig>, ps: seq<PhraseConfig>) {
    && (forall phrase :: phrase in entries <==> LastWithPhrase(ps, phrase).Some?)
    && (forall phrase :: phrase in entries ==> LastWithPhrase(ps, phrase) == Some(entries[phrase]))
  }

  ghost predicate Indexes(ix: Index, ps: seq<PhraseConfig>, norm: Normaliser) {
    && NoDuplicates(ix.variants)
    && (forall key :: key in ix.variants <==> key in ix.canon)
    && (forall key :: key in ix.canon <==> LastListing(ps, key, norm).Some?)
    && (forall key :: key in ix.canon ==> LastListing(ps, key, norm) == Some(ix.canon[key]))
    && IndexesEntries(ix.entries, ps)
  }

  /** The index while the variants of the next phrase are being added. */
  ghost predicate PartlyIndexes(ix: Index, ps: seq<PhraseConfig>, c: PhraseConfig, i: nat, norm: Normaliser)
    requires i <= |c.variants|
  {
    && NoDuplicates(ix.variants)
    && (forall key :: key in ix.variants <==> key in ix.canon)
    && (forall key :: key in ix.canon <==>
          Lists(c.(variants := c.variants[..i]), key, norm) || LastListing(ps, key, norm).Some?)
    && (forall key :: key in ix.canon ==>
          Some(ix.canon[key]) == if Lists(c.(variants := c.variants[..i]), key, norm) then Some(c.phrase)
                                 else LastListing(ps, key, norm))
  }

  lemma ListsSnoc(c: PhraseConfig, i: nat, norm: Normaliser)
    requires i < |c.variants|
    ensures forall key ::
      Lists(c.(variants := c.variants[..i + 1]), key, norm)
      <==> Lists(c.(variants := c.variants[..i]), key, norm) || (key == norm(c.variants[i]) && key != "")
  {
    var shorter, longer := c.(variants := c.variants[..i]), c.(variants := c.variants[..i + 1]);
    assert longer.variants == shorter.variants + [c.variants[i]];
    forall key
      ensures Lists(longer, key, norm) <==> Lists(shorter, key, norm) || (key == norm(c.variants[i]) && key != "")
    {
      assert forall v :: v in longer.variants <==> v in shorter.variants || v == c.variants[i];
    }
  }

  /** With all variants of the next phrase added the index is that of one phrase more. */
  lemma CompletesIndex(
      ix: Index, entries: map<string, PhraseConfig>, ps: seq<PhraseConfig>, c: PhraseConfig, norm: Normaliser)
    requires PartlyIndexes(ix, ps, c, |c.variants|, norm)
    requires IndexesEntries(entries, ps) && ix.entries == entries[c.phrase := c]
    ensures Indexes(ix, ps + [c], norm)
  {
    assert c.(variants := c.variants[..|c.variants|]) == c;
    assert (ps + [c])[..|ps|] == ps;
  }

  /** The variants of all phrases, in registry order. */
  function AllVariants(ps: seq<PhraseConfig>): seq<string> {
    if ps == [] then [] else AllVariants(ps[..|ps| - 1]) + ps[|ps| - 1].variants
  }

  /** The variants of the index come in the order of their first listing. */
  ghost predicate InOrder(ix: Index, ps: seq<PhraseConfig>, norm: Normaliser) {
    ix.variants == Clean(AllVariants(ps), norm)
  }

  function CleanStep(done: seq<string>, v: string, norm: Normaliser): seq<string> {
    if norm(v) == "" || norm(v) in done then done else done + [norm(v)]
  }

  lemma CleanSnoc(raw: seq<string>, v: string, norm: Normaliser)
    ensures Clean(raw + [v], norm) == CleanStep(Clean(raw, norm), v, norm)
  {
    assert (raw + [v])[..|raw|] == raw;
  }

  lemma CleanNext(before: seq<string>, vs: seq<string>, i: nat, norm: Normaliser)
    requires i < |vs|
    ensures Clean(before + vs[..i + 1], norm) == CleanStep(Clean(before + vs[..i], norm), vs[i], norm)
  {
    assert before + vs[..i + 1] == before + vs[..i] + [vs[i]];
    CleanSnoc(before + vs[..i], vs[i], norm);
  }

  lemma CompletesOrder(ix: Index, ps: seq<PhraseConfig>, c: PhraseConfig, norm: Normaliser)
    requires ix.variants == Clean(AllVariants(ps) + c.variants[..|c.variants|], norm)
    ensures InOrder(ix, ps + [c], norm)
  {
    AllVariantsSnoc(ps, c);
    assert c.variants[..|c.variants|] == c.variants;
  }

  lemma AllVariantsSnoc(ps: seq<PhraseConfig>, c: PhraseConfig)
    ensures AllVariants(ps + [c]) == AllVariants(ps) + c.variants
  {
    assert (ps + [c])[..|ps|] == ps;
  }

  /** The next variant of the phrase being added. */
  method AddVariant(
      variants: seq<string>, canon: map<string, string>, entries: map<string, PhraseConfig>,
      ghost ps: seq<PhraseConfig>, c: PhraseConfig, i: nat, norm: Normaliser)
    returns (variants': seq<string>, canon': map<string, string>)
    requires i < |c.variants| && PartlyIndexes(Index(variants, canon, entries), ps, c, i, norm)
    ensures PartlyIndexes(Index(variants', canon', entries), ps, c, i + 1, norm)
    ensures variants' == CleanStep(variants, c.variants[i], norm)
  {
    variants', canon' := variants, canon;
    var key := norm(c.variants[i]);
    ListsSnoc(c, i, norm);
    if key != "" {
      if key !in canon {
        variants' := variants + [key];
      }
      canon' := canon[key := c.phrase];
    }
  }

  method AddVariants(ix: Index, ghost ps: seq<PhraseConfig>, c: PhraseConfig, norm: Normaliser) returns (r: Index)
    requires Indexes(ix, ps, norm) && InOrder(ix, ps, norm)
    ensures Indexes(r, ps + [c], norm) && InOrder(r, ps + [c], norm)
  {
    var variants, canon, entries := ix.variants, ix.canon, ix.entries[c.phrase := c];
    ghost var before := AllVariants(ps);
    assert before + c.variants[..0] == before;
    for i := 0 to |c.variants|
      invariant PartlyIndexes(Index(variants, canon, entries), ps, c, i, norm)
      invariant variants == Clean(before + c.variants[..i], norm)
    {
      CleanNext(before, c.variants, i, norm);
      variants, canon := AddVariant(variants, canon, entries, ps, c, i, norm);
    }
    r := Index(variants, canon, entries);
    CompletesOrder(r, ps, c, norm);
    CompletesIndex(r, ix.entries, ps, c, norm);
  }

  /** `_build_index_from_registry`. */
  method BuildIndex(ps: seq<PhraseConfig>, norm: Normaliser) returns (ix: Index)
    ensures Indexes(ix, ps, norm) && InOrder(ix, ps, norm)
  {
    ix := EmptyIndex;
    for i := 0 to |ps|
      invariant Indexes(ix, ps[..i], norm) && InOrder(ix, ps[..i], norm)
    {
      assert ps[..i] + [ps[i]] == ps[..i + 1];
      ix := AddVariants(ix, ps[..i], ps[i], norm);
    }
    assert ps[..|ps|] == ps;
  }

  /** `get_canonical`. */
  function Canonical(ix: Index, variant: string, norm: Normaliser): Option<string> {
    if norm(variant) in ix.canon then Some(ix.canon[norm(variant)]) else None
  }

  lemma {:induction false} ListedIsNormal(ps: seq<PhraseConfig>, key: string, norm: Normaliser)
    requires Idempotent(norm) && LastListing(ps, key, norm).Some?
    ensures norm(key) == key && key != ""
    ensures exists c :: c in ps && Lists(c, key, norm) && LastListing(ps, key, norm) == Some(c.phrase)
  {
    if Lists(ps[|ps| - 1], key, norm) {
      var v :| v in ps[|ps| - 1].variants && norm(v) == key;
      assert norm(norm(v)) == norm(v);
      assert ps[|ps| - 1] in ps;
    } else {
      ListedIsNormal(ps[..|ps| - 1], key, norm);
    }
  }

  lemma IndexedIsNormal(ix: Index, ps: seq<PhraseConfig>, v: string, norm: Normaliser)
    requires Idempotent(norm) && Indexes(ix, ps, norm) && v in ix.variants
    ensures norm(v) == v && v in ix.canon
  {
    ListedIsNormal(ps, v, norm);
  }

  /** Every variant the matcher can pick has a canonical phrase: that of the last phrase listing it. */
  lemma VariantHasCanonical(ix: Index, ps: seq<PhraseConfig>, v: string, norm: Normaliser)
    requires Idempotent(norm) && Indexes(ix, ps, norm) && v in ix.variants
    ensures Canonical(ix, v, norm).Some?
    ensures Canonical(ix, v, norm) == LastListing(ps, v, norm)
    ensures exists c :: c in ps && Lists(c, v, norm) && Canonical(ix, v, norm) == Some(c.phrase)
  {
    ListedIsNormal(ps, v, norm);
  }

  /** A canonical phrase is the phrase of some indexed descriptor. */
  lemma {:induction false} CanonicalIsListed(ps: seq<PhraseConfig>, key: string, norm: Normaliser)
    requires LastListing(ps, key, norm).Some?
    ensures exists c :: c in ps && LastListing(ps, key, norm) == Some(c.phrase)
  {
    if Lists(ps[|ps| - 1], key, norm) {
      assert ps[|ps| - 1] in ps;
    } else {
      CanonicalIsListed(ps[..|ps| - 1], key, norm);
    }
  }

  // ----- loading a profile -----

  predicate AllAccepted(ds: seq<PhraseData>, norm: Normaliser) {
    forall i :: 0 <= i < |ds| ==> Accepted(ds[i], norm)
  }

  function DescribedAll(ds: seq<PhraseData>, norm: Normaliser): (cs: seq<PhraseConfig>)
    requires AllAccepted(ds, norm)
    ensures |cs| == |ds|
    ensures forall i :: 0 <= i < |ds| ==> cs[i] == Described(ds[i], norm).value
  {
    seq(|ds|, i requires 0 <= i < |ds| => Described(ds[i], norm).value)
  }

  /** The phrases of the active profile, which the configuration report shows, and those in the registry. */
  datatype Setup = Setup(active: seq<PhraseData>, phrases: seq<PhraseConfig>)

  /** `load_profile`: the active profile is replaced before its phrases are checked. */
  function Loaded(s: Setup, ds: seq<PhraseData>, norm: Normaliser): Setup {
    Setup(ds, if AllAccepted(ds, norm) then AddAll([], DescribedAll(ds, norm)) else s.phrases)
  }

  /** Entry `i` is described by `c`, and no later entry is described under the same id. */
  ghost predicate LastDescribed(ds: seq<PhraseData>, c: PhraseConfig, i: nat, norm: Normaliser) {
    && i < |ds| && Described(ds[i], norm) == Some(c)
    && forall j :: i < j < |ds| && Described(ds[j], norm).Some? ==> Described(ds[j], norm).value.phraseId != c.phraseId
  }

  /**
   The registry holds what the active profile describes: every entry has a descriptor, and the phrases
   registered are those of the last entry under each id.
   */
  ghost predicate Agree(s: Setup, norm: Normaliser) {
    && (forall i :: 0 <= i < |s.active| ==> Described(s.active[i], norm).Some?)
    && DistinctIds(s.phrases)
    && forall c :: c in s.phrases <==> exists i :: LastDescribed(s.active, c, i, norm)
  }

  lemma LastDescribedIsLast(ds: seq<PhraseData>, c: PhraseConfig, i: nat, norm: Normaliser)
    requires AllAccepted(ds, norm)
    ensures LastDescribed(ds, c, i, norm) <==> LastUnderId(DescribedAll(ds, norm), c, i)
  {
    var cs := DescribedAll(ds, norm);
    assert forall j :: 0 <= j < |ds| ==> Described(ds[j], norm) == Some(cs[j]);
  }

  /** A good profile is loaded as it describes itself. */
  lemma AcceptedAgrees(ds: seq<PhraseData>, norm: Normaliser)
    requires AllAccepted(ds, norm)
    ensures Agree(Setup(ds, AddAll([], DescribedAll(ds, norm))), norm)
  {
    var cs := DescribedAll(ds, norm);
    AddAllKeepsLast(cs);
    assert forall i :: 0 <= i < |ds| ==> Accepted(ds[i], norm);
    forall c ensures c in AddAll([], cs) <==> exists i :: LastDescribed(ds, c, i, norm) {
      forall i: nat ensures LastDescribed(ds, c, i, norm) <==> LastUnderId(cs, c, i) {
        LastDescribedIsLast(ds, c, i, norm);
      }
    }
  }

  /**
   Active profile and registry agree after a load exactly when every entry was accepted, or the registry
   happened to hold already what the rejected profile describes.
   */
  lemma LoadAgreesIff(s: Setup, ds: seq<PhraseData>, norm: Normaliser)
    ensures Agree(Loaded(s, ds, norm), norm) <==> AllAccepted(ds, norm) || Agree(Setup(ds, s.phrases), norm)
  {
    if AllAccepted(ds, norm) { AcceptedAgrees(ds, norm); }
  }

  /** An entry without a threshold: the report shows its phrase, the matcher keeps listening for the old one. */
  lemma BadEntryDiverges(old': PhraseConfig, norm: Normaliser)
    ensures var bad := PhraseData(Some("b"), Some("hello"), None, None, None, None, None);
      var s := Loaded(Setup([], [old']), [bad], norm);
      s.active == [bad] && s.phrases == [old'] && !Agree(s, norm)
  {
    var bad := PhraseData(Some("b"), Some("hello"), None, None, None, None, None);
    assert Described([bad][0], norm) == None;
    assert !Accepted([bad][0], norm);
  }

  /** A rejected profile whose bad entry is superseded by the phrase that is registered anyway. */
  lemma RejectedLoadCanAgree(norm: Normaliser)
    requires norm("hello") != ""
    ensures var good := PhraseData(Some("b"), Some("hello"), None, Some(0.5), None, None, None);
      var bad := good.(threshold := Some(2.0));
      var before := Loaded(Setup([], []), [good], norm);
      !AllAccepted([bad, good], norm) && Agree(Loaded(before, [bad, good], norm), norm)
  {
    var good := PhraseData(Some("b"), Some("hello"), None, Some(0.5), None, None, None);
    var bad := good.(threshold := Some(2.0));
    var ds, c := [bad, good], Described(good, norm).value;
    assert Acceptable(c) && !Accepted(ds[0], norm);
    var before := Loaded(Setup([], []), [good], norm);
    assert before.phrases == [c] by {
      assert DescribedAll([good], norm) == [c];
      assert [c][..0] == [] && AddAll([], [c]) == Add(AddAll([], []), c);
    }
    assert LastDescribed(ds, c, 1, norm);
    assert Described(ds[1], norm) == Some(c);
    assert forall x :: !LastDescribed(ds, x, 0, norm);
  }

  /** Describes every entry, or reports that one of them is unacceptable. */
  method DescribeAll(entries: seq<PhraseData>, norm: Normaliser) returns (r: Result<seq<PhraseConfig>>)
    ensures r.Ok? <==> AllAccepted(entries, norm)
    ensures r.Ok? ==> r.value == DescribedAll(entries, norm)
  {
    var cs := [];
    for i := 0 to |entries|
      invariant |cs| == i
      invariant forall j :: 0 <= j < i ==> Accepted(entries[j], norm) && cs[j] == Described(entries[j], norm).value
    {
      var c := FromDict(entries[i], norm);
      if c.Invalid? { return Invalid; }
      cs := cs + [c.value];
    }
    r := Ok(cs);
  }

  /** The engine's active profile with the registry and the index it loads. */
  class Registry {
    const norm: Normaliser
    var activeProfile: seq<PhraseData>
    var phrases: seq<PhraseConfig>
    var index: Index

    ghost predicate Valid()
      reads this
    {
      && DistinctIds(phrases)
      && (forall p :: p in phrases ==> Acceptable(p))
      && Indexes(index, phrases, norm) && InOrder(index, phrases, norm)
    }

    ghost function Value(): Setup
      reads this
    {
      Setup(activeProfile, phrases)
    }

    constructor (norm: Normaliser)
      ensures this.norm == norm && Valid() && Value() == Setup([], [])
    {
      this.norm := norm;
      activeProfile, phrases, index := [], [], EmptyIndex;
    }

    method AddPhrase(c: PhraseConfig)
      modifies this`phrases
      ensures phrases == Add(old(phrases), c)
    {
      var i := 0;
      while i < |phrases| && phrases[i].phraseId != c.phraseId
        invariant 0 <= i <= |phrases|
        invariant phrases == old(phrases)
        invariant forall k :: 0 <= k < i ==> phrases[k].phraseId != c.phraseId
      {
        i := i + 1;
      }
      AddAt(phrases, c, i);
      phrases := if i < |phrases| then phrases[i := c] else phrases + [c];
    }

    /**
     `load_profile`: a bad profile leaves registry and index as they were, but has become the active
     profile; a good one replaces all three.
     */
    method LoadProfile(entries: seq<PhraseData>) returns (ok: bool)
      requires Valid()
      modifies this
      ensures Valid()
      ensures Value() == Loaded(old(Value()), entries, norm)
      ensures ok <==> AllAccepted(entries, norm)
      ensures !ok ==> index == old(index)
    {
      activeProfile := entries;
      var described := DescribeAll(entries, norm);
      if described.Invalid? {
        return false;
      }
      ReplaceAll(described.value);
      AddAllKeepsLast(described.value);
      forall p | p in phrases ensures Acceptable(p) {
        var i :| LastUnderId(described.value, p, i);
      }
      index := BuildIndex(phrases, norm);
      ok := true;
    }

    method ReplaceAll(cs: seq<PhraseConfig>)
      modifies this`phrases
      ensures phrases == AddAll([], cs)
    {
      phrases := [];
      for i := 0 to |cs|
        invariant phrases == AddAll([], cs[..i])
      {
        assert cs[..i + 1][..i] == cs[..i];
        AddPhrase(cs[i]);
      }
      assert cs[..|cs|] == cs;
    }

    /** `get_active`. */
    method ActivePhrases() returns (active: seq<string>)
      ensures active == Active(phrases)
    {
      active := [];
      for i := 0 to |phrases|
        invariant active == Active(phrases[..i])
      {
        assert phrases[..i + 1][..i] == phrases[..i];
        if phrases[i].enabled { active := active + [phrases[i].phrase]; }
      }
      assert phrases[..|phrases|] == phrases;
    }
  }

  // ----- what a profile's entries mean -----

  ghost predicate FirstSeen(at: nat, raw: seq<string>, v: string, norm: Normaliser) {
    at < |raw| && norm(raw[at]) == v && forall j :: 0 <= j < at ==> norm(raw[j]) != v
  }

  /** Cleaning keeps the order of first appearance. */
  lemma {:induction false} CleanInOrder(raw: seq<string>, norm: Normaliser) returns (at: seq<nat>)
    ensures |at| == |Clean(raw, norm)| && forall i :: 0 <= i < |at| ==> FirstSeen(at[i], raw, Clean(raw, norm)[i], norm)
    ensures forall i, j :: 0 <= i < j < |at| ==> at[i] < at[j]
  {
    if raw == [] {
      at := [];
    } else {
      var n, prev := |raw| - 1, raw[..|raw| - 1];
      var v, done := norm(raw[n]), Clean(prev, norm);
      at := CleanInOrder(prev, norm);
      forall i | 0 <= i < |at| ensures FirstSeen(at[i], raw, done[i], norm) {
        assert FirstSeen(at[i], prev, done[i], norm);
        assert raw[at[i]] == prev[at[i]];
      }
      if v != "" && v !in done {
        CleanVariants(prev, norm);
        forall j | 0 <= j < n ensures norm(raw[j]) != v { assert raw[j] == prev[j] && prev[j] in prev; }
        assert FirstSeen(n, raw, v, norm);
        at := at + [n];
      }
    }
  }

  /** Which entries are accepted. */
  ghost predicate WellFormed(d: PhraseData, norm: Normaliser) {
    && (exists id :: d.phraseId == Some(id) && id != "")
    && (exists phrase :: d.phrase == Some(phrase) && norm(phrase) != "")
    && (exists x :: d.threshold == Some(x) && 0.0 < x <= 1.0)
    && (forall ms :: d.cooldownMs == Some(ms) ==> ms >= 0)
  }

  /** `given` is taken over; without it the default holds. */
  predicate Defaulted<T(==)>(given: Option<T>, default: T, x: T) {
    given == Some(x) || (given == None && x == default)
  }

  /** An accepted entry: its values, and the defaults 2000 ms, enabled, weight 1 and no variants. */
  lemma AcceptedEntry(d: PhraseData, norm: Normaliser)
    ensures Accepted(d, norm) <==> WellFormed(d, norm)
    ensures Accepted(d, norm) ==>
      var c := Described(d, norm).value;
      && d.phraseId == Some(c.phraseId) && d.threshold == Some(c.threshold)
      && (forall phrase :: d.phrase == Some(phrase) ==> c.phrase == norm(phrase))
      && Defaulted(d.cooldownMs, 2000, c.cooldownMs) && Defaulted(d.enabled, true, c.enabled)
      && Defaulted(d.weight, 1.0, c.weight)
      && (forall vs :: d.variants == Some(vs) ==> c.variants == Clean(vs, norm))
      && (d.variants == None ==> c.variants == [])
  {
    if d.phraseId.Some? && d.phrase.Some? && d.threshold.Some? {
      assert d.phraseId == Some(d.phraseId.value) && d.phrase == Some(d.phrase.value);
      assert d.threshold == Some(d.threshold.value);
    }
  }

  /** Every enabled phrase is active, once for each entry and in registry order; no other is. */
  lemma {:induction false} ActiveIsEnabled(before: seq<PhraseConfig>, c: PhraseConfig, after: seq<PhraseConfig>)
    ensures Active([]) == []
    ensures Active(before + [c] + after)
         == Active(before) + (if c.enabled then [c.phrase] else []) + Active(after)
    decreases |after|
  {
    var all := before + [c] + after;
    if after == [] {
      assert all == before + [c] && all[..|before|] == before;
    } else {
      var n := |after| - 1;
      ActiveIsEnabled(before, c, after[..n]);
      assert all[..|all| - 1] == before + [c] + after[..n];
      assert all[|all| - 1] == after[n];
    }
  }

  function Active(ps: seq<PhraseConfig>): seq<string> {
    if ps == [] then []
    else Active(ps[..|ps| - 1]) + (if ps[|ps| - 1].enabled then [ps[|ps| - 1].phrase] else [])
  }

  lemma {:induction false} AddAt(ps: seq<PhraseConfig>, c: PhraseConfig, i: nat)
    requires i <= |ps| && forall k :: 0 <= k < i ==> ps[k].phraseId != c.phraseId
    requires i < |ps| ==> ps[i].phraseId == c.phraseId
    ensures Add(ps, c) == if i < |ps| then ps[i := c] else ps + [c]
  {
    if i == 0 {
      assert ps == [] || [c] + ps[1..] == ps[0 := c];
    } else {
      AddAt(ps[1..], c, i - 1);
      assert Add(ps, c) == [ps[0]] + Add(ps[1..], c);
      assert ps == [ps[0]] + ps[1..];
    }
  }
}
