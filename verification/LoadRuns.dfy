/**
 Profile loads interleaved with matching. A load holds the registry's lock while it clears the registry,
 adds the phrases one by one and swaps in a new index; the index has a lock of its own, which is held for
 the swap alone. The matcher takes a snapshot of the registry under the registry's lock and then reads
 the index three times, and a load may take place between any two of these readings.

 Main results: a snapshot is never of a half-loaded registry (`SnapshotIsWhole`); a picked variant loses
 its canonical phrase exactly when an index without it is swapped in before that is looked up
 (`PickedVariantLosesCanonicalIff`); and whatever the readings, the match fits what the wake engine
 relies on (`MatchFitsUnderLoads`).
 */
module LoadRuns {
  import opened Common
  import opened VariantIndex
  import M = Matcher

  /** How far the load holding the registry's lock has come, if there is one. */
  datatype Stage =
    | Free
    | Held(cs: seq<PhraseConfig>)
    | Adding(cs: seq<PhraseConfig>, added: nat)
    | Swapped(cs: seq<PhraseConfig>)

  /** `whole` is the list last loaded completely. */
  datatype World = World(phrases: seq<PhraseConfig>, index: Index, stage: Stage, whole: seq<PhraseConfig>)

  datatype Event = Acquire(cs: seq<PhraseConfig>) | Clear | AddNext | Swap(ix: Index) | Release

  const Start := World([], EmptyIndex, Free, [])

  ghost predicate AllAcceptable(cs: seq<PhraseConfig>) {
    forall c :: c in cs ==> Acceptable(c)
  }

  /** A load starts with accepted phrases and an open lock; its index is built from the registry it holds. */
  ghost predicate Enabled(w: World, ev: Event, norm: Normaliser) {
    match ev
    case Acquire(cs) => w.stage.Free? && AllAcceptable(cs)
    case Clear => w.stage.Held?
    case AddNext => w.stage.Adding? && w.stage.added < |w.stage.cs|
    case Swap(ix) => w.stage.Adding? && w.stage.added == |w.stage.cs| && Indexes(ix, w.phrases, norm)
    case Release => w.stage.Swapped?
  }

  function Step(w: World, ev: Event): World {
    match (ev, w.stage)
    case (Acquire(cs), Free) => w.(stage := Held(cs))
    case (Clear, Held(cs)) => w.(phrases := [], stage := Adding(cs, 0))
    case (AddNext, Adding(cs, n)) =>
      if n < |cs| then w.(phrases := Add(w.phrases, cs[n]), stage := Adding(cs, n + 1)) else w
    case (Swap(ix), Adding(cs, _)) => w.(index := ix, stage := Swapped(cs))
    case (Release, Swapped(_)) => w.(stage := Free, whole := w.phrases)
    case _ => w
  }

  ghost predicate ValidRun(w: World, evs: seq<Event>, norm: Normaliser)
    decreases |evs|
  {
    evs == [] || (Enabled(w, evs[0], norm) && ValidRun(Step(w, evs[0]), evs[1..], norm))
  }

  function Run(w: World, evs: seq<Event>): World
    decreases |evs|
  {
    if evs == [] then w else Run(Step(w, evs[0]), evs[1..])
  }

  /** The world when the first `k` events have happened. */
  ghost function At(evs: seq<Event>, k: int): World
    requires 0 <= k <= |evs|
  {
    Run(Start, evs[..k])
  }

  /** The phrases of the last load that has begun. */
  function LastLoad(evs: seq<Event>): seq<PhraseConfig> {
    if evs == [] then []
    else if evs[|evs| - 1].Acquire? then evs[|evs| - 1].cs
    else LastLoad(evs[..|evs| - 1])
  }

  // ----- the invariant -----

  ghost predicate Inv(w: World, norm: Normaliser) {
    && AllAcceptable(w.phrases) && AllAcceptable(w.whole)
    && Indexes(w.index, if w.stage.Swapped? then w.phrases else w.whole, norm)
    && match w.stage
       case Free => w.phrases == w.whole
       case Held(cs) => w.phrases == w.whole && AllAcceptable(cs)
       case Adding(cs, n) => n <= |cs| && AllAcceptable(cs) && w.phrases == AddAll([], cs[..n])
       case Swapped(cs) => AllAcceptable(cs) && w.phrases == AddAll([], cs)
  }

  lemma AddAllAcceptable(cs: seq<PhraseConfig>)
    requires AllAcceptable(cs)
    ensures AllAcceptable(AddAll([], cs))
  {
    AddAllKeepsLast(cs);
    forall c | c in AddAll([], cs) ensures Acceptable(c) {
      var i :| LastUnderId(cs, c, i);
    }
  }

  lemma StepInv(w: World, ev: Event, norm: Normaliser)
    requires Inv(w, norm) && Enabled(w, ev, norm)
    ensures Inv(Step(w, ev), norm)
  {
    match ev
    case AddNext =>
      var cs, n := w.stage.cs, w.stage.added;
      assert cs[..n + 1][..n] == cs[..n];
      AddAllAcceptable(cs[..n + 1]);
    case Swap(_) => assert w.stage.cs[..w.stage.added] == w.stage.cs;
    case _ =>
  }

  lemma {:induction false} RunInv(w: World, evs: seq<Event>, norm: Normaliser)
    requires Inv(w, norm) && ValidRun(w, evs, norm)
    ensures Inv(Run(w, evs), norm)
    decreases |evs|
  {
    if evs == [] {
    } else {
      StepInv(w, evs[0], norm);
      RunInv(Step(w, evs[0]), evs[1..], norm);
    }
  }

  lemma {:induction false} RunSnoc(w: World, evs: seq<Event>, ev: Event, norm: Normaliser)
    ensures Run(w, evs + [ev]) == Step(Run(w, evs), ev)
    ensures ValidRun(w, evs + [ev], norm) <==> ValidRun(w, evs, norm) && Enabled(Run(w, evs), ev, norm)
    decreases |evs|
  {
    var all := evs + [ev];
    if evs == [] {
      assert all[1..] == [];
    } else {
      assert all[1..] == evs[1..] + [ev];
      RunSnoc(Step(w, evs[0]), evs[1..], ev, norm);
    }
  }

  /** Every prefix of a valid run is valid, and its last world arises from the one before. */
  lemma {:induction false} AtInv(evs: seq<Event>, k: nat, norm: Normaliser)
    requires ValidRun(Start, evs, norm) && k <= |evs|
    ensures Inv(At(evs, k), norm) && ValidRun(Start, evs[..k], norm)
    ensures k > 0 ==> At(evs, k) == Step(At(evs, k - 1), evs[k - 1]) && Enabled(At(evs, k - 1), evs[k - 1], norm)
    decreases |evs| - k
  {
    if k == |evs| {
      assert evs[..k] == evs;
    } else {
      AtInv(evs, k + 1, norm);
      assert evs[..k + 1] == evs[..k] + [evs[k]];
      RunSnoc(Start, evs[..k], evs[k], norm);
    }
    RunInv(Start, evs[..k], norm);
    if k > 0 {
      assert evs[..k] == evs[..k - 1] + [evs[k - 1]];
      RunSnoc(Start, evs[..k - 1], evs[k - 1], norm);
    }
  }

  // ----- snapshots of the registry -----

  /** The load in progress is the last one begun; when none is, the last one begun is complete. */
  ghost predicate LoadsLast(w: World, last: seq<PhraseConfig>) {
    if w.stage.Free? then w.whole == AddAll([], last) else w.stage.cs == last
  }

  lemma StepLoadsLast(w: World, ev: Event, last: seq<PhraseConfig>, norm: Normaliser)
    requires Inv(w, norm) && Enabled(w, ev, norm) && LoadsLast(w, last)
    ensures LoadsLast(Step(w, ev), if ev.Acquire? then ev.cs else last)
  {
  }

  lemma {:induction false} LoadInProgress(evs: seq<Event>, k: nat, norm: Normaliser)
    requires ValidRun(Start, evs, norm) && k <= |evs|
    ensures LoadsLast(At(evs, k), LastLoad(evs[..k]))
    decreases k
  {
    if k == 0 {
      assert evs[..0] == [];
    } else {
      LoadInProgress(evs, k - 1, norm);
      AtInv(evs, k, norm);
      AtInv(evs, k - 1, norm);
      assert evs[..k][..k - 1] == evs[..k - 1] && evs[..k][k - 1] == evs[k - 1];
      StepLoadsLast(At(evs, k - 1), evs[k - 1], LastLoad(evs[..k - 1]), norm);
    }
  }

  /**
   Whenever the registry's lock is open, which is when a snapshot can be taken, the registry holds the
   whole of the last list loaded, each id once with its last phrase.
   */
  lemma SnapshotIsWhole(evs: seq<Event>, k: nat, norm: Normaliser)
    requires ValidRun(Start, evs, norm) && k <= |evs| && At(evs, k).stage.Free?
    ensures At(evs, k).phrases == AddAll([], LastLoad(evs[..k]))
    ensures Indexes(At(evs, k).index, At(evs, k).phrases, norm)
  {
    AtInv(evs, k, norm);
    LoadInProgress(evs, k, norm);
  }

  // ----- the matcher's readings -----

  /** When the matcher reads the registry, the variants for the gate, those to pick from, and the canonical phrase. */
  datatype Readings = Readings(active: nat, anchors: nat, pick: nat, lookup: nat)

  ghost predicate InOrder(evs: seq<Event>, r: Readings) {
    r.active <= r.anchors <= r.pick <= r.lookup <= |evs| && At(evs, r.active).stage.Free?
  }

  /** What the matcher has read. */
  ghost function Read(evs: seq<Event>, r: Readings, norm: Normaliser): M.Phrases
    requires InOrder(evs, r)
  {
    M.Phrases(Active(At(evs, r.active).phrases), At(evs, r.anchors).index.variants,
              At(evs, r.pick).index, At(evs, r.lookup).index, norm)
  }

  /** The last swap from event `a` on and before event `b`, or -1. */
  function LastSwap(evs: seq<Event>, a: int, b: int): (j: int)
    requires 0 <= a <= b <= |evs|
    ensures j == -1 || (a <= j < b && evs[j].Swap?)
    ensures forall i :: a <= i < b && i > j ==> !evs[i].Swap?
    decreases b
  {
    if b == a then -1 else if evs[b - 1].Swap? then b - 1 else LastSwap(evs, a, b - 1)
  }

  /** The index is that of the last swap, or the one there was. */
  lemma {:induction false} IndexSince(evs: seq<Event>, a: nat, b: nat, norm: Normaliser)
    requires ValidRun(Start, evs, norm) && a <= b <= |evs|
    ensures var j := LastSwap(evs, a, b); At(evs, b).index == if j == -1 then At(evs, a).index else evs[j].ix
    decreases b
  {
    if b == a {
    } else {
      IndexSince(evs, a, b - 1, norm);
      AtInv(evs, b, norm);
    }
  }

  /** Every index that is ever in place is the index of some list. */
  lemma IndexOfList(evs: seq<Event>, k: nat, norm: Normaliser)
    requires ValidRun(Start, evs, norm) && k <= |evs|
    ensures exists ps :: AllAcceptable(ps) && Indexes(At(evs, k).index, ps, norm)
  {
    AtInv(evs, k, norm);
    var w := At(evs, k);
    if w.stage.Swapped? { assert Indexes(w.index, w.phrases, norm); } else { assert Indexes(w.index, w.whole, norm); }
  }

  /**
   A variant picked from the index has no canonical phrase, when that is looked up, exactly when the
   index was swapped in between and the last one swapped in does not list the variant.
   */
  lemma PickedVariantLosesCanonicalIff(evs: seq<Event>, pick: nat, lookup: nat, v: string, norm: Normaliser)
    requires ValidRun(Start, evs, norm) && pick <= lookup <= |evs| && Idempotent(norm)
    requires v in At(evs, pick).index.variants
    ensures var j := LastSwap(evs, pick, lookup);
      Canonical(At(evs, lookup).index, v, norm).None? <==> j != -1 && v !in evs[j].ix.variants
  {
    IndexSince(evs, pick, lookup, norm);
    IndexOfList(evs, pick, norm);
    IndexOfList(evs, lookup, norm);
    var before :| Indexes(At(evs, pick).index, before, norm);
    IndexedIsNormal(At(evs, pick).index, before, v, norm);
  }

  const Hey := PhraseConfig("a", "hey", ["hi"], 0.5, 0, true, 1.0)
  const HeyIndex := Index(["hi"], map["hi" := "hey"], map["hey" := Hey])

  /** One phrase is loaded; then, while a match is under way, a profile without phrases. */
  const Unloading := [Acquire([Hey]), Clear, AddNext, Swap(HeyIndex), Release, Acquire([]), Clear, Swap(EmptyIndex)]

  lemma HeyIsIndexed(norm: Normaliser)
    requires norm("hi") == "hi"
    ensures Indexes(HeyIndex, [Hey], norm) && Indexes(EmptyIndex, [], norm)
  {
    assert [Hey][..0] == [];
    forall key ensures Lists(Hey, key, norm) <==> key == "hi" {
      assert Hey.variants[0] == "hi";
    }
  }

  /** One step of a concrete run. */
  lemma FirstStep(w: World, evs: seq<Event>, k: nat, w': World, norm: Normaliser)
    requires k < |evs| && ValidRun(Start, evs[..k], norm) && At(evs, k) == w && Enabled(w, evs[k], norm)
    requires Step(w, evs[k]) == w'
    ensures At(evs, k + 1) == w' && ValidRun(Start, evs[..k + 1], norm)
  {
    assert evs[..k + 1] == evs[..k] + [evs[k]];
    RunSnoc(Start, evs[..k], evs[k], norm);
  }

  lemma HeyIsLoaded(norm: Normaliser)
    requires norm("hi") == "hi"
    ensures ValidRun(Start, Unloading[..5], norm) && At(Unloading, 5) == World([Hey], HeyIndex, Free, [Hey])
  {
    var w1 := World([], EmptyIndex, Held([Hey]), []);
    var w2 := World([], EmptyIndex, Adding([Hey], 0), []);
    var w3 := World([Hey], EmptyIndex, Adding([Hey], 1), []);
    var w4 := World([Hey], HeyIndex, Swapped([Hey]), []);
    var w5 := World([Hey], HeyIndex, Free, [Hey]);
    FirstStep(Start, Unloading, 0, w1, norm);
    FirstStep(w1, Unloading, 1, w2, norm);
    FirstStep(w2, Unloading, 2, w3, norm);
    assert Enabled(w3, Swap(HeyIndex), norm) by { HeyIsIndexed(norm); }
    FirstStep(w3, Unloading, 3, w4, norm);
    FirstStep(w4, Unloading, 4, w5, norm);
  }

  lemma UnloadingIsValid(norm: Normaliser)
    requires norm("hi") == "hi"
    ensures ValidRun(Start, Unloading, norm)
    ensures At(Unloading, 5).index == HeyIndex && At(Unloading, 8).index == EmptyIndex
  {
    HeyIsLoaded(norm);
    var w5 := World([Hey], HeyIndex, Free, [Hey]);
    var w6 := World([Hey], HeyIndex, Held([]), [Hey]);
    var w7 := World([], HeyIndex, Adding([], 0), [Hey]);
    var w8 := World([], EmptyIndex, Swapped([]), [Hey]);
    FirstStep(w5, Unloading, 5, w6, norm);
    FirstStep(w6, Unloading, 6, w7, norm);
    assert Enabled(w7, Swap(EmptyIndex), norm) by { HeyIsIndexed(norm); }
    FirstStep(w7, Unloading, 7, w8, norm);
    assert Unloading[..8] == Unloading;
  }

  /** Between picking a variant and looking up its phrase the phrase can go away. */
  lemma PickedVariantCanLoseCanonical(norm: Normaliser)
    requires norm("hi") == "hi"
    ensures ValidRun(Start, Unloading, norm)
    ensures "hi" in At(Unloading, 5).index.variants && Canonical(At(Unloading, 8).index, "hi", norm).None?
  {
    UnloadingIsValid(norm);
  }

  /** Readings never contain an empty phrase, because the registry accepts none. */
  lemma ReadingsNonEmpty(evs: seq<Event>, r: Readings, norm: Normaliser)
    requires ValidRun(Start, evs, norm) && InOrder(evs, r)
    ensures M.NonEmpty(Read(evs, r, norm))
  {
    AtInv(evs, r.active, norm);
    ActiveNonEmpty(At(evs, r.active).phrases);
    IndexOfList(evs, r.lookup, norm);
    var ps :| AllAcceptable(ps) && Indexes(At(evs, r.lookup).index, ps, norm);
    forall key | key in At(evs, r.lookup).index.canon ensures At(evs, r.lookup).index.canon[key] != "" {
      CanonicalIsListed(ps, key, norm);
    }
  }

  lemma {:induction false} ActiveNonEmpty(ps: seq<PhraseConfig>)
    requires AllAcceptable(ps)
    ensures forall i :: 0 <= i < |Active(ps)| ==> Active(ps)[i] != ""
  {
    if ps == [] {
    } else {
      ActiveNonEmpty(ps[..|ps| - 1]);
      assert Acceptable(ps[|ps| - 1]);
    }
  }

  /** Whatever loads take place while it reads, the match has an empty phrase exactly when its score is 0. */
  lemma MatchFitsUnderLoads(evs: seq<Event>, r: Readings, norm: Normaliser, window: M.Window, f: M.Foreign)
    requires ValidRun(Start, evs, norm) && InOrder(evs, r) && M.InRange(f)
    ensures M.Fits(M.BestMatch(window, Read(evs, r, norm), f))
  {
    ReadingsNonEmpty(evs, r, norm);
    M.MatchFits(window, Read(evs, r, norm), f);
  }

  /** The phrases a matcher has read at some moments of some run. */
  ghost predicate ReadSomewhere(p: M.Phrases) {
    exists evs, r :: ValidRun(Start, evs, p.norm) && InOrder(evs, r) && p == Read(evs, r, p.norm)
  }

  lemma ReadSomewhereNonEmpty(p: M.Phrases)
    requires ReadSomewhere(p)
    ensures M.NonEmpty(p)
  {
    var evs, r :| ValidRun(Start, evs, p.norm) && InOrder(evs, r) && p == Read(evs, r, p.norm);
    ReadingsNonEmpty(evs, r, p.norm);
  }
}
