/**
 What loading does to the files as they stand on disk.

 Main results: `apply_migrations` leaves a version 2 profile alone, adds a version and missing weights to
 a version 1 profile and changes nothing else of it, and refuses every other (`MigrationEffect`); and a
 setting of the merged profile has the value of the most derived file on disk that defines it
 (`LoadedFromDisk`), with the wake phrases taken whole from the last file that has any (`PhrasesFromLast`).
 */
module ProfileOnDisk {
  import opened Common
  import opened ProfileMerge
  import opened ProfileChain

  // ----- migration -----

  /** The version an object says it has; without one it is 1. */
  predicate HasVersion(p: Json, n: real)
    requires p.Obj?
  {
    if "profileVersion" !in p.fields then n == 1.0
    else
      var v := p.fields["profileVersion"];
      v == Num(n) || (v == Bool(true) && n == 1.0) || (v == Bool(false) && n == 0.0)
  }

  /** Python's `"weight" in phrase`, or an object, which can be given one. */
  ghost predicate TakesWeight(phrase: Json) {
    || phrase.Obj?
    || (phrase.Str? && SaidIn(phrase.s, "weight"))
    || (phrase.List? && exists i :: 0 <= i < |phrase.items| && phrase.items[i] == Str("weight"))
  }

  /** The wake phrases can be gone through: a list, or an object or string in which nothing needs a weight. */
  ghost predicate CanBeWeighed(phrases: Json) {
    match phrases
    case List(items) => forall i :: 0 <= i < |items| ==> TakesWeight(items[i])
    case Obj(fields) => forall k :: k in fields ==> SaidIn(k, "weight")
    case Str(s) => s == ""
    case _ => false
  }

  /** An object gets weight 1 if it has none; everything else of it, and anything else, stays. */
  predicate WeightAdded(phrase: Json, phrase': Json) {
    if phrase.Obj? && "weight" !in phrase.fields then
      && phrase'.Obj? && phrase'.fields.Keys == phrase.fields.Keys + {"weight"}
      && phrase'.fields["weight"] == Num(1.0)
      && forall k :: k in phrase.fields ==> phrase'.fields[k] == phrase.fields[k]
    else phrase' == phrase
  }

  /** A list of phrases keeps its length and order; anything but a list stays as it is. */
  predicate PhrasesWeighed(phrases: Json, phrases': Json) {
    if phrases.List? then
      && phrases'.List? && |phrases'.items| == |phrases.items|
      && forall i :: 0 <= i < |phrases.items| ==> WeightAdded(phrases.items[i], phrases'.items[i])
    else phrases' == phrases
  }

  /** A version 1 profile and what it becomes: version 2, weighted phrases, and every other setting kept. */
  predicate Upgraded(p: Json, q: Json)
    requires p.Obj?
  {
    && q.Obj? && q.fields.Keys == p.fields.Keys + {"profileVersion"}
    && q.fields["profileVersion"] == Num(2.0)
    && (forall k :: k in p.fields && k != "profileVersion" && k != "wakePhrases" ==> q.fields[k] == p.fields[k])
    && ("wakePhrases" in p.fields ==> PhrasesWeighed(p.fields["wakePhrases"], q.fields["wakePhrases"]))
  }

  ghost predicate Upgradable(p: Json) {
    && p.Obj? && HasVersion(p, 1.0)
    && ("wakePhrases" in p.fields ==> CanBeWeighed(p.fields["wakePhrases"]))
  }

  lemma ContainsWeight(s: string)
    ensures Contains(s, "weight") <==> SaidIn(s, "weight")
  {
    ContainsIsSaid(s, "weight");
  }

  lemma WeighableIs(phrase: Json)
    ensures Weighable(phrase) <==> TakesWeight(phrase)
  {
    if phrase.Str? { ContainsWeight(phrase.s); }
  }

  lemma IterableIs(phrases: Json)
    ensures Iterable(phrases) <==> CanBeWeighed(phrases)
  {
    match phrases
    case List(items) =>
      forall i | 0 <= i < |items| ensures Weighable(items[i]) <==> TakesWeight(items[i]) { WeighableIs(items[i]); }
    case Obj(fields) =>
      forall k | k in fields ensures HasWeight(Str(k)) <==> SaidIn(k, "weight") { ContainsWeight(k); }
    case Str(s) =>
      forall i | 0 <= i < |s| ensures !HasWeight(Str([s[i]])) {
        ContainsWeight([s[i]]);
        assert forall before: string, after: string :: |before + "weight" + after| > |[s[i]]|;
      }
      assert s != "" ==> !HasWeight(Str([s[0]]));
    case _ =>
  }

  lemma WeighedIs(phrases: Json)
    requires Iterable(phrases)
    ensures PhrasesWeighed(phrases, Weighed(phrases))
  {
    if phrases.List? {
      forall i | 0 <= i < |phrases.items|
        ensures WeightAdded(phrases.items[i], Weighed(phrases).items[i])
      {
        assert Weighed(phrases).items[i] == WithWeight(phrases.items[i]);
      }
    }
  }

  lemma UpgradeIs(p: Json)
    requires p.Obj? && PhrasesReadable(p)
    ensures Upgraded(p, MigrateV1(p))
  {
    KeysDiffer();
    if WAKE_PHRASES in p.fields { WeighedIs(p.fields[WAKE_PHRASES]); }
  }

  /** What `apply_migrations` does with any profile. */
  lemma MigrationEffect(p: Json)
    ensures Migrate(p).Ok? <==> p.Obj? && (HasVersion(p, 2.0) || Upgradable(p))
    ensures p.Obj? && HasVersion(p, 2.0) ==> Migrate(p) == Ok(p)
    ensures Upgradable(p) ==> Upgraded(p, Migrate(p).value)
    ensures Migrate(p).Unsupported? <==> p.Obj? && exists n :: HasVersion(p, n) && n != 1.0 && n != 2.0
  {
    if p.Obj? {
      assert forall n :: HasVersion(p, n) <==> Version(p) == Some(n);
      if "wakePhrases" in p.fields { IterableIs(p.fields["wakePhrases"]); }
      if Upgradable(p) { UpgradeIs(p); }
    }
  }

  // ----- one file -----

  /** The file can be read: it is of version 2 or can be made so, and names its parent by a string if at all. */
  ghost predicate Readable(files: Files, path: string) {
    && path in files
    && var p := files[path];
    && p.Obj? && (HasVersion(p, 2.0) || Upgradable(p))
    && ("extends" in p.fields ==> p.fields["extends"].Str?)
  }

  lemma ReadIs(files: Files, path: string)
    ensures Read(files, path).Some? <==> Readable(files, path)
    ensures Readable(files, path) ==> Migrate(files[path]) == Ok(Read(files, path).value)
  {
    if path in files {
      MigrationEffect(files[path]);
      KeysDiffer();
    }
  }

  /** The parent is the one named by the file on disk. */
  lemma ParentIs(files: Files, path: string, parentPath: Resolver)
    requires Readable(files, path)
    ensures Read(files, path).Some?
    ensures Parent(files, path, parentPath)
         == if "extends" in files[path].fields then Some(parentPath(path, files[path].fields["extends"].s)) else None
  {
    ReadIs(files, path);
    MigrationEffect(files[path]);
    KeysDiffer();
  }

  // ----- the files from the root file up to the first without a parent -----

  ghost predicate Ancestry(files: Files, t: seq<string>, parentPath: Resolver) {
    && t != []
    && (forall i :: 0 <= i < |t| ==> Readable(files, t[i]))
    && (forall i :: 0 <= i < |t| - 1 ==>
          && "extends" in files[t[i]].fields && t[i + 1] == parentPath(t[i], files[t[i]].fields["extends"].s))
    && "extends" !in files[t[|t| - 1]].fields
    && forall i, j :: 0 <= i < j < |t| ==> t[i] != t[j]
  }

  /** The files as they stand on disk, root ancestor first. */
  ghost function OnDisk(files: Files, t: seq<string>): seq<Json>
    requires forall i :: 0 <= i < |t| ==> t[i] in files
  {
    seq(|t|, i requires 0 <= i < |t| => files[t[|t| - 1 - i]])
  }

  lemma AncestryIsTrail(files: Files, t: seq<string>, parentPath: Resolver)
    requires Ancestry(files, t, parentPath)
    ensures Trail(files, t, parentPath) && Justifies(files, t, parentPath, Chain(Profiles(files, t)))
  {
    forall i | 0 <= i < |t| ensures Read(files, t[i]).Some? { ReadIs(files, t[i]); }
    forall i | 0 <= i < |t| - 1 ensures Parent(files, t[i], parentPath) == Some(t[i + 1]) {
      ParentIs(files, t[i], parentPath);
    }
    ParentIs(files, t[|t| - 1], parentPath);
  }

  /** The profile after migration, as far as paths are concerned. */
  ghost predicate Faithful(p: Json, q: Json) {
    && p.Obj? && q.Obj?
    && (forall path :: path != [] && path[0] != "profileVersion" && path[0] != "wakePhrases" ==>
          Get(q, path) == Get(p, path))
    && (forall path :: path != [] && path[0] == "wakePhrases" && Get(q, path).Some? ==>
          Get(p, path).Some? && (Get(q, path).value.Obj? <==> Get(p, path).value.Obj?))
    && (forall path :: path != [] && path[0] == "profileVersion" && Get(q, path).Some? ==>
          !Get(q, path).value.Obj?)
  }

  lemma VersionIsNoObject(p: Json, path: Path)
    requires p.Obj? && (exists n :: HasVersion(p, n)) && path != [] && path[0] == "profileVersion"
    ensures Get(p, path).Some? ==> !Get(p, path).value.Obj?
  {
  }

  lemma UpgradedIsFaithful(p: Json, q: Json)
    requires p.Obj? && HasVersion(p, 1.0) && Upgraded(p, q)
    ensures Faithful(p, q)
  {
    forall path | path != [] && path[0] == "wakePhrases" && Get(q, path).Some?
      ensures Get(p, path).Some? && (Get(q, path).value.Obj? <==> Get(p, path).value.Obj?)
    {
      assert "wakePhrases" != "profileVersion" by { KeysDiffer(); }
      assert PhrasesWeighed(p.fields["wakePhrases"], q.fields["wakePhrases"]);
      assert Get(q, path) == Get(q.fields["wakePhrases"], path[1..]);
      assert q.fields["wakePhrases"].List? ==> path[1..] == [];
    }
    forall path | path != [] && path[0] == "profileVersion" && Get(q, path).Some?
      ensures !Get(q, path).value.Obj?
    {
      assert HasVersion(q, 2.0);
      VersionIsNoObject(q, path);
    }
  }

  lemma ReadIsFaithful(files: Files, path: string)
    requires Readable(files, path)
    ensures Read(files, path).Some? && Faithful(files[path], Read(files, path).value)
  {
    ReadIs(files, path);
    var p := files[path];
    MigrationEffect(p);
    if HasVersion(p, 2.0) {
      forall other | other != [] && other[0] == "profileVersion" && Get(p, other).Some?
        ensures !Get(p, other).value.Obj?
      {
        VersionIsNoObject(p, other);
      }
    } else {
      UpgradedIsFaithful(p, Read(files, path).value);
    }
  }

  lemma FaithfulKeepsClash(a: Json, a': Json, b: Json, b': Json)
    requires Faithful(a, a') && Faithful(b, b') && NoClash(a, b)
    ensures NoClash(a', b')
  {
    forall p | Get(a', p).Some? && Get(b', p).Some? ensures Get(a', p).value.Obj? <==> Get(b', p).value.Obj? {
      if p != [] && p[0] != "profileVersion" {
        assert Get(a, p).Some? && Get(b, p).Some?;
      }
    }
  }

  lemma FaithfulKeepsPlain(a: Json, a': Json)
    requires Faithful(a, a') && PlainPhrases(a)
    ensures PlainPhrases(a')
  {
    forall p | p != [] && p[|p| - 1] == WAKE_PHRASES && Get(a', p).Some? ensures !Get(a', p).value.Obj? {
      if p[0] != "profileVersion" {
        assert Get(a, p).Some?;
      }
    }
  }

  lemma FaithfulKeepsLeaf(p: Json, q: Json, path: Path)
    requires Faithful(p, q) && path != [] && path[0] != "profileVersion" && path[0] != "wakePhrases"
    ensures Leaf(q, path) == Leaf(p, path)
  {
  }

  ghost predicate AllFaithful(ps: seq<Json>, qs: seq<Json>) {
    |ps| == |qs| && forall i :: 0 <= i < |ps| ==> Faithful(ps[i], qs[i])
  }

  lemma FaithfulChainCompatible(ps: seq<Json>, qs: seq<Json>)
    requires AllFaithful(ps, qs) && Compatible(ps)
    ensures Compatible(qs)
  {
    forall i, j | 0 <= i < |qs| && 0 <= j < |qs| ensures NoClash(qs[i], qs[j]) {
      FaithfulKeepsClash(ps[i], qs[i], ps[j], qs[j]);
    }
    forall i | 0 <= i < |qs| ensures PlainPhrases(qs[i]) { FaithfulKeepsPlain(ps[i], qs[i]); }
  }

  lemma {:induction false} FaithfulMostDerived(ps: seq<Json>, qs: seq<Json>, path: Path)
    requires AllFaithful(ps, qs) && path != [] && path[0] != "profileVersion" && path[0] != "wakePhrases"
    ensures MostDerived(qs, path) == MostDerived(ps, path)
  {
    if ps == [] {
    } else {
      var n := |ps| - 1;
      FaithfulMostDerived(ps[..n], qs[..n], path);
      FaithfulKeepsLeaf(ps[n], qs[n], path);
    }
  }

  // ----- the whole load -----

  predicate DebugSwitch(path: Path) {
    path == ["transcription", "enableDebug"] || path == ["diagnostics", "enableInternalTrace"]
  }

  /** The overlay has two settings, both on. */
  lemma OverlayLeaves(path: Path)
    ensures Leaf(DebugOverlay, path) == if DebugSwitch(path) then Some(Bool(true)) else None
  {
    assert "transcription"[0] != "diagnostics"[0];
    if path != [] {
      SwitchLeaf("enableDebug", path[1..]);
      SwitchLeaf("enableInternalTrace", path[1..]);
      assert path == [path[0]] + path[1..];
    }
  }

  lemma SwitchLeaf(key: string, path: Path)
    ensures Leaf(Obj(map[key := Bool(true)]), path) == if path == [key] then Some(Bool(true)) else None
  {
    var j := Obj(map[key := Bool(true)]);
    if path != [] && path[0] == key {
      assert path == [key] + path[1..];
      assert Get(j, path) == Get(Bool(true), path[1..]);
      assert path == [key] <==> path[1..] == [];
    }
  }

  ghost function Layered(files: Files, t: seq<string>, debugOverlay: bool): seq<Json>
    requires forall i :: 0 <= i < |t| ==> t[i] in files
  {
    OnDisk(files, t) + if debugOverlay then [DebugOverlay] else []
  }

  lemma OverlayIsFaithful()
    ensures Faithful(DebugOverlay, DebugOverlay)
  {
    assert "profileVersion" !in DebugOverlay.fields && "wakePhrases" !in DebugOverlay.fields by {
      assert "profileVersion"[0] != "transcription"[0] && "profileVersion"[0] != "diagnostics"[0];
      assert "wakePhrases"[0] != "transcription"[0] && "wakePhrases"[0] != "diagnostics"[0];
    }
  }

  lemma ChainIsFaithful(files: Files, t: seq<string>, debugOverlay: bool, parentPath: Resolver)
    requires Ancestry(files, t, parentPath)
    ensures Trail(files, t, parentPath)
    ensures AllFaithful(Layered(files, t, debugOverlay),
                        Profiles(files, t) + if debugOverlay then [DebugOverlay] else [])
  {
    AncestryIsTrail(files, t, parentPath);
    OverlayIsFaithful();
    var n := |t|;
    var ps, qs := OnDisk(files, t), Profiles(files, t);
    forall i | 0 <= i < n ensures Faithful(ps[i], qs[i]) { FileIsFaithful(files, t, i); }
    FaithfulAppend(ps, qs, if debugOverlay then [DebugOverlay] else []);
  }

  lemma FileIsFaithful(files: Files, t: seq<string>, i: nat)
    requires i < |t| && forall k :: 0 <= k < |t| ==> t[k] in files && Readable(files, t[k]) && Read(files, t[k]).Some?
    ensures Faithful(OnDisk(files, t)[i], Profiles(files, t)[i])
  {
    ReadIsFaithful(files, t[|t| - 1 - i]);
  }

  lemma FaithfulAppend(ps: seq<Json>, qs: seq<Json>, more: seq<Json>)
    requires AllFaithful(ps, qs) && forall i :: 0 <= i < |more| ==> Faithful(more[i], more[i])
    ensures AllFaithful(ps + more, qs + more)
  {
  }

  lemma LoadedChainIs(files: Files, t: seq<string>, debugOverlay: bool, parentPath: Resolver)
    requires Ancestry(files, t, parentPath)
    ensures Trail(files, t, parentPath)
    ensures var qs := Profiles(files, t) + if debugOverlay then [DebugOverlay] else [];
      AllObjects(qs) && Load(files, t[0], debugOverlay, parentPath) == Profile(MergeAll(qs))
  {
    AncestryIsTrail(files, t, parentPath);
    StartDecides(files, t, t[0], parentPath, Chain(Profiles(files, t)));
    ChainOfObjects(files, t[0], {t[0]}, parentPath);
    assert Profiles(files, t) + [] == Profiles(files, t);
  }

  /**
   The files from the given one up to the first without a parent are loaded, and every setting of the
   result, apart from version and wake phrases, is that of the most derived of them as it stands on disk;
   the debug overlay comes on top.
   */
  lemma LoadedFromDisk(files: Files, t: seq<string>, debugOverlay: bool, parentPath: Resolver, path: Path)
    requires Ancestry(files, t, parentPath) && Compatible(Layered(files, t, debugOverlay))
    requires path != [] && path[0] != "profileVersion" && path[0] != "wakePhrases"
    ensures var r := Load(files, t[0], debugOverlay, parentPath);
      && r.Profile?
      && Leaf(r.merged, path) == if debugOverlay && DebugSwitch(path) then Some(Bool(true))
                                 else MostDerived(OnDisk(files, t), path)
  {
    var ps := Layered(files, t, debugOverlay);
    ChainIsFaithful(files, t, debugOverlay, parentPath);
    var qs := Profiles(files, t) + if debugOverlay then [DebugOverlay] else [];
    LoadedChainIs(files, t, debugOverlay, parentPath);
    FaithfulChainCompatible(ps, qs);
    MergedChainIsMostDerived(qs, path);
    FaithfulMostDerived(ps, qs, path);
    OverlayLeaves(path);
    if debugOverlay {
      assert ps[..|ps| - 1] == OnDisk(files, t);
    } else {
      assert ps == OnDisk(files, t);
    }
  }

  // ----- the wake phrases -----

  /** The wake phrases of the last profile that has any. */
  function LastPhrases(chain: seq<Json>): Option<Json>
    requires forall i :: 0 <= i < |chain| ==> chain[i].Obj?
  {
    if chain == [] then None
    else if "wakePhrases" in chain[|chain| - 1].fields then Some(chain[|chain| - 1].fields["wakePhrases"])
    else LastPhrases(chain[..|chain| - 1])
  }

  /** Wake phrases are never merged: those of the last profile that has any are taken as they are. */
  lemma {:induction false} PhrasesFromLast(chain: seq<Json>)
    requires AllObjects(chain)
    ensures var m := MergeAll(chain);
      (if "wakePhrases" in m.fields then Some(m.fields["wakePhrases"]) else None) == LastPhrases(chain)
  {
    if |chain| <= 1 {
    } else {
      var prev, last := chain[..|chain| - 1], chain[|chain| - 1];
      PhrasesFromLast(prev);
      if "wakePhrases" in Merge(MergeAll(prev), last).fields { MergeItems(MergeAll(prev), last, "wakePhrases"); }
    }
  }
}
