/**
 Flattening the merged profile into dotted keys, the form in which the engine reports its effective
 configuration.

 Keys of profiles may contain dots, so two paths can share a dotted key. What is reported then is one of
 the two values; nothing is lost exactly when paths with the same dotted key have the same value
 (`Flatten`, `EffectiveConfigIsMostDerived`).
 */
module ProfileFlatten {
  import opened Common
  import opened ProfileMerge
  import ProfileChain

  /** Keys joined by dots. */
  function Dotted(p: Path): string
    requires p != []
  {
    if |p| == 1 then p[0] else p[0] + "." + Dotted(p[1..])
  }

  predicate Undotted(s: string) {
    forall i :: 0 <= i < |s| ==> s[i] != '.'
  }

  ghost predicate UndottedPath(p: Path) {
    forall i :: 0 <= i < |p| ==> Undotted(p[i])
  }

  ghost predicate UndottedKeys(j: Json) {
    forall p :: Get(j, p).Some? ==> UndottedPath(p)
  }

  /** What flattening reports at a path: values other than objects and lists. */
  function Reported(j: Json, p: Path): Option<Json> {
    match Leaf(j, p)
    case Some(v) => if v.List? then None else Some(v)
    case None => None
  }

  /** The path `p` is reported under the key `s`. */
  ghost predicate Under(j: Json, prefix: string, p: Path, s: string) {
    p != [] && Reported(j, p).Some? && s == prefix + Dotted(p)
  }

  /** Paths reported under one dotted key have the same value. */
  ghost predicate Unambiguous(j: Json) {
    forall p, q, s :: Under(j, "", p, s) && Under(j, "", q, s) ==> Reported(j, p) == Reported(j, q)
  }

  /** `r` holds every reported path's value under its key, and nothing else. */
  ghost predicate IsFlat(r: map<string, Json>, j: Json, prefix: string) {
    && (forall p, s :: Under(j, prefix, p, s) ==> s in r && r[s] == Reported(j, p).value)
    && (forall s :: s in r ==> exists p :: Under(j, prefix, p, s))
  }

  /** What flattening always gives: a key for every reported path, and under each key one of their values. */
  ghost predicate Covers(r: map<string, Json>, j: Json, prefix: string) {
    PartlyCovers(r, j, prefix, {})
  }

  /** What is in the result while the keys in `todo` have not been visited. */
  ghost predicate PartlyCovers(r: map<string, Json>, j: Json, prefix: string, todo: set<string>) {
    && (forall p, s :: Under(j, prefix, p, s) && p[0] !in todo ==> s in r)
    && (forall s :: s in r ==> exists p :: Under(j, prefix, p, s) && p[0] !in todo && r[s] == Reported(j, p).value)
  }

  // ----- dotted keys determine undotted paths -----

  lemma AtDot(a: string, x: string)
    ensures |a + "." + x| > |a| && (a + "." + x)[|a|] == '.'
    ensures forall i :: 0 <= i < |a| ==> (a + "." + x)[i] == a[i]
  {
  }

  lemma FirstDot(a: string, x: string, b: string, y: string)
    requires Undotted(a) && Undotted(b) && a + "." + x == b + "." + y
    ensures a == b && x == y
  {
    AtDot(a, x);
    AtDot(b, y);
    var s, t := a + "." + x, b + "." + y;
    if |a| < |b| || |b| < |a| { assert false; }
    assert s[..|a|] == a && t[..|b|] == b;
    assert s[|a| + 1..] == x && t[|b| + 1..] == y;
  }

  lemma NoDotNoRest(a: string, b: string, y: string)
    requires Undotted(a)
    ensures a != b + "." + y
  {
    AtDot(b, y);
    if a == b + "." + y { assert false; }
  }

  lemma {:induction false} DottedInjective(p: Path, q: Path)
    requires p != [] && q != [] && UndottedPath(p) && UndottedPath(q) && Dotted(p) == Dotted(q)
    ensures p == q
  {
    if |p| == 1 {
      if |q| > 1 { NoDotNoRest(p[0], q[0], Dotted(q[1..])); }
    } else if |q| == 1 {
      NoDotNoRest(q[0], p[0], Dotted(p[1..]));
    } else {
      FirstDot(p[0], Dotted(p[1..]), q[0], Dotted(q[1..]));
      DottedInjective(p[1..], q[1..]);
      assert p == [p[0]] + p[1..] && q == [q[0]] + q[1..];
    }
  }

  /** Without dots in keys nothing is ambiguous. */
  lemma UndottedIsUnambiguous(j: Json)
    requires UndottedKeys(j)
    ensures Unambiguous(j)
  {
    forall p, q, s | Under(j, "", p, s) && Under(j, "", q, s) ensures Reported(j, p) == Reported(j, q) {
      assert "" + Dotted(p) == Dotted(p) && "" + Dotted(q) == Dotted(q);
      assert Get(j, p).Some? && Get(j, q).Some?;
      DottedInjective(p, q);
    }
  }

  // ----- what flattening loses -----

  lemma SamePrefix(prefix: string, a: string, b: string)
    ensures prefix + a == prefix + b <==> a == b
  {
    assert (prefix + a)[|prefix|..] == a && (prefix + b)[|prefix|..] == b;
  }

  /** A covering result has every value exactly when no two values compete for a key. */
  lemma FlatIffUnambiguous(r: map<string, Json>, j: Json, prefix: string)
    requires Covers(r, j, prefix)
    ensures IsFlat(r, j, prefix) <==> Unambiguous(j)
  {
    if Unambiguous(j) {
      forall p, s | Under(j, prefix, p, s) ensures s in r && r[s] == Reported(j, p).value {
        assert p[0] !in {};
        var q :| Under(j, prefix, q, s) && r[s] == Reported(j, q).value;
        SamePrefix(prefix, Dotted(p), Dotted(q));
        assert Under(j, "", p, "" + Dotted(p)) && Under(j, "", q, "" + Dotted(p));
      }
    }
    if IsFlat(r, j, prefix) {
      forall p, q, s | Under(j, "", p, s) && Under(j, "", q, s) ensures Reported(j, p) == Reported(j, q) {
        SamePrefix("", Dotted(p), Dotted(q));
        assert Under(j, prefix, p, prefix + Dotted(p)) && Under(j, prefix, q, prefix + Dotted(p));
      }
    }
  }

  /** A profile of which no flattening can report both values. */
  const Ambiguous := Obj(map["a.b" := Num(1.0), "a" := Obj(map["b" := Num(2.0)])])

  lemma AmbiguousLosesValue(r: map<string, Json>)
    ensures Reported(Ambiguous, ["a.b"]) == Some(Num(1.0)) && Reported(Ambiguous, ["a", "b"]) == Some(Num(2.0))
    ensures !IsFlat(r, Ambiguous, "")
  {
    var p, q: Path := ["a.b"], ["a", "b"];
    assert |"a.b"| == 3 && |"a"| == 1;
    assert q[1..] == ["b"] && ["b"][1..] == [];
    assert Get(Ambiguous, p) == Get(Num(1.0), p[1..]);
    assert Get(Ambiguous, q) == Get(Obj(map["b" := Num(2.0)]), ["b"]) == Get(Num(2.0), []);
    assert Dotted(["b"]) == "b" && Dotted(q) == "a" + "." + "b" == "a.b" == Dotted(p);
    assert Under(Ambiguous, "", p, "" + "a.b") && Under(Ambiguous, "", q, "" + "a.b");
  }

  // ----- the flattening loop -----

  /** The reported paths below one key. */
  lemma ReportedBelow(j: Json, k: string, q: Path)
    requires j.Obj? && k in j.fields
    ensures Reported(j, [k] + q) == Reported(j.fields[k], q)
  {
  }

  lemma PrefixDotted(prefix: string, k: string, q: Path)
    requires q != []
    ensures prefix + Dotted([k] + q) == (prefix + k + ".") + Dotted(q)
  {
  }

  /** A path below a key is reported for the whole under the key it has below. */
  lemma UnderBelow(j: Json, prefix: string, k: string, q: Path, s: string)
    requires j.Obj? && k in j.fields && q != []
    ensures Under(j, prefix, [k] + q, s) <==> Under(j.fields[k], prefix + k + ".", q, s)
  {
    ReportedBelow(j, k, q);
    PrefixDotted(prefix, k, q);
  }

  /** Visiting an object adds the keys of the reported paths below it. */
  lemma VisitObject(r: map<string, Json>, sub: map<string, Json>, j: Json, prefix: string, todo: set<string>, k: string)
    requires j.Obj? && k in todo && k in j.fields && j.fields[k].Obj?
    requires PartlyCovers(r, j, prefix, todo) && Covers(sub, j.fields[k], prefix + k + ".")
    ensures PartlyCovers(r + sub, j, prefix, todo - {k})
  {
    var r' := r + sub;
    forall p, s | Under(j, prefix, p, s) && p[0] !in todo - {k} ensures s in r' {
      if p[0] == k {
        assert p == [k] + p[1..];
        ReportedBelow(j, k, p[1..]);
        UnderBelow(j, prefix, k, p[1..], s);
        assert p[1..][0] !in {};
      }
    }
    forall s | s in r'
      ensures exists p :: Under(j, prefix, p, s) && p[0] !in todo - {k} && r'[s] == Reported(j, p).value
    {
      if s in sub {
        var q :| Under(j.fields[k], prefix + k + ".", q, s) && sub[s] == Reported(j.fields[k], q).value;
        UnderBelow(j, prefix, k, q, s);
        ReportedBelow(j, k, q);
        var p := [k] + q;
        assert Under(j, prefix, p, s) && p[0] !in todo - {k} && r'[s] == Reported(j, p).value;
      } else {
        var p :| Under(j, prefix, p, s) && p[0] !in todo && r[s] == Reported(j, p).value;
      }
    }
  }

  /** Visiting any other value adds its own key, unless it is a list. */
  lemma VisitValue(r: map<string, Json>, r': map<string, Json>, j: Json, prefix: string, todo: set<string>, k: string)
    requires j.Obj? && k in todo && k in j.fields && !j.fields[k].Obj?
    requires PartlyCovers(r, j, prefix, todo)
    requires r' == if j.fields[k].List? then r else r[prefix + k := j.fields[k]]
    ensures PartlyCovers(r', j, prefix, todo - {k})
  {
    ReportedBelow(j, k, []);
    assert [k] + [] == [k];
    forall p, s | Under(j, prefix, p, s) && p[0] !in todo - {k} ensures s in r' {
      if p[0] == k {
        assert p == [k] + p[1..];
        ReportedBelow(j, k, p[1..]);
        assert p[1..] == [];
      }
    }
    forall s | s in r'
      ensures exists p :: Under(j, prefix, p, s) && p[0] !in todo - {k} && r'[s] == Reported(j, p).value
    {
      if !j.fields[k].List? && s == prefix + k {
        assert Under(j, prefix, [k], s) && [k][0] !in todo - {k} && r'[s] == Reported(j, [k]).value;
      } else {
        var p :| Under(j, prefix, p, s) && p[0] !in todo && r[s] == Reported(j, p).value;
      }
    }
  }

  /**
   `flatten`: the keys in any order, objects recursively, lists skipped. Every reported path has its key
   and every key one of the values reported under it; all values are there exactly when none compete.
   */
  method Flatten(j: Json, prefix: string) returns (r: map<string, Json>)
    requires j.Obj?
    ensures Covers(r, j, prefix)
    ensures IsFlat(r, j, prefix) <==> Unambiguous(j)
    decreases j
  {
    r := map[];
    var todo := j.fields.Keys;
    assert forall p, s :: Under(j, prefix, p, s) ==> p[0] in todo;
    while todo != {}
      invariant todo <= j.fields.Keys
      invariant PartlyCovers(r, j, prefix, todo)
      decreases |todo|
    {
      var k :| k in todo;
      var v := j.fields[k];
      ghost var before := r;
      if v.Obj? {
        var sub := Flatten(v, prefix + k + ".");
        r := r + sub;
        VisitObject(before, sub, j, prefix, todo, k);
      } else {
        if !v.List? {
          r := r[prefix + k := v];
        }
        VisitValue(before, r, j, prefix, todo, k);
      }
      todo := todo - {k};
    }
    FlatIffUnambiguous(r, j, prefix);
  }

  // ----- the effective configuration -----

  /** What the chain reports at a path: the value of the most derived profile defining it, unless a list. */
  function Effective(chain: seq<Json>, p: Path): Option<Json> {
    match MostDerived(chain, p)
    case Some(v) => if v.List? then None else Some(v)
    case None => None
  }

  /** The path `p` has an effective value, which belongs under the key `s`. */
  ghost predicate EffectiveUnder(chain: seq<Json>, p: Path, s: string) {
    p != [] && Effective(chain, p).Some? && s == Dotted(p)
  }

  /** `r` holds exactly the effective values of the chain under their dotted keys. */
  ghost predicate ReportsMostDerived(r: map<string, Json>, chain: seq<Json>) {
    && (forall p, s :: EffectiveUnder(chain, p, s) ==> s in r && r[s] == Effective(chain, p).value)
    && (forall s :: s in r ==> exists p :: EffectiveUnder(chain, p, s))
  }

  /** Paths of the chain with the same dotted key have the same effective value. */
  ghost predicate ChainUnambiguous(chain: seq<Json>) {
    forall p, q, s :: EffectiveUnder(chain, p, s) && EffectiveUnder(chain, q, s) ==>
      Effective(chain, p) == Effective(chain, q)
  }

  lemma EffectiveIsReported(chain: seq<Json>)
    requires Compatible(chain)
    ensures forall p :: p != [] ==> Effective(chain, p) == Reported(MergeAll(chain), p)
    ensures forall p, s :: EffectiveUnder(chain, p, s) <==> Under(MergeAll(chain), "", p, s)
  {
    forall p | p != [] ensures Effective(chain, p) == Reported(MergeAll(chain), p) && "" + Dotted(p) == Dotted(p) {
      MergedChainIsMostDerived(chain, p);
    }
  }

  lemma ReportsIffFlat(chain: seq<Json>, r: map<string, Json>)
    requires Compatible(chain)
    ensures ReportsMostDerived(r, chain) <==> IsFlat(r, MergeAll(chain), "")
  {
    EffectiveIsReported(chain);
  }

  lemma AmbiguityOfMerge(chain: seq<Json>)
    requires Compatible(chain)
    ensures ChainUnambiguous(chain) <==> Unambiguous(MergeAll(chain))
  {
    EffectiveIsReported(chain);
  }

  /**
   The effective configuration: it reports under each key the value of the most derived profile that
   defines its path, and nothing else, exactly when no two values of the chain compete for a dotted key.
   */
  lemma EffectiveConfigIsMostDerived(chain: seq<Json>, r: map<string, Json>)
    requires Compatible(chain) && Covers(r, MergeAll(chain), "")
    ensures ReportsMostDerived(r, chain) <==> ChainUnambiguous(chain)
  {
    EffectiveIsReported(chain);
    FlatIffUnambiguous(r, MergeAll(chain), "");
    ReportsIffFlat(chain, r);
    AmbiguityOfMerge(chain);
  }

  lemma {:induction false} MergedUndotted(chain: seq<Json>)
    requires AllObjects(chain) && forall i :: 0 <= i < |chain| ==> UndottedKeys(chain[i])
    ensures UndottedKeys(MergeAll(chain))
  {
    if |chain| <= 1 {
    } else {
      var prev, last := chain[..|chain| - 1], chain[|chain| - 1];
      MergedUndotted(prev);
      forall p | Get(Merge(MergeAll(prev), last), p).Some? ensures UndottedPath(p) {
        MergeKind(MergeAll(prev), last, p);
      }
    }
  }

  /** Profiles without dots in their keys never compete. */
  lemma UndottedChainUnambiguous(chain: seq<Json>)
    requires Compatible(chain) && forall i :: 0 <= i < |chain| ==> UndottedKeys(chain[i])
    ensures ChainUnambiguous(chain)
  {
    MergedUndotted(chain);
    UndottedIsUnambiguous(MergeAll(chain));
    AmbiguityOfMerge(chain);
  }

  /**
   From the files to the report: `load_profile` and `get_effective_config` one after the other. The
   configuration is what the inheritance chain says, most derived first; a walk that fails reports why.
   */
  method EffectiveConfig(files: ProfileChain.Files, root: string, debugOverlay: bool, parentPath: ProfileChain.Resolver)
    returns (r: map<string, Json>, loaded: ProfileChain.Loaded)
    ensures loaded == ProfileChain.Load(files, root, debugOverlay, parentPath)
    ensures loaded.Profile? ==>
      exists chain :: ReportsOn(files, root, debugOverlay, parentPath, chain, loaded.merged, r)
  {
    loaded := ProfileChain.LoadProfile(files, root, debugOverlay, parentPath);
    if loaded.Failed? { return map[], loaded; }
    r := Flatten(loaded.merged, "");
    ReportIs(files, root, debugOverlay, parentPath, loaded.merged, r);
  }

  lemma ReportIs(files: ProfileChain.Files, root: string, debugOverlay: bool, parentPath: ProfileChain.Resolver,
      merged: Json, r: map<string, Json>)
    requires ProfileChain.Load(files, root, debugOverlay, parentPath) == ProfileChain.Profile(merged)
    requires Covers(r, merged, "")
    ensures exists chain :: ReportsOn(files, root, debugOverlay, parentPath, chain, merged, r)
  {
    var chain := LoadedChain(files, root, debugOverlay, parentPath);
    assert Compatible(chain) ==> (ReportsMostDerived(r, chain) <==> ChainUnambiguous(chain)) by {
      if Compatible(chain) { EffectiveConfigIsMostDerived(chain, r); }
    }
    assert ReportsOn(files, root, debugOverlay, parentPath, chain, merged, r);
  }

  /** The report on a chain that was resolved and merged. */
  ghost predicate ReportsOn(files: ProfileChain.Files, root: string, debugOverlay: bool,
      parentPath: ProfileChain.Resolver, chain: seq<Json>, merged: Json, r: map<string, Json>) {
    && ResolvedTo(files, root, debugOverlay, parentPath, chain)
    && AllObjects(chain) && merged == MergeAll(chain) && Covers(r, merged, "")
    && (Compatible(chain) ==> (ReportsMostDerived(r, chain) <==> ChainUnambiguous(chain)))
  }

  /** The chain is what the walk along `extends` returns, and the debug overlay after it. */
  ghost predicate ResolvedTo(files: ProfileChain.Files, root: string, debugOverlay: bool,
      parentPath: ProfileChain.Resolver, chain: seq<Json>) {
    exists ps :: ProfileChain.Resolve(files, root, {root}, parentPath) == ProfileChain.Chain(ps)
      && chain == if debugOverlay then ps + [ProfileChain.DebugOverlay] else ps
  }

  lemma LoadedChain(files: ProfileChain.Files, root: string, debugOverlay: bool, parentPath: ProfileChain.Resolver)
    returns (chain: seq<Json>)
    requires ProfileChain.Load(files, root, debugOverlay, parentPath).Profile?
    ensures ResolvedTo(files, root, debugOverlay, parentPath, chain) && AllObjects(chain)
    ensures ProfileChain.Load(files, root, debugOverlay, parentPath).merged == MergeAll(chain)
  {
    var ps := ProfileChain.Resolve(files, root, {root}, parentPath).profiles;
    chain := if debugOverlay then ps + [ProfileChain.DebugOverlay] else ps;
    ProfileChain.ChainOfObjects(files, root, {root}, parentPath);
  }
}
