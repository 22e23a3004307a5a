/**
 Loading a profile: version migration, the walk along `extends` with cycle detection, and the load as a
 whole.

 The file system is a finite map from absolute paths to file contents; `parentPath` resolves the
 `extends` entry of a file against the directory the file is in.
 */
module ProfileChain {
  import opened Common
  import opened ProfileMerge

  const VERSION_KEY := "profileVersion"
  const EXTENDS_KEY := "extends"
  const WEIGHT_KEY := "weight"

  type Files = map<string, Json>

  /** Where the parent of the file at `path` lies, given its `extends` entry. */
  type Resolver = (string, string) -> string

  datatype Result<+T> = Ok(value: T) | Unsupported | Malformed

  // ----- migration -----

  /** The profile's version; booleans count as 0 and 1, anything else is a type error. */
  function Version(p: Json): Option<real>
    requires p.Obj?
  {
    if VERSION_KEY !in p.fields then Some(1.0)
    else match p.fields[VERSION_KEY]
      case Num(n) => Some(n)
      case Bool(b) => Some(if b then 1.0 else 0.0)
      case _ => None
  }

  /** Python's `"weight" in phrase`: a key of an object, a part of a string, an element of a list. */
  predicate HasWeight(phrase: Json) {
    match phrase
    case Obj(fields) => WEIGHT_KEY in fields
    case Str(s) => Contains(s, WEIGHT_KEY)
    case List(items) => Str(WEIGHT_KEY) in items
    case _ => false
  }

  /** A missing weight can be set on an object only. */
  predicate Weighable(phrase: Json) {
    phrase.Obj? || HasWeight(phrase)
  }

  function WithWeight(phrase: Json): Json
    requires Weighable(phrase)
  {
    if HasWeight(phrase) then phrase else Obj(phrase.fields[WEIGHT_KEY := Num(1.0)])
  }

  predicate AllWeighable(items: seq<Json>) {
    forall i :: 0 <= i < |items| ==> Weighable(items[i])
  }

  function AllWithWeight(items: seq<Json>): (r: seq<Json>)
    requires AllWeighable(items)
    ensures |r| == |items| && forall i :: 0 <= i < |items| ==> r[i] == WithWeight(items[i])
  {
    seq(|items|, i requires 0 <= i < |items| => WithWeight(items[i]))
  }

  /**
   The loop over the wake phrases ends without a type error. Of an object it visits the keys and of a
   string the characters, none of which can be given a weight.
   */
  predicate Iterable(phrases: Json) {
    match phrases
    case List(items) => AllWeighable(items)
    case Obj(fields) => forall k :: k in fields ==> HasWeight(Str(k))
    case Str(s) => forall i :: 0 <= i < |s| ==> HasWeight(Str([s[i]]))
    case _ => false
  }

  /** The wake phrases are absent or can be gone through. */
  predicate PhrasesReadable(p: Json)
    requires p.Obj?
  {
    WAKE_PHRASES in p.fields ==> Iterable(p.fields[WAKE_PHRASES])
  }

  function Weighed(phrases: Json): Json
    requires Iterable(phrases)
  {
    if phrases.List? then List(AllWithWeight(phrases.items)) else phrases
  }

  /** `migrate_v1_to_v2`. */
  function MigrateV1(p: Json): (r: Json)
    requires p.Obj? && PhrasesReadable(p)
    ensures r.Obj?
  {
    var fields := if WAKE_PHRASES in p.fields
                  then p.fields[WAKE_PHRASES := Weighed(p.fields[WAKE_PHRASES])] else p.fields;
    Obj(fields[VERSION_KEY := Num(2.0)])
  }

  /** `apply_migrations`. */
  function Migrate(p: Json): (r: Result<Json>)
    ensures r.Ok? ==> r.value.Obj?
  {
    if !p.Obj? then Malformed
    else match Version(p)
      case None => Malformed
      case Some(v) =>
        if v == 2.0 then Ok(p)
        else if v != 1.0 then Unsupported
        else if PhrasesReadable(p) then Ok(MigrateV1(p)) else Malformed
  }

  /** The loop over a list of phrases. */
  method AddWeights(items: seq<Json>) returns (r: Option<seq<Json>>)
    ensures r == if AllWeighable(items) then Some(AllWithWeight(items)) else None
  {
    var done := [];
    for i := 0 to |items|
      invariant |done| == i && forall j :: 0 <= j < i ==> Weighable(items[j]) && done[j] == WithWeight(items[j])
    {
      var phrase := items[i];
      if !HasWeight(phrase) {
        if !phrase.Obj? { return None; }
        phrase := Obj(phrase.fields[WEIGHT_KEY := Num(1.0)]);
      }
      done := done + [phrase];
    }
    assert done == AllWithWeight(items);
    r := Some(done);
  }

  /** The loop over whatever stands under the wake phrases. */
  method WeighPhrases(phrases: Json) returns (r: Option<Json>)
    ensures r == if Iterable(phrases) then Some(Weighed(phrases)) else None
  {
    match phrases
    case List(items) =>
      var weighted := AddWeights(items);
      r := if weighted.Some? then Some(List(weighted.value)) else None;
    case Obj(fields) =>
      var todo := fields.Keys;
      while todo != {}
        invariant todo <= fields.Keys && forall k :: k in fields && k !in todo ==> HasWeight(Str(k))
        decreases |todo|
      {
        var k :| k in todo;
        if !HasWeight(Str(k)) { return None; }
        todo := todo - {k};
      }
      r := Some(phrases);
    case Str(s) =>
      for i := 0 to |s|
        invariant forall j :: 0 <= j < i ==> HasWeight(Str([s[j]]))
      {
        if !HasWeight(Str([s[i]])) { return None; }
      }
      r := Some(phrases);
    case _ =>
      r := None;
  }

  /** The loop over versions, with the one migration there is. */
  method ApplyMigrations(p: Json) returns (r: Result<Json>)
    ensures r == Migrate(p)
  {
    if !p.Obj? { return Malformed; }
    var first := Version(p);
    if first.None? { return Malformed; }
    var version := first.value;
    if version > 2.0 { return Unsupported; }
    var profile := p;
    while version < 2.0
      invariant (version == first.value && profile == p) || (version == 2.0 && Migrate(p) == Ok(profile))
      invariant version <= 2.0
      decreases version < 2.0
    {
      if version != 1.0 { return Unsupported; }
      var fields := profile.fields;
      if WAKE_PHRASES in fields {
        var weighted := WeighPhrases(fields[WAKE_PHRASES]);
        if weighted.None? { return Malformed; }
        fields := fields[WAKE_PHRASES := weighted.value];
      }
      profile := Obj(fields[VERSION_KEY := Num(2.0)]);
      version := 2.0;
    }
    r := Ok(profile);
  }

  /** Every phrase the loop visits has a weight already. */
  ghost predicate Weighted(p: Json) {
    && p.Obj? && PhrasesReadable(p)
    && (WAKE_PHRASES in p.fields ==> Weighed(p.fields[WAKE_PHRASES]) == p.fields[WAKE_PHRASES])
  }

  lemma KeysDiffer()
    ensures WAKE_PHRASES != VERSION_KEY && WAKE_PHRASES != EXTENDS_KEY && VERSION_KEY != EXTENDS_KEY
  {
  }

  /**
   A migrated profile has version 2 and the same parent. Its phrases are all weighted exactly when it
   came as version 1 or was weighted already: a version 2 file is never given the missing weights.
   */
  lemma MigratedProfile(p: Json)
    requires Migrate(p).Ok?
    ensures Version(Migrate(p).value) == Some(2.0)
    ensures Extends(Migrate(p).value) == Extends(p)
    ensures Weighted(Migrate(p).value) <==> Version(p) == Some(1.0) || Weighted(p)
  {
  }

  /** The gap: a version 2 profile with an unweighted phrase passes through unchanged. */
  lemma UnweightedStaysUnweighted()
    ensures var p := Obj(map[VERSION_KEY := Num(2.0), WAKE_PHRASES := List([Empty])]);
      Migrate(p) == Ok(p) && !Weighted(p)
  {
    KeysDiffer();
    var p := Obj(map[VERSION_KEY := Num(2.0), WAKE_PHRASES := List([Empty])]);
    assert p.fields[WAKE_PHRASES].items[0] == Empty;
  }

  // ----- inheritance -----

  function Extends(p: Json): Option<Json>
    requires p.Obj?
  {
    if EXTENDS_KEY in p.fields then Some(p.fields[EXTENDS_KEY]) else None
  }

  datatype Outcome =
    | Chain(profiles: seq<Json>)   // root ancestor first
    | Cycle(path: string)
    | Missing(path: string)
    | Bad(path: string)            // a file on the way that cannot be read or migrated

  /** Reads a file: migrated, and with an `extends` entry that is a string if there is one. */
  function Read(files: Files, path: string): (r: Option<Json>)
    ensures r.Some? ==> r.value.Obj?
  {
    if path in files && Migrate(files[path]).Ok? &&
       (Extends(Migrate(files[path]).value).Some? ==> Extends(Migrate(files[path]).value).value.Str?)
    then Some(Migrate(files[path]).value) else None
  }

  /** The parent of a readable file. */
  function Parent(files: Files, path: string, parentPath: Resolver): Option<string>
    requires Read(files, path).Some?
  {
    match Extends(Read(files, path).value)
    case None => None
    case Some(e) => if e.Str? then Some(parentPath(path, e.s)) else None
  }

  /** `resolve_inheritance` from a file that has been read, with the set of files visited. */
  function Resolve(files: Files, path: string, visited: set<string>, parentPath: Resolver): Outcome
    decreases files.Keys - visited
  {
    match Read(files, path)
    case None => Bad(path)
    case Some(profile) =>
      match Parent(files, path, parentPath)
      case None => Chain([profile])
      case Some(parent) =>
        if parent in visited then Cycle(parent)
        else if parent !in files then Missing(parent)
        else
          match Resolve(files, parent, visited + {parent}, parentPath)
          case Chain(ps) => Chain(ps + [profile])
          case other => other
  }

  method ReadFile(files: Files, path: string) returns (r: Option<Json>)
    ensures r == Read(files, path)
  {
    if path !in files { return None; }
    var m := ApplyMigrations(files[path]);
    if !m.Ok? { return None; }
    var e := Extends(m.value);
    if e.Some? && !e.value.Str? { return None; }
    r := Some(m.value);
  }

  /** The loop: the chain grows at the front, the visited set by every parent looked at. */
  method ResolveInheritance(files: Files, root: string, parentPath: Resolver) returns (r: Outcome)
    requires root in files
    ensures r == Resolve(files, root, {root}, parentPath)
  {
    var start := ReadFile(files, root);
    if start.None? { return Bad(root); }
    var chain, current, profile, visited := [start.value], root, start.value, {root};
    while Extends(profile).Some?
      invariant profile.Obj? && Read(files, current) == Some(profile) && chain != [] && chain[0] == profile
      invariant Prepended(Resolve(files, current, visited, parentPath), chain[1..])
             == Resolve(files, root, {root}, parentPath)
      decreases files.Keys - visited
    {
      var parent := parentPath(current, Extends(profile).value.s);
      if parent in visited { return Cycle(parent); }
      if parent !in files { return Missing(parent); }
      var read := ReadFile(files, parent);
      if read.None? { return Bad(parent); }
      assert files.Keys - (visited + {parent}) < files.Keys - visited by {
        assert parent in files.Keys - visited;
      }
      PrependedTwice(Resolve(files, parent, visited + {parent}, parentPath), profile, chain[1..]);
      assert [profile] + chain[1..] == chain;
      visited := visited + {parent};
      chain := [read.value] + chain;
      current, profile := parent, read.value;
    }
    assert [profile] + chain[1..] == chain;
    r := Chain(chain);
  }

  /** The outcome when the files after it in the walk are already known. */
  function Prepended(o: Outcome, rest: seq<Json>): Outcome {
    match o
    case Chain(ps) => Chain(ps + rest)
    case other => other
  }

  lemma PrependedTwice(o: Outcome, profile: Json, rest: seq<Json>)
    ensures Prepended(Prepended(o, [profile]), rest) == Prepended(o, [profile] + rest)
  {
  }

  // ----- trails: the walk, independent of the algorithm -----

  /** Distinct readable files, each the parent of the one before. */
  ghost predicate Trail(files: Files, t: seq<string>, parentPath: Resolver) {
    && t != []
    && (forall i :: 0 <= i < |t| ==> Read(files, t[i]).Some?)
    && (forall i :: 0 <= i < |t| - 1 ==> Parent(files, t[i], parentPath) == Some(t[i + 1]))
    && forall i, j :: 0 <= i < j < |t| ==> t[i] != t[j]
  }

  ghost function PathSet(t: seq<string>): set<string> {
    set p | p in t
  }

  /** The migrated profiles of a trail, root ancestor first. */
  ghost function Profiles(files: Files, t: seq<string>): seq<Json>
    requires forall i :: 0 <= i < |t| ==> Read(files, t[i]).Some?
  {
    seq(|t|, i requires 0 <= i < |t| => Read(files, t[|t| - 1 - i]).value)
  }

  /** The outcome a trail justifies by what lies beyond its last file. */
  ghost predicate Justifies(files: Files, t: seq<string>, parentPath: Resolver, o: Outcome)
    requires Trail(files, t, parentPath)
  {
    var next := Parent(files, t[|t| - 1], parentPath);
    match o
    case Chain(ps) => next == None && ps == Profiles(files, t)
    case Cycle(p) => next == Some(p) && p in t
    case Missing(p) => next == Some(p) && p !in t && p !in files
    case Bad(p) => next == Some(p) && p !in t && p in files && Read(files, p).None?
  }

  lemma ProfilesFront(files: Files, t: seq<string>, k: nat)
    requires k + 1 < |t| && forall i :: 0 <= i < |t| ==> Read(files, t[i]).Some?
    ensures Profiles(files, t[k..]) == Profiles(files, t[k + 1..]) + [Read(files, t[k]).value]
  {
  }

  /** A trail that ends somewhere determines what the resolution returns from each of its files. */
  lemma {:induction false} TrailDecides(files: Files, t: seq<string>, k: nat, parentPath: Resolver, o: Outcome)
    requires Trail(files, t, parentPath) && k < |t| && Justifies(files, t, parentPath, o)
    ensures Resolve(files, t[k], PathSet(t[..k + 1]), parentPath)
         == if o.Chain? then Chain(Profiles(files, t[k..])) else o
    decreases |t| - k
  {
    if k + 1 < |t| {
      TrailDecides(files, t, k + 1, parentPath, o);
      assert t[k + 1] !in t[..k + 1] && t[k + 1] in files;
      assert PathSet(t[..k + 2]) == PathSet(t[..k + 1]) + {t[k + 1]};
      ProfilesFront(files, t, k);
    } else {
      assert t[..k + 1] == t;
      assert Profiles(files, t[k..]) == [Read(files, t[k]).value];
      if o.Bad? {
        assert Resolve(files, o.path, PathSet(t) + {o.path}, parentPath) == Bad(o.path);
      }
    }
  }

  /** Every resolution is justified by a trail. */
  lemma {:induction false} TrailExists(files: Files, t: seq<string>, parentPath: Resolver)
    returns (full: seq<string>, o: Outcome)
    requires Trail(files, t, parentPath)
    ensures t <= full && Trail(files, full, parentPath) && Justifies(files, full, parentPath, o)
    decreases files.Keys - PathSet(t)
  {
    var last := t[|t| - 1];
    match Parent(files, last, parentPath)
    case None => full, o := t, Chain(Profiles(files, t));
    case Some(parent) =>
      if parent in t {
        full, o := t, Cycle(parent);
      } else if parent !in files {
        full, o := t, Missing(parent);
      } else if Read(files, parent).None? {
        full, o := t, Bad(parent);
      } else {
        var longer := t + [parent];
        assert PathSet(longer) == PathSet(t) + {parent};
        assert parent in files.Keys - PathSet(t);
        full, o := TrailExists(files, longer, parentPath);
      }
  }

  /**
   From a readable root the resolution returns an outcome exactly when some trail from that root
   justifies it: a repeat-free chain of migrated profiles linked by `extends`, the first file revisited,
   the first absent parent, or the first unreadable one. There always is one, so it is the only one.
   */
  lemma ResolutionIsTheTrail(files: Files, root: string, parentPath: Resolver, o: Outcome)
    requires Read(files, root).Some?
    ensures Resolve(files, root, {root}, parentPath) == o
       <==> exists t :: Trail(files, t, parentPath) && t[0] == root && Justifies(files, t, parentPath, o)
  {
    assert Trail(files, [root], parentPath);
    var full, out := TrailExists(files, [root], parentPath);
    StartDecides(files, full, root, parentPath, out);
    if t :| Trail(files, t, parentPath) && t[0] == root && Justifies(files, t, parentPath, o) {
      StartDecides(files, t, root, parentPath, o);
    }
  }

  lemma StartDecides(files: Files, t: seq<string>, root: string, parentPath: Resolver, o: Outcome)
    requires Trail(files, t, parentPath) && t[0] == root && Justifies(files, t, parentPath, o)
    ensures Resolve(files, root, {root}, parentPath) == o
  {
    TrailDecides(files, t, 0, parentPath, o);
    assert t[..1] == [root] && PathSet([root]) == {root};
    assert t[0..] == t;
  }

  // ----- the whole load -----

  const DebugOverlay :=
    Obj(map["transcription" := Obj(map["enableDebug" := Bool(true)]),
            "diagnostics" := Obj(map["enableInternalTrace" := Bool(true)])])

  datatype Loaded = Profile(merged: Json) | Failed(why: Outcome)

  /** The chain merged, with the debug overlay over it; or the failure of the walk. */
  ghost function Load(files: Files, root: string, debugOverlay: bool, parentPath: Resolver): Loaded {
    if root !in files then Failed(Missing(root))
    else
      match Resolve(files, root, {root}, parentPath)
      case Chain(ps) =>
        ChainOfObjects(files, root, {root}, parentPath);
        Profile(MergeAll(if debugOverlay then ps + [DebugOverlay] else ps))
      case other => Failed(other)
  }

  /** `load_profile`. */
  method LoadProfile(files: Files, root: string, debugOverlay: bool, parentPath: Resolver) returns (r: Loaded)
    ensures r == Load(files, root, debugOverlay, parentPath)
  {
    if root !in files { return Failed(Missing(root)); }
    var o := ResolveInheritance(files, root, parentPath);
    if !o.Chain? { return Failed(o); }
    ChainOfObjects(files, root, {root}, parentPath);
    var chain := o.profiles;
    if debugOverlay { chain := chain + [DebugOverlay]; }
    var merged := MergeProfiles(chain);
    r := Profile(merged);
  }

  lemma {:induction false} ChainOfObjects(files: Files, path: string, visited: set<string>, parentPath: Resolver)
    ensures var o := Resolve(files, path, visited, parentPath); o.Chain? ==> AllObjects(o.profiles) && o.profiles != []
    decreases files.Keys - visited
  {
    if Read(files, path).Some? {
      match Parent(files, path, parentPath)
      case None =>
      case Some(parent) =>
        if parent !in visited && parent in files { ChainOfObjects(files, parent, visited + {parent}, parentPath); }
    }
  }
}
