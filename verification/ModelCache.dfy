/**
 Model verification with a checksum cache, and verified download with retry (`ModelManager`).

 All verifications of one manifest run concurrently. Each is atomic up to the hashing of its file and
 atomic again from there, so an interleaving is a schedule of those two sections. SHA-256 is the
 function `sha`; `contentOf` says what a file of given name, size and modification time contains, and
 `manifestOf` which manifest has a given hash, so that different manifests have different hashes.

 Main results: over every history that starts with an empty checksum file, cached verification answers
 what hashing would and loses no entry (`CachedVerificationIsHashing`), and a normal return of
 `verifyOrDownload` means that every manifest model has its hash (`NormalReturnMeansGenuine`); for any
 manifest and any cache, when exactly that fails (`AnswersGenuineIff`, `EntriesCurrentIff`).
 */
module ModelCache {
  import opened Common

  datatype Env = Env(
    sha: string -> string,
    contentOf: (string, nat, nat) -> string,
    manifestOf: string -> seq<Model>)

  datatype File = File(content: string, size: nat, mtime: nat)

  datatype Model = Model(id: string, target: string, sha256: string)

  /** `${manifestHash}_${size}_${mtime}`. */
  datatype Key = Key(manifest: string, size: nat, mtime: nat)

  datatype Entry = Entry(key: Key, hash: string)

  /** The checksum file: hashes recorded at download, and the verification cache by model id. */
  datatype Checksums = Checksums(files: map<string, string>, cache: map<string, Entry>)

  /** The model directory and the checksum file. */
  datatype Store = Store(disk: map<string, File>, sums: Checksums)

  datatype Task = Waiting | Hashing(key: Key) | Done(ok: bool)

  const UNKNOWN_MANIFEST := "unknown"
  const ATTEMPTS := 3

  predicate Genuine(st: Store, m: Model, env: Env) {
    m.target in st.disk && env.sha(st.disk[m.target].content) == m.sha256
  }

  function KeyFor(manifest: string, f: File): Key {
    Key(manifest, f.size, f.mtime)
  }

  // ----- one verification, in its two sections -----

  /** Up to the hashing: a missing file fails, a current cache entry answers, otherwise hash. */
  function Begin(st: Store, m: Model, manifest: string): Task {
    if m.target !in st.disk then Done(false)
    else
      var key := KeyFor(manifest, st.disk[m.target]);
      if m.id in st.sums.cache && st.sums.cache[m.id].key == key then Done(st.sums.cache[m.id].hash == m.sha256)
      else Hashing(key)
  }

  /** After the hashing: the checksum file is read again, one entry set, and written back. */
  function Finish(st: Store, m: Model, key: Key, hash: string): (Store, Task) {
    (st.(sums := st.sums.(cache := st.sums.cache[m.id := Entry(key, hash)])), Done(hash == m.sha256))
  }

  datatype Verification = Verification(st: Store, tasks: seq<Task>)

  function Step(v: Verification, models: seq<Model>, manifest: string, env: Env, i: nat): Verification
    requires |v.tasks| == |models|
  {
    if i >= |models| then v
    else match v.tasks[i]
      case Waiting => v.(tasks := v.tasks[i := Begin(v.st, models[i], manifest)])
      case Hashing(key) =>
        if models[i].target !in v.st.disk then v
        else
          var (st, t) := Finish(v.st, models[i], key, env.sha(v.st.disk[models[i].target].content));
          Verification(st, v.tasks[i := t])
      case Done(_) => v
  }

  function Exec(v: Verification, models: seq<Model>, manifest: string, env: Env, schedule: seq<nat>): (r: Verification)
    requires |v.tasks| == |models|
    ensures |r.tasks| == |models|
    decreases |schedule|
  {
    if schedule == [] then v
    else Exec(Step(v, models, manifest, env, schedule[0]), models, manifest, env, schedule[1..])
  }

  predicate AllDone(tasks: seq<Task>) {
    forall i :: 0 <= i < |tasks| ==> tasks[i].Done?
  }

  function AllWaiting(n: nat): (ts: seq<Task>)
    ensures |ts| == n && forall i :: 0 <= i < n ==> ts[i] == Waiting
  {
    seq(n, _ => Waiting)
  }

  // ----- download -----

  /** One attempt; `fetched` is what arrived in the temporary file, if anything did. */
  function Download(st: Store, m: Model, fetched: Option<File>, env: Env): (Store, bool) {
    if fetched.None? || env.sha(fetched.value.content) != m.sha256 then (st, false)
    else
      var f := fetched.value;
      (Store(st.disk[m.target := f],
             Checksums(st.sums.files["models/" + m.id := m.sha256],
                       st.sums.cache[m.id := Entry(KeyFor(UNKNOWN_MANIFEST, f), m.sha256)])), true)
  }

  function Retry(st: Store, m: Model, fetches: seq<Option<File>>, env: Env): (Store, bool)
    decreases |fetches|
  {
    if fetches == [] then (st, false)
    else
      var (st1, ok) := Download(st, m, fetches[0], env);
      if ok then (st1, true) else Retry(st1, m, fetches[1..], env)
  }

  /** The failed models one after the other; the first that cannot be downloaded stops the run. */
  function DownloadAll(st: Store, missing: seq<Model>, fetches: seq<seq<Option<File>>>, env: Env): (Store, bool)
    requires |fetches| == |missing|
    decreases |missing|
  {
    if missing == [] then (st, true)
    else
      var (st1, ok) := Retry(st, missing[0], fetches[0], env);
      if ok then DownloadAll(st1, missing[1..], fetches[1..], env) else (st1, false)
  }

  /** The models whose verification answered no, in manifest order. */
  function Failed(models: seq<Model>, tasks: seq<Task>): seq<Model>
    requires |tasks| == |models|
  {
    if models == [] then []
    else Failed(models[..|models| - 1], tasks[..|models| - 1]) +
         if tasks[|models| - 1] == Done(true) then [] else [models[|models| - 1]]
  }

  class ModelManager {
    const env: Env
    var disk: map<string, File>
    var checksums: Checksums

    ghost function Value(): Store
      reads this
    {
      Store(disk, checksums)
    }

    constructor (env: Env, disk: map<string, File>, checksums: Checksums)
      ensures this.env == env && Value() == Store(disk, checksums)
    {
      this.env, this.disk, this.checksums := env, disk, checksums;
    }

    /** `verify_model` up to its `await`. */
    method BeginVerify(m: Model, manifest: string) returns (t: Task)
      ensures t == Begin(Value(), m, manifest)
    {
      if m.target !in disk { return Done(false); }
      var stat := disk[m.target];
      var key := Key(manifest, stat.size, stat.mtime);
      var cache := checksums.cache;
      if m.id in cache && cache[m.id].key == key {
        return Done(cache[m.id].hash == m.sha256);
      }
      t := Hashing(key);
    }

    /** `verify_model` from its `await` on. */
    method FinishVerify(m: Model, key: Key, hash: string) returns (t: Task)
      modifies this`checksums
      ensures (Value(), t) == Finish(old(Value()), m, key, hash)
    {
      var latest := checksums;
      latest := latest.(cache := latest.cache[m.id := Entry(key, hash)]);
      checksums := latest;
      t := Done(hash == m.sha256);
    }

    /** Runs the verifications of a manifest in the order the schedule resumes them. */
    method VerifyAll(models: seq<Model>, manifest: string, schedule: seq<nat>) returns (tasks: seq<Task>)
      modifies this`checksums
      ensures Verification(Value(), tasks)
           == Exec(Verification(old(Value()), AllWaiting(|models|)), models, manifest, env, schedule)
    {
      tasks := AllWaiting(|models|);
      for n := 0 to |schedule|
        invariant |tasks| == |models|
        invariant Exec(Verification(Value(), tasks), models, manifest, env, schedule[n..])
               == Exec(Verification(old(Value()), AllWaiting(|models|)), models, manifest, env, schedule)
      {
        assert schedule[n..][1..] == schedule[n + 1..];
        var i := schedule[n];
        if i < |models| {
          match tasks[i]
          case Waiting =>
            var t := BeginVerify(models[i], manifest);
            tasks := tasks[i := t];
          case Hashing(key) =>
            if models[i].target in disk {
              var t := FinishVerify(models[i], key, env.sha(disk[models[i].target].content));
              tasks := tasks[i := t];
            }
          case Done(_) =>
        }
      }
    }

    method DownloadModel(m: Model, fetched: Option<File>) returns (ok: bool)
      modifies this
      ensures (Value(), ok) == Download(old(Value()), m, fetched, env)
    {
      if fetched.None? { return false; }
      var temp := fetched.value;
      if env.sha(temp.content) != m.sha256 { return false; }
      disk := disk[m.target := temp];
      checksums := checksums.(cache := checksums.cache[m.id := Entry(KeyFor(UNKNOWN_MANIFEST, temp), m.sha256)]);
      checksums := checksums.(files := checksums.files["models/" + m.id := m.sha256]);
      ok := true;
    }

    method RetryDownload(m: Model, fetches: seq<Option<File>>) returns (ok: bool)
      modifies this
      ensures (Value(), ok) == Retry(old(Value()), m, fetches, env)
    {
      ok := false;
      for attempt := 0 to |fetches|
        invariant Retry(Value(), m, fetches[attempt..], env) == Retry(old(Value()), m, fetches, env)
        invariant !ok
      {
        ok := DownloadModel(m, fetches[attempt]);
        if ok { return; }
      }
    }

    /** `verifyOrDownload`: verify everything, then download what failed. */
    method VerifyOrDownload(models: seq<Model>, manifest: string, schedule: seq<nat>, fetches: seq<seq<Option<File>>>)
      returns (ok: bool, ghost tasks: seq<Task>)
      requires var v := Exec(Verification(Value(), AllWaiting(|models|)), models, manifest, env, schedule);
        |fetches| == |Failed(models, v.tasks)|
      requires forall i :: 0 <= i < |fetches| ==> |fetches[i]| == ATTEMPTS
      modifies this
      ensures var v := Exec(Verification(old(Value()), AllWaiting(|models|)), models, manifest, env, schedule);
        tasks == v.tasks && (Value(), ok) == DownloadAll(v.st, Failed(models, v.tasks), fetches, env)
    {
      var results := VerifyAll(models, manifest, schedule);
      tasks := results;
      var missing := [];
      for i := 0 to |models|
        invariant missing == Failed(models[..i], results[..i])
      {
        assert models[..i + 1][..i] == models[..i] && results[..i + 1][..i] == results[..i];
        if results[i] != Done(true) { missing := missing + [models[i]]; }
      }
      assert models[..|models|] == models && results[..|models|] == results;
      ghost var st := Value();
      for i := 0 to |missing|
        invariant DownloadAll(Value(), missing[i..], fetches[i..], env) == DownloadAll(st, missing, fetches, env)
      {
        var done := RetryDownload(missing[i], fetches[i]);
        assert missing[i..][1..] == missing[i + 1..] && fetches[i..][1..] == fetches[i + 1..];
        if !done { return false, tasks; }
      }
      ok := true;
    }
  }

  /** A store with model files but nothing recorded about them yet. */
  function Unrecorded(disk: map<string, File>): Store {
    Store(disk, Checksums(map[], map[]))
  }

  // ----- one batch of verifications, whatever the manifest and the cache -----

  ghost predicate Present(st: Store, m: Model) {
    m.target in st.disk
  }

  /** The entry that hashing the model's file writes. */
  ghost function Truth(st: Store, m: Model, manifest: string, env: Env): Entry
    requires Present(st, m)
  {
    Entry(KeyFor(manifest, st.disk[m.target]), env.sha(st.disk[m.target].content))
  }

  /** The cache holds the current key and hash of the model's file, if the file exists. */
  ghost predicate EntryCurrent(st: Store, m: Model, manifest: string, env: Env) {
    Present(st, m) ==> m.id in st.sums.cache && st.sums.cache[m.id] == Truth(st, m, manifest, env)
  }

  ghost predicate HasId(models: seq<Model>, id: string) {
    exists i :: 0 <= i < |models| && models[i].id == id
  }

  /** The verifications write nothing but cache entries of manifest models. */
  ghost predicate OthersKept(before: Store, after: Store, models: seq<Model>) {
    && after.disk == before.disk
    && after.sums.files == before.sums.files
    && (forall id :: id in before.sums.cache ==> id in after.sums.cache)
    && forall id :: id in after.sums.cache && !HasId(models, id) ==>
         id in before.sums.cache && after.sums.cache[id] == before.sums.cache[id]
  }

  /** What holds from the start of a batch on, with no hypothesis about manifest or cache. */
  ghost predicate Running(v: Verification, before: Store, models: seq<Model>, manifest: string) {
    && |v.tasks| == |models|
    && OthersKept(before, v.st, models)
    && forall i :: 0 <= i < |models| && v.tasks[i].Hashing? ==>
         Present(v.st, models[i]) && v.tasks[i].key == KeyFor(manifest, v.st.disk[models[i].target])
  }

  function Batch(st: Store, models: seq<Model>, manifest: string, env: Env, schedule: seq<nat>): (r: Verification)
    ensures |r.tasks| == |models|
  {
    Exec(Verification(st, AllWaiting(|models|)), models, manifest, env, schedule)
  }

  lemma StepRunning(v: Verification, before: Store, models: seq<Model>, i: nat, manifest: string, env: Env)
    requires Running(v, before, models, manifest)
    ensures Running(Step(v, models, manifest, env, i), before, models, manifest)
  {
    if i < |models| { assert HasId(models, models[i].id); }
  }

  lemma {:induction false} ExecRunning(
      v: Verification, before: Store, models: seq<Model>, manifest: string, env: Env, schedule: seq<nat>)
    requires Running(v, before, models, manifest)
    ensures Running(Exec(v, models, manifest, env, schedule), before, models, manifest)
    decreases |schedule|
  {
    if schedule == [] {
    } else {
      StepRunning(v, before, models, schedule[0], manifest, env);
      ExecRunning(Step(v, models, manifest, env, schedule[0]), before, models, manifest, env, schedule[1..]);
    }
  }

  function Rank(t: Task): int {
    if t.Waiting? then 2 else if t.Hashing? then 1 else 0
  }

  function Turns(schedule: seq<nat>, i: nat): nat {
    if schedule == [] then 0 else (if schedule[0] == i then 1 else 0) + Turns(schedule[1..], i)
  }

  /** Every turn moves its verification forward. */
  lemma {:induction false} TurnsProgress(
      v: Verification, before: Store, models: seq<Model>, manifest: string, env: Env, schedule: seq<nat>, i: nat)
    requires Running(v, before, models, manifest) && i < |models|
    ensures var r := Rank(Exec(v, models, manifest, env, schedule).tasks[i]);
      r == 0 || r <= Rank(v.tasks[i]) - Turns(schedule, i)
    decreases |schedule|
  {
    if schedule == [] {
    } else {
      StepRunning(v, before, models, schedule[0], manifest, env);
      TurnsProgress(Step(v, models, manifest, env, schedule[0]), before, models, manifest, env, schedule[1..], i);
    }
  }

  /** Two turns finish a verification, whatever the others do in between and whatever is cached. */
  lemma TwoTurnsFinish(st: Store, models: seq<Model>, manifest: string, env: Env, schedule: seq<nat>)
    requires forall i :: 0 <= i < |models| ==> Turns(schedule, i) >= 2
    ensures AllDone(Batch(st, models, manifest, env, schedule).tasks)
  {
    forall i | 0 <= i < |models| ensures Batch(st, models, manifest, env, schedule).tasks[i].Done? {
      TurnsProgress(Verification(st, AllWaiting(|models|)), st, models, manifest, env, schedule, i);
    }
  }

  // ----- when the answers are right and no entry is lost -----

  /** There is a cache entry under the model's id with the current key of its file. */
  ghost predicate Cached(st: Store, m: Model, manifest: string) {
    Present(st, m) && m.id in st.sums.cache && st.sums.cache[m.id].key == KeyFor(manifest, st.disk[m.target])
  }

  /** A cache entry with the current key of a model's file holds that file's hash. */
  ghost predicate CacheCurrent(st: Store, models: seq<Model>, manifest: string, env: Env) {
    forall i :: 0 <= i < |models| && Cached(st, models[i], manifest) ==>
      st.sums.cache[models[i].id] == Truth(st, models[i], manifest, env)
  }

  ghost predicate SameId(st: Store, models: seq<Model>, i: int, j: int) {
    && 0 <= i < |models| && 0 <= j < |models|
    && models[i].id == models[j].id && Present(st, models[i]) && Present(st, models[j])
  }

  /** Models under one id whose files exist would write the same entry. */
  ghost predicate OneEntryPerId(st: Store, models: seq<Model>, manifest: string, env: Env) {
    forall i, j :: SameId(st, models, i, j) ==>
      Truth(st, models[i], manifest, env) == Truth(st, models[j], manifest, env)
  }

  /** Two models under one id and one cache key, so that the entry of one answers for the other. */
  ghost predicate Twins(st: Store, models: seq<Model>, i: int, j: int, manifest: string) {
    && SameId(st, models, i, j)
    && KeyFor(manifest, st.disk[models[i].target]) == KeyFor(manifest, st.disk[models[j].target])
  }

  /**
   Model `i` is never hashed: the cache has an entry with its key, and no model under its id has another
   key and could replace that entry.
   */
  ghost predicate Pinned(st: Store, models: seq<Model>, i: int, manifest: string) {
    && 0 <= i < |models|
    && Cached(st, models[i], manifest)
    && forall k :: SameId(st, models, i, k) ==> Twins(st, models, i, k, manifest)
  }

  /** The entry of model `i` would answer `ok` for model `j`, and hashing the file of `j` the opposite. */
  ghost predicate Misleads(st: Store, models: seq<Model>, i: int, j: int, ok: bool, manifest: string, env: Env) {
    && Twins(st, models, i, j, manifest)
    && (Truth(st, models[i], manifest, env).hash == models[j].sha256) == ok
    && (Truth(st, models[j], manifest, env).hash == models[j].sha256) != ok
  }

  /** The cache as it is answers `ok` for model `j`. */
  ghost predicate CacheSays(st: Store, models: seq<Model>, j: int, ok: bool, manifest: string) {
    && 0 <= j < |models| && Cached(st, models[j], manifest)
    && (st.sums.cache[models[j].id].hash == models[j].sha256) == ok
  }

  /** The answer `ok` can be relied on: no entry there is gives it wrongly, and none that can be written. */
  ghost predicate Reliable(st: Store, models: seq<Model>, ok: bool, manifest: string, env: Env) {
    && (forall j :: CacheSays(st, models, j, ok, manifest) ==>
          (Truth(st, models[j], manifest, env).hash == models[j].sha256) == ok)
    && (forall i, j :: Misleads(st, models, i, j, ok, manifest, env) ==> Pinned(st, models, i, manifest))
  }

  // ----- where entries and answers come from -----

  /** An entry is the one the cache held under the id at the start, or was written for a model not pinned. */
  ghost predicate Sourced(st: Store, models: seq<Model>, id: string, e: Entry, manifest: string, env: Env) {
    || (id in st.sums.cache && st.sums.cache[id] == e)
    || exists k :: Writes(st, models, k, id, e, manifest, env)
  }

  ghost predicate Writes(st: Store, models: seq<Model>, k: int, id: string, e: Entry, manifest: string, env: Env) {
    && 0 <= k < |models| && models[k].id == id && Present(st, models[k])
    && !Pinned(st, models, k, manifest)
    && e == Truth(st, models[k], manifest, env)
  }

  /** An answer comes from the absence of the file, from its hash, or from an entry with its key. */
  ghost predicate AnswerSourced(st: Store, models: seq<Model>, m: Model, ok: bool, manifest: string, env: Env) {
    if !Present(st, m) then !ok
    else
      || ok == (Truth(st, m, manifest, env).hash == m.sha256)
      || exists e :: FromEntry(st, models, m, ok, e, manifest, env)
  }

  ghost predicate FromEntry(st: Store, models: seq<Model>, m: Model, ok: bool, e: Entry, manifest: string, env: Env)
    requires Present(st, m)
  {
    && Sourced(st, models, m.id, e, manifest, env)
    && e.key == KeyFor(manifest, st.disk[m.target])
    && ok == (e.hash == m.sha256)
  }

  /** Every entry and answer of a batch that started in `st` has one of these sources. */
  ghost predicate Explained(st: Store, v: Verification, models: seq<Model>, manifest: string, env: Env)
    requires |v.tasks| == |models|
  {
    && v.st.disk == st.disk
    && (forall j :: 0 <= j < |models| && models[j].id in v.st.sums.cache ==>
          Sourced(st, models, models[j].id, v.st.sums.cache[models[j].id], manifest, env))
    && (forall j :: 0 <= j < |models| && v.tasks[j].Hashing? ==>
          Present(st, models[j]) && !Pinned(st, models, j, manifest))
    && (forall j :: 0 <= j < |models| && v.tasks[j].Done? ==>
          AnswerSourced(st, models, models[j], v.tasks[j].ok, manifest, env))
  }

  /** If nothing else is ever written under an id, what has been verified stays in the cache. */
  ghost predicate Kept(st: Store, v: Verification, models: seq<Model>, manifest: string, env: Env)
    requires |v.tasks| == |models|
  {
    OneEntryPerId(st, models, manifest, env) && CacheCurrent(st, models, manifest, env) ==>
      forall j :: 0 <= j < |models| && v.tasks[j].Done? ==> EntryCurrent(v.st, models[j], manifest, env)
  }

  lemma SameDisk(st: Store, st': Store, m: Model, manifest: string, env: Env)
    requires st.disk == st'.disk
    ensures Present(st, m) <==> Present(st', m)
    ensures Present(st, m) ==> Truth(st, m, manifest, env) == Truth(st', m, manifest, env)
  {
  }

  /** While a model is pinned, the entry under its id is the one from the start. */
  lemma PinnedEntryStays(st: Store, models: seq<Model>, i: nat, e: Entry, manifest: string, env: Env)
    requires Pinned(st, models, i, manifest) && Sourced(st, models, models[i].id, e, manifest, env)
    ensures e == st.sums.cache[models[i].id]
  {
    forall k | Writes(st, models, k, models[i].id, e, manifest, env) ensures false {
      assert SameId(st, models, i, k) && Twins(st, models, i, k, manifest);
      forall n | SameId(st, models, k, n) ensures Twins(st, models, k, n, manifest) {
        assert SameId(st, models, i, n) && Twins(st, models, i, n, manifest);
      }
      assert Pinned(st, models, k, manifest);
    }
  }

  /** With one entry per id and a current cache, any entry with the key of a model's file is that file's. */
  lemma SourceIsTruth(st: Store, models: seq<Model>, i: nat, e: Entry, manifest: string, env: Env)
    requires OneEntryPerId(st, models, manifest, env) && CacheCurrent(st, models, manifest, env)
    requires i < |models| && Present(st, models[i]) && Sourced(st, models, models[i].id, e, manifest, env)
    requires e.key == KeyFor(manifest, st.disk[models[i].target])
    ensures e == Truth(st, models[i], manifest, env)
  {
    if models[i].id in st.sums.cache && st.sums.cache[models[i].id] == e {
      assert Cached(st, models[i], manifest);
    } else {
      var k :| Writes(st, models, k, models[i].id, e, manifest, env);
      assert SameId(st, models, k, i);
    }
  }

  /** What a verification does up to its hashing. */
  lemma BeginSourced(st: Store, v: Verification, models: seq<Model>, i: nat, manifest: string, env: Env)
    requires Running(v, st, models, manifest) && Explained(st, v, models, manifest, env) && i < |models|
    ensures var t := Begin(v.st, models[i], manifest);
      && (t.Hashing? ==> Present(st, models[i]) && !Pinned(st, models, i, manifest))
      && (t.Done? ==> AnswerSourced(st, models, models[i], t.ok, manifest, env))
  {
    var m, t := models[i], Begin(v.st, models[i], manifest);
    if t.Done? && Present(st, m) {
      assert FromEntry(st, models, m, t.ok, v.st.sums.cache[m.id], manifest, env);
    }
    if Pinned(st, models, i, manifest) {
      PinnedEntryStays(st, models, i, v.st.sums.cache[m.id], manifest, env);
    }
  }

  lemma BeginExplained(st: Store, v: Verification, models: seq<Model>, i: nat, manifest: string, env: Env)
    requires Running(v, st, models, manifest) && Explained(st, v, models, manifest, env)
    requires i < |models| && v.tasks[i].Waiting?
    ensures Explained(st, Step(v, models, manifest, env, i), models, manifest, env)
  {
    BeginSourced(st, v, models, i, manifest, env);
    var v' := Step(v, models, manifest, env, i);
    assert v'.st == v.st && v'.tasks == v.tasks[i := Begin(v.st, models[i], manifest)];
  }

  lemma BeginKept(st: Store, v: Verification, models: seq<Model>, i: nat, manifest: string, env: Env)
    requires |v.tasks| == |models| && Explained(st, v, models, manifest, env) && Kept(st, v, models, manifest, env)
    requires i < |models| && v.tasks[i].Waiting?
    ensures Kept(st, Step(v, models, manifest, env, i), models, manifest, env)
  {
    var m, v' := models[i], Step(v, models, manifest, env, i);
    assert v'.st == v.st && v'.tasks == v.tasks[i := Begin(v.st, m, manifest)];
    SameDisk(st, v.st, m, manifest, env);
    if OneEntryPerId(st, models, manifest, env) && CacheCurrent(st, models, manifest, env) {
      if v'.tasks[i].Done? && Present(st, m) {
        SourceIsTruth(st, models, i, v.st.sums.cache[m.id], manifest, env);
      }
    }
  }

  lemma FinishExplained(st: Store, v: Verification, models: seq<Model>, i: nat, manifest: string, env: Env)
    requires Running(v, st, models, manifest) && Explained(st, v, models, manifest, env)
    requires i < |models| && v.tasks[i].Hashing?
    ensures Explained(st, Step(v, models, manifest, env, i), models, manifest, env)
  {
    var v', m := Step(v, models, manifest, env, i), models[i];
    SameDisk(st, v.st, m, manifest, env);
    var e := Truth(st, m, manifest, env);
    assert v'.st.sums.cache == v.st.sums.cache[m.id := e];
    assert Writes(st, models, i, m.id, e, manifest, env);
  }

  lemma FinishKept(st: Store, v: Verification, models: seq<Model>, i: nat, manifest: string, env: Env)
    requires Running(v, st, models, manifest) && Kept(st, v, models, manifest, env)
    requires i < |models| && v.tasks[i].Hashing?
    ensures Kept(st, Step(v, models, manifest, env, i), models, manifest, env)
  {
    var v', m := Step(v, models, manifest, env, i), models[i];
    if OneEntryPerId(st, models, manifest, env) && CacheCurrent(st, models, manifest, env) {
      forall j | 0 <= j < |models| && v'.tasks[j].Done? ensures EntryCurrent(v'.st, models[j], manifest, env) {
        SameDisk(st, v'.st, models[j], manifest, env);
        SameDisk(st, v.st, m, manifest, env);
        if j != i { assert EntryCurrent(v.st, models[j], manifest, env); }
        if Present(st, models[j]) && models[j].id == m.id { assert SameId(st, models, i, j); }
      }
    }
  }

  lemma {:induction false} ExecExplained(
      st: Store, v: Verification, models: seq<Model>, manifest: string, env: Env, schedule: seq<nat>)
    requires Running(v, st, models, manifest)
    requires Explained(st, v, models, manifest, env) && Kept(st, v, models, manifest, env)
    ensures var r := Exec(v, models, manifest, env, schedule);
      Explained(st, r, models, manifest, env) && Kept(st, r, models, manifest, env)
    decreases |schedule|
  {
    if schedule == [] {
    } else {
      var i := schedule[0];
      StepRunning(v, st, models, i, manifest, env);
      if i < |models| {
        match v.tasks[i]
        case Waiting =>
          BeginExplained(st, v, models, i, manifest, env);
          BeginKept(st, v, models, i, manifest, env);
        case Hashing(_) =>
          FinishExplained(st, v, models, i, manifest, env);
          FinishKept(st, v, models, i, manifest, env);
        case Done(_) =>
      }
      ExecExplained(st, Step(v, models, manifest, env, i), models, manifest, env, schedule[1..]);
    }
  }

  lemma BatchExplained(st: Store, models: seq<Model>, manifest: string, env: Env, schedule: seq<nat>)
    ensures var v := Batch(st, models, manifest, env, schedule);
      && Running(v, st, models, manifest)
      && Explained(st, v, models, manifest, env) && Kept(st, v, models, manifest, env)
  {
    var v := Verification(st, AllWaiting(|models|));
    ExecRunning(v, st, models, manifest, env, schedule);
    ExecExplained(st, v, models, manifest, env, schedule);
  }

  // ----- when the answers are right -----

  /** No finished verification answered `ok` where hashing the file would have given the opposite. */
  ghost predicate AnswersRight(
      st: Store, models: seq<Model>, ok: bool, manifest: string, env: Env, schedule: seq<nat>)
  {
    var v := Batch(st, models, manifest, env, schedule);
    forall i :: 0 <= i < |models| && v.tasks[i] == Done(ok) ==> Genuine(st, models[i], env) == ok
  }

  /** Every finished verification answered what hashing the file would. */
  ghost predicate AnswersGenuine(st: Store, models: seq<Model>, manifest: string, env: Env, schedule: seq<nat>) {
    var v := Batch(st, models, manifest, env, schedule);
    forall i :: 0 <= i < |models| && v.tasks[i].Done? ==> (v.tasks[i].ok <==> Genuine(st, models[i], env))
  }

  lemma ReliableAnswer(st: Store, models: seq<Model>, j: nat, ok: bool, manifest: string, env: Env)
    requires Reliable(st, models, ok, manifest, env) && j < |models|
    requires AnswerSourced(st, models, models[j], ok, manifest, env)
    ensures Genuine(st, models[j], env) == ok
  {
    var m := models[j];
    if Present(st, m) && ok != (Truth(st, m, manifest, env).hash == m.sha256) {
      var e :| FromEntry(st, models, m, ok, e, manifest, env);
      if m.id in st.sums.cache && st.sums.cache[m.id] == e {
        assert CacheSays(st, models, j, ok, manifest);
      } else {
        var k :| Writes(st, models, k, m.id, e, manifest, env);
        assert SameId(st, models, k, j) && Twins(st, models, k, j, manifest);
        assert Misleads(st, models, k, j, ok, manifest, env);
      }
    }
  }

  lemma ReliableAnswers(st: Store, models: seq<Model>, ok: bool, manifest: string, env: Env, schedule: seq<nat>)
    requires Reliable(st, models, ok, manifest, env)
    ensures AnswersRight(st, models, ok, manifest, env, schedule)
  {
    var v := Batch(st, models, manifest, env, schedule);
    BatchExplained(st, models, manifest, env, schedule);
    forall j | 0 <= j < |models| && v.tasks[j] == Done(ok) ensures Genuine(st, models[j], env) == ok {
      ReliableAnswer(st, models, j, ok, manifest, env);
    }
  }

  lemma {:induction false} ExecAppend(
      v: Verification, models: seq<Model>, manifest: string, env: Env, a: seq<nat>, b: seq<nat>)
    requires |v.tasks| == |models|
    ensures Exec(v, models, manifest, env, a + b)
         == Exec(Exec(v, models, manifest, env, a), models, manifest, env, b)
    decreases |a|
  {
    if a == [] {
      assert a + b == b;
    } else {
      assert (a + b)[1..] == a[1..] + b;
      ExecAppend(Step(v, models, manifest, env, a[0]), models, manifest, env, a[1..], b);
    }
  }

  lemma ExecOne(v: Verification, models: seq<Model>, manifest: string, env: Env, i: nat)
    requires |v.tasks| == |models|
    ensures Exec(v, models, manifest, env, [i]) == Step(v, models, manifest, env, i)
  {
    var v' := Step(v, models, manifest, env, i);
    assert [i][1..] == [];
    assert Exec(v, models, manifest, env, [i]) == Exec(v', models, manifest, env, []);
  }

  /** Two turns of a model that the cache has no current entry for write its entry. */
  lemma TwoTurnsWrite(v: Verification, models: seq<Model>, i: nat, manifest: string, env: Env)
    requires |v.tasks| == |models| && i < |models| && v.tasks[i].Waiting?
    requires Present(v.st, models[i]) && !Cached(v.st, models[i], manifest)
    ensures var v' := Exec(v, models, manifest, env, [i, i]); var e := Truth(v.st, models[i], manifest, env);
      && v'.st == v.st.(sums := v.st.sums.(cache := v.st.sums.cache[models[i].id := e]))
      && v'.tasks == v.tasks[i := Done(e.hash == models[i].sha256)]
  {
    var v1 := Step(v, models, manifest, env, i);
    assert v1 == Verification(v.st, v.tasks[i := Hashing(KeyFor(manifest, v.st.disk[models[i].target]))]);
    assert [i, i] == [i] + [i];
    ExecAppend(v, models, manifest, env, [i], [i]);
    ExecOne(v, models, manifest, env, i);
    ExecOne(v1, models, manifest, env, i);
  }

  /** A model whose turn it is now is answered from a current cache entry. */
  lemma CachedAnswer(v: Verification, models: seq<Model>, j: nat, manifest: string, env: Env)
    requires |v.tasks| == |models| && j < |models| && v.tasks[j].Waiting? && Cached(v.st, models[j], manifest)
    ensures var v' := Exec(v, models, manifest, env, [j]);
      v'.st == v.st && v'.tasks[j] == Done(v.st.sums.cache[models[j].id].hash == models[j].sha256)
  {
    ExecOne(v, models, manifest, env, j);
  }

  /** An entry from the start that answers wrongly: the model just asks. */
  lemma StaleAnswer(st: Store, models: seq<Model>, j: nat, ok: bool, manifest: string, env: Env)
    requires CacheSays(st, models, j, ok, manifest)
    requires (Truth(st, models[j], manifest, env).hash == models[j].sha256) != ok
    ensures !AnswersRight(st, models, ok, manifest, env, [j])
  {
    CachedAnswer(Verification(st, AllWaiting(|models|)), models, j, manifest, env);
  }

  /** From any point at which model `i` would be hashed: it is verified, then `j` asks and is misled. */
  lemma MisledAfter(v: Verification, models: seq<Model>, i: nat, j: nat, ok: bool, manifest: string, env: Env)
    requires |v.tasks| == |models| && Misleads(v.st, models, i, j, ok, manifest, env)
    requires v.tasks[i].Waiting? && v.tasks[j].Waiting? && !Cached(v.st, models[i], manifest)
    ensures Exec(v, models, manifest, env, [i, i, j]).tasks[j] == Done(ok)
  {
    assert i != j;
    TwoTurnsWrite(v, models, i, manifest, env);
    var v' := Exec(v, models, manifest, env, [i, i]);
    assert Cached(v'.st, models[j], manifest);
    CachedAnswer(v', models, j, manifest, env);
    assert [i, i, j] == [i, i] + [j];
    ExecAppend(v, models, manifest, env, [i, i], [j]);
  }

  /** If model `i` is not cached at the start, verifying it misleads model `j`. */
  lemma ConfusedAnswer(st: Store, models: seq<Model>, i: nat, j: nat, ok: bool, manifest: string, env: Env)
    requires Misleads(st, models, i, j, ok, manifest, env) && !Cached(st, models[i], manifest)
    ensures !AnswersRight(st, models, ok, manifest, env, [i, i, j])
  {
    MisledAfter(Verification(st, AllWaiting(|models|)), models, i, j, ok, manifest, env);
  }

  /** If it is, a model under the same id with another key first removes its entry. */
  lemma EvictedAnswer(st: Store, models: seq<Model>, i: nat, j: nat, k: nat, ok: bool, manifest: string, env: Env)
    requires Misleads(st, models, i, j, ok, manifest, env) && Cached(st, models[i], manifest)
    requires SameId(st, models, i, k) && !Twins(st, models, i, k, manifest)
    ensures !AnswersRight(st, models, ok, manifest, env, [k, k, i, i, j])
  {
    var v0 := Verification(st, AllWaiting(|models|));
    assert !Cached(st, models[k], manifest) && k != i && k != j;
    TwoTurnsWrite(v0, models, k, manifest, env);
    var v := Exec(v0, models, manifest, env, [k, k]);
    assert Misleads(v.st, models, i, j, ok, manifest, env) && !Cached(v.st, models[i], manifest);
    MisledAfter(v, models, i, j, ok, manifest, env);
    assert [k, k, i, i, j] == [k, k] + [i, i, j];
    ExecAppend(v0, models, manifest, env, [k, k], [i, i, j]);
  }

  /** For either answer, manifest and cache: no interleaving gives it wrongly exactly when it is reliable. */
  lemma AnswersRightIff(st: Store, models: seq<Model>, ok: bool, manifest: string, env: Env)
    ensures (forall schedule :: AnswersRight(st, models, ok, manifest, env, schedule))
       <==> Reliable(st, models, ok, manifest, env)
  {
    if Reliable(st, models, ok, manifest, env) {
      forall schedule ensures AnswersRight(st, models, ok, manifest, env, schedule) {
        ReliableAnswers(st, models, ok, manifest, env, schedule);
      }
    } else if i, j :| Misleads(st, models, i, j, ok, manifest, env) && !Pinned(st, models, i, manifest) {
      if !Cached(st, models[i], manifest) {
        ConfusedAnswer(st, models, i, j, ok, manifest, env);
      } else {
        var k :| SameId(st, models, i, k) && !Twins(st, models, i, k, manifest);
        EvictedAnswer(st, models, i, j, k, ok, manifest, env);
      }
    } else {
      var j :| CacheSays(st, models, j, ok, manifest)
        && (Truth(st, models[j], manifest, env).hash == models[j].sha256) != ok;
      StaleAnswer(st, models, j, ok, manifest, env);
    }
  }

  lemma BothAnswers(st: Store, models: seq<Model>, manifest: string, env: Env, schedule: seq<nat>)
    ensures AnswersGenuine(st, models, manifest, env, schedule)
       <==> forall ok :: AnswersRight(st, models, ok, manifest, env, schedule)
  {
    var v := Batch(st, models, manifest, env, schedule);
    if forall ok :: AnswersRight(st, models, ok, manifest, env, schedule) {
      forall i | 0 <= i < |models| && v.tasks[i].Done? ensures v.tasks[i].ok <==> Genuine(st, models[i], env) {
        assert AnswersRight(st, models, v.tasks[i].ok, manifest, env, schedule);
      }
    }
  }

  /**
   For any manifest and any cache: the answers of all interleavings are those of hashing exactly when
   both answers are reliable.
   */
  lemma AnswersGenuineIff(st: Store, models: seq<Model>, manifest: string, env: Env)
    ensures (forall schedule :: AnswersGenuine(st, models, manifest, env, schedule))
       <==> Reliable(st, models, true, manifest, env) && Reliable(st, models, false, manifest, env)
  {
    if forall schedule :: AnswersGenuine(st, models, manifest, env, schedule) {
      forall ok, schedule ensures AnswersRight(st, models, ok, manifest, env, schedule) {
        assert AnswersGenuine(st, models, manifest, env, schedule);
        BothAnswers(st, models, manifest, env, schedule);
      }
      AnswersRightIff(st, models, true, manifest, env);
      AnswersRightIff(st, models, false, manifest, env);
    }
    if Reliable(st, models, true, manifest, env) && Reliable(st, models, false, manifest, env) {
      forall schedule ensures AnswersGenuine(st, models, manifest, env, schedule) {
        ReliableAnswers(st, models, true, manifest, env, schedule);
        ReliableAnswers(st, models, false, manifest, env, schedule);
        BothAnswers(st, models, manifest, env, schedule);
      }
    }
  }

  // ----- when no entry is lost -----

  /** Every finished verification has its own entry in the cache. */
  ghost predicate EntriesCurrent(st: Store, models: seq<Model>, manifest: string, env: Env, schedule: seq<nat>) {
    var v := Batch(st, models, manifest, env, schedule);
    forall i :: 0 <= i < |models| && v.tasks[i].Done? ==> EntryCurrent(v.st, models[i], manifest, env)
  }

  lemma BothTwice(i: nat, j: nat)
    ensures Turns([i, i, j, j], i) >= 2 && Turns([i, i, j, j], j) >= 2
  {
    assert [i, i, j, j][1..] == [i, j, j] && [i, j, j][1..] == [j, j] && [j, j][1..] == [j] && [j][1..] == [];
    assert Turns([j], j) == 1 && Turns([j, j], j) == 2;
    assert Turns([i, j, j], j) >= 2 && Turns([i, j, j], i) >= 1;
  }

  /** The schedule that loses an entry: both models verified, one after the other. */
  lemma LostEntry(st: Store, models: seq<Model>, manifest: string, env: Env, i: nat, j: nat)
    requires SameId(st, models, i, j)
    requires Truth(st, models[i], manifest, env) != Truth(st, models[j], manifest, env)
    ensures !EntriesCurrent(st, models, manifest, env, [i, i, j, j])
  {
    var schedule := [i, i, j, j];
    var v := Batch(st, models, manifest, env, schedule);
    var v0 := Verification(st, AllWaiting(|models|));
    ExecRunning(v0, st, models, manifest, env, schedule);
    BothTwice(i, j);
    TurnsProgress(v0, st, models, manifest, env, schedule, i);
    TurnsProgress(v0, st, models, manifest, env, schedule, j);
    SameDisk(st, v.st, models[i], manifest, env);
    SameDisk(st, v.st, models[j], manifest, env);
    assert v.tasks[i].Done? && v.tasks[j].Done?;
  }

  /** A stale entry with the current key is never replaced by the model that finds it. */
  lemma StaleEntry(st: Store, models: seq<Model>, manifest: string, env: Env, j: nat)
    requires j < |models| && Cached(st, models[j], manifest)
    requires st.sums.cache[models[j].id] != Truth(st, models[j], manifest, env)
    ensures !EntriesCurrent(st, models, manifest, env, [j])
  {
    CachedAnswer(Verification(st, AllWaiting(|models|)), models, j, manifest, env);
  }

  /**
   For any manifest and any cache: no interleaving leaves a verified model without its entry exactly when
   models under one id write the same entry and the entries there are hold the hashes of their files.
   */
  lemma EntriesCurrentIff(st: Store, models: seq<Model>, manifest: string, env: Env)
    ensures (forall schedule :: EntriesCurrent(st, models, manifest, env, schedule))
       <==> OneEntryPerId(st, models, manifest, env) && CacheCurrent(st, models, manifest, env)
  {
    if !OneEntryPerId(st, models, manifest, env) {
      var i, j :| SameId(st, models, i, j)
        && Truth(st, models[i], manifest, env) != Truth(st, models[j], manifest, env);
      LostEntry(st, models, manifest, env, i, j);
    } else if !CacheCurrent(st, models, manifest, env) {
      var j :| 0 <= j < |models| && Cached(st, models[j], manifest)
        && st.sums.cache[models[j].id] != Truth(st, models[j], manifest, env);
      StaleEntry(st, models, manifest, env, j);
    } else {
      forall schedule ensures EntriesCurrent(st, models, manifest, env, schedule) {
        BatchExplained(st, models, manifest, env, schedule);
      }
    }
  }

  /** Two models under one id: the entry of the first answers "yes" for the second, wrongly. */
  lemma SharedIdConfuses(env: Env)
    requires env.sha("a") != env.sha("b")
    ensures var disk := map["x" := File("a", 1, 1), "y" := File("b", 1, 1)];
      var models := [Model("m", "x", env.sha("a")), Model("m", "y", env.sha("a"))];
      !AnswersRight(Unrecorded(disk), models, true, "h", env, [0, 0, 1])
  {
    var st := Unrecorded(map["x" := File("a", 1, 1), "y" := File("b", 1, 1)]);
    var models := [Model("m", "x", env.sha("a")), Model("m", "y", env.sha("a"))];
    assert SameId(st, models, 0, 1);
    ConfusedAnswer(st, models, 0, 1, true, "h", env);
  }

  // ----- downloads -----

  /** A download either leaves everything as it was or puts a genuine file in place and touches no other. */
  lemma {:induction false} RetryEffect(st: Store, m: Model, fetches: seq<Option<File>>, env: Env)
    ensures var (st', ok) := Retry(st, m, fetches, env);
      && (!ok ==> st' == st)
      && (ok ==> Genuine(st', m, env) && forall t :: t != m.target ==>
            (t in st'.disk <==> t in st.disk) && (t in st.disk ==> st'.disk[t] == st.disk[t]))
      && (ok <==> exists k :: 0 <= k < |fetches| && fetches[k].Some? && env.sha(fetches[k].value.content) == m.sha256)
    decreases |fetches|
  {
    if fetches == [] {
    } else {
      RetryEffect(st, m, fetches[1..], env);
      var ok0 := Download(st, m, fetches[0], env).1;
      if !ok0 {
        assert forall k :: 0 <= k < |fetches[1..]| ==> fetches[1..][k] == fetches[k + 1];
        if k :| 0 <= k < |fetches| && fetches[k].Some? && env.sha(fetches[k].value.content) == m.sha256 {
          assert k > 0 && fetches[1..][k - 1] == fetches[k];
        }
      }
    }
  }

  predicate Right(fetched: Option<File>, m: Model, env: Env) {
    fetched.Some? && env.sha(fetched.value.content) == m.sha256
  }

  /** The file is in place, and recorded with its hash: under its path, and in the cache under no manifest's key. */
  ghost predicate Installed(st: Store, st': Store, m: Model, f: File) {
    && st'.disk == st.disk[m.target := f]
    && st'.sums.files == st.sums.files["models/" + m.id := m.sha256]
    && st'.sums.cache == st.sums.cache[m.id := Entry(Key("unknown", f.size, f.mtime), m.sha256)]
  }

  /** Retrying installs what the first attempt with the right content fetched, or changes nothing. */
  lemma {:induction false} RetryInstallsFirst(st: Store, m: Model, fetches: seq<Option<File>>, env: Env)
    ensures var (st', ok) := Retry(st, m, fetches, env);
      if ok then
        exists k :: 0 <= k < |fetches| && Right(fetches[k], m, env) && Installed(st, st', m, fetches[k].value)
          && forall j :: 0 <= j < k ==> !Right(fetches[j], m, env)
      else st' == st && forall j :: 0 <= j < |fetches| ==> !Right(fetches[j], m, env)
    decreases |fetches|
  {
    if fetches == [] {
    } else if Right(fetches[0], m, env) {
      assert Installed(st, Retry(st, m, fetches, env).0, m, fetches[0].value);
    } else {
      var rest := fetches[1..];
      RetryInstallsFirst(st, m, rest, env);
      var (st', ok) := Retry(st, m, fetches, env);
      if ok {
        var k :| 0 <= k < |rest| && Right(rest[k], m, env) && Installed(st, st', m, rest[k].value)
          && forall j :: 0 <= j < k ==> !Right(rest[j], m, env);
        assert fetches[k + 1] == rest[k];
        forall j | 0 <= j < k + 1 ensures !Right(fetches[j], m, env) { if j > 0 { assert fetches[j] == rest[j - 1]; } }
      } else {
        forall j | 0 <= j < |fetches| ensures !Right(fetches[j], m, env) {
          if j > 0 { assert fetches[j] == rest[j - 1]; }
        }
      }
    }
  }

  /** The downloads take their turns: one more of them runs if and only if all before it succeeded. */
  lemma {:induction false} DownloadsInTurn(
      st: Store, before: seq<Model>, tries: seq<seq<Option<File>>>, m: Model, fetches: seq<Option<File>>, env: Env)
    requires |tries| == |before|
    ensures DownloadAll(st, [], [], env) == (st, true)
    ensures var (st1, ok) := DownloadAll(st, before, tries, env);
      DownloadAll(st, before + [m], tries + [fetches], env) == if ok then Retry(st1, m, fetches, env) else (st1, false)
    decreases |before|
  {
    var all, allTries := before + [m], tries + [fetches];
    if before == [] {
      var (st1, ok) := Retry(st, m, fetches, env);
      assert all[1..] == [] && allTries[1..] == [];
      assert DownloadAll(st1, all[1..], allTries[1..], env) == (st1, true);
    } else {
      assert all[1..] == before[1..] + [m] && allTries[1..] == tries[1..] + [fetches];
      DownloadsInTurn(Retry(st, before[0], tries[0], env).0, before[1..], tries[1..], m, fetches, env);
    }
  }

  /** Models that share a target file agree on its hash. */
  ghost predicate Consistent(models: seq<Model>) {
    forall i, j :: 0 <= i < |models| && 0 <= j < |models| && models[i].target == models[j].target ==>
      models[i].sha256 == models[j].sha256
  }

  ghost predicate AllGenuine(st: Store, models: seq<Model>, env: Env) {
    forall i :: 0 <= i < |models| ==> Genuine(st, models[i], env)
  }

  ghost predicate Agree(m: Model, missing: seq<Model>) {
    forall i :: 0 <= i < |missing| && missing[i].target == m.target ==> missing[i].sha256 == m.sha256
  }

  /** A genuine model stays genuine through downloads that agree with it. */
  lemma {:induction false} DownloadsKeep(
      st: Store, missing: seq<Model>, fetches: seq<seq<Option<File>>>, env: Env, m: Model)
    requires |fetches| == |missing| && Genuine(st, m, env) && Agree(m, missing)
    ensures Genuine(DownloadAll(st, missing, fetches, env).0, m, env)
    decreases |missing|
  {
    if missing == [] {
    } else {
      RetryEffect(st, missing[0], fetches[0], env);
      var (st1, ok) := Retry(st, missing[0], fetches[0], env);
      assert Genuine(st1, m, env);
      if ok {
        assert forall i :: 0 <= i < |missing[1..]| ==> missing[1..][i] == missing[i + 1];
        DownloadsKeep(st1, missing[1..], fetches[1..], env, m);
      }
    }
  }

  lemma {:induction false} DownloadsGenuine(
      st: Store, missing: seq<Model>, fetches: seq<seq<Option<File>>>, env: Env, i: nat)
    requires |fetches| == |missing| && i < |missing| && Consistent(missing) && DownloadAll(st, missing, fetches, env).1
    ensures Genuine(DownloadAll(st, missing, fetches, env).0, missing[i], env)
    decreases |missing|
  {
    RetryEffect(st, missing[0], fetches[0], env);
    var (st1, ok) := Retry(st, missing[0], fetches[0], env);
    assert forall k :: 0 <= k < |missing[1..]| ==> missing[1..][k] == missing[k + 1];
    if i == 0 {
      DownloadsKeep(st1, missing[1..], fetches[1..], env, missing[0]);
    } else {
      DownloadsGenuine(st1, missing[1..], fetches[1..], env, i - 1);
    }
  }

  lemma {:induction false} FailedInOrder(
      before: seq<Model>, ts: seq<Task>, m: Model, t: Task, after: seq<Model>, us: seq<Task>)
    requires |ts| == |before| && |us| == |after|
    ensures Failed([], []) == []
    ensures Failed(before + [m] + after, ts + [t] + us)
         == Failed(before, ts) + (if t == Done(true) then [] else [m]) + Failed(after, us)
    decreases |after|
  {
    var all, tasks := before + [m] + after, ts + [t] + us;
    if after == [] {
      assert all[..|before|] == before && tasks[..|before|] == ts;
    } else {
      var n := |after| - 1;
      FailedInOrder(before, ts, m, t, after[..n], us[..n]);
      assert all[..|all| - 1] == before + [m] + after[..n] && tasks[..|all| - 1] == ts + [t] + us[..n];
      assert all[|all| - 1] == after[n] && tasks[|all| - 1] == us[n];
    }
  }

  lemma {:induction false} FailedElements(models: seq<Model>, tasks: seq<Task>)
    requires |tasks| == |models|
    ensures forall m ::
      m in Failed(models, tasks) <==> exists i :: 0 <= i < |models| && models[i] == m && tasks[i] != Done(true)
  {
    if models == [] {
    } else {
      var n := |models| - 1;
      FailedElements(models[..n], tasks[..n]);
      forall m
        ensures m in Failed(models, tasks)
           <==> exists i :: 0 <= i < |models| && models[i] == m && tasks[i] != Done(true)
      {
        if i :| 0 <= i < |models| && models[i] == m && tasks[i] != Done(true) {
          if i < n { assert models[..n][i] == m && tasks[..n][i] != Done(true); }
        }
        if m in Failed(models[..n], tasks[..n]) {
          var i :| 0 <= i < n && models[..n][i] == m && tasks[..n][i] != Done(true);
          assert models[i] == m && tasks[i] != Done(true);
        } else if m in Failed(models, tasks) {
          assert models[n] == m && tasks[n] != Done(true);
        }
      }
    }
  }

  /** A normal return: every verification finished, and every download after them succeeded. */
  ghost predicate Returns(
      st: Store, models: seq<Model>, manifest: string, env: Env, schedule: seq<nat>, fetches: seq<seq<Option<File>>>) {
    var v := Batch(st, models, manifest, env, schedule);
    && AllDone(v.tasks) && |fetches| == |Failed(models, v.tasks)|
    && DownloadAll(v.st, Failed(models, v.tasks), fetches, env).1
  }

  ghost function Returned(
      st: Store, models: seq<Model>, manifest: string, env: Env, schedule: seq<nat>,
      fetches: seq<seq<Option<File>>>): Store
    requires |fetches| == |Failed(models, Batch(st, models, manifest, env, schedule).tasks)|
  {
    var v := Batch(st, models, manifest, env, schedule);
    DownloadAll(v.st, Failed(models, v.tasks), fetches, env).0
  }

  /**
   For any manifest and any cache from which no "yes" is given wrongly, a normal return means that all is
   well exactly when the manifest is consistent.
   */
  lemma ReturnMeansGenuine(
      st: Store, models: seq<Model>, manifest: string, env: Env, schedule: seq<nat>, fetches: seq<seq<Option<File>>>)
    requires Reliable(st, models, true, manifest, env)
    requires Returns(st, models, manifest, env, schedule, fetches)
    ensures AllGenuine(Returned(st, models, manifest, env, schedule, fetches), models, env) <==> Consistent(models)
  {
    var v := Batch(st, models, manifest, env, schedule);
    var missing := Failed(models, v.tasks);
    FailedElements(models, v.tasks);
    var st' := DownloadAll(v.st, missing, fetches, env).0;
    ReliableAnswers(st, models, true, manifest, env, schedule);
    ExecRunning(Verification(st, AllWaiting(|models|)), st, models, manifest, env, schedule);
    if Consistent(models) {
      SubsetConsistent(models, missing);
      forall i | 0 <= i < |models| ensures Genuine(st', models[i], env) {
        assert v.tasks[i].Done?;
        if v.tasks[i] == Done(true) {
          AgreesWithSubset(models, missing, i);
          DownloadsKeep(v.st, missing, fetches, env, models[i]);
        } else {
          assert models[i] in missing;
          var k :| 0 <= k < |missing| && missing[k] == models[i];
          DownloadsGenuine(v.st, missing, fetches, env, k);
        }
      }
    }
    if AllGenuine(st', models, env) {
      forall i, j | 0 <= i < |models| && 0 <= j < |models| && models[i].target == models[j].target
        ensures models[i].sha256 == models[j].sha256
      {
        assert Genuine(st', models[i], env) && Genuine(st', models[j], env);
      }
    }
  }

  lemma SubsetConsistent(models: seq<Model>, some: seq<Model>)
    requires Consistent(models) && forall m :: m in some ==> m in models
    ensures Consistent(some)
  {
    forall i, j | 0 <= i < |some| && 0 <= j < |some| && some[i].target == some[j].target
      ensures some[i].sha256 == some[j].sha256
    {
      assert some[i] in models && some[j] in models;
      var a :| 0 <= a < |models| && models[a] == some[i];
      var b :| 0 <= b < |models| && models[b] == some[j];
    }
  }

  lemma AgreesWithSubset(models: seq<Model>, some: seq<Model>, i: nat)
    requires Consistent(models) && i < |models| && forall m :: m in some ==> m in models
    ensures Agree(models[i], some)
  {
    forall j | 0 <= j < |some| && some[j].target == models[i].target ensures some[j].sha256 == models[i].sha256 {
      assert some[j] in models;
      var b :| 0 <= b < |models| && models[b] == some[j];
    }
  }

  // ----- histories -----

  /** Size and modification time determine a file's content. */
  ghost predicate Determined(disk: map<string, File>, env: Env) {
    forall t :: t in disk ==> disk[t].content == env.contentOf(t, disk[t].size, disk[t].mtime)
  }

  ghost predicate AllDetermined(m: Model, fetches: seq<Option<File>>, env: Env) {
    forall k :: 0 <= k < |fetches| && fetches[k].Some? ==>
      var f := fetches[k].value; f.content == env.contentOf(m.target, f.size, f.mtime)
  }

  ghost predicate DistinctIds(models: seq<Model>) {
    forall i, j :: 0 <= i < j < |models| ==> models[i].id != models[j].id
  }

  /**
   What happens to a store over time: verifications of some manifest, finished or not; downloads; whole
   calls of `verifyOrDownload`; changes of the model directory from outside; and the loss of the checksum
   file, which is read as empty when it is missing or corrupt.
   */
  datatype Event =
    | Verify(manifest: string, schedule: seq<nat>)
    | Obtain(m: Model, attempts: seq<Option<File>>)
    | Call(manifest: string, schedule: seq<nat>, fetches: seq<seq<Option<File>>>)
    | Replace(disk: map<string, File>)
    | Forget

  ghost predicate Enabled(st: Store, ev: Event, env: Env) {
    match ev
    case Verify(manifest, _) => manifest != UNKNOWN_MANIFEST
    case Obtain(m, fetches) => AllDetermined(m, fetches, env)
    case Call(manifest, schedule, fetches) =>
      var models := env.manifestOf(manifest);
      var missing := Failed(models, Batch(st, models, manifest, env, schedule).tasks);
      && manifest != UNKNOWN_MANIFEST && |fetches| == |missing|
      && forall i :: 0 <= i < |missing| ==> AllDetermined(missing[i], fetches[i], env)
    case Replace(disk) => Determined(disk, env)
    case Forget => true
  }

  ghost function After(st: Store, ev: Event, env: Env): Store
    requires Enabled(st, ev, env)
  {
    match ev
    case Verify(manifest, schedule) => Batch(st, env.manifestOf(manifest), manifest, env, schedule).st
    case Obtain(m, fetches) => Retry(st, m, fetches, env).0
    case Call(manifest, schedule, fetches) => Returned(st, env.manifestOf(manifest), manifest, env, schedule, fetches)
    case Replace(disk) => st.(disk := disk)
    case Forget => Unrecorded(st.disk)
  }

  ghost predicate ValidHistory(st: Store, evs: seq<Event>, env: Env)
    decreases |evs|
  {
    evs == [] || (Enabled(st, evs[0], env) && ValidHistory(After(st, evs[0], env), evs[1..], env))
  }

  ghost function History(st: Store, evs: seq<Event>, env: Env): Store
    requires ValidHistory(st, evs, env)
    decreases |evs|
  {
    if evs == [] then st else History(After(st, evs[0], env), evs[1..], env)
  }

  /** An entry holds the hash of what its key says about the file of a model of its manifest. */
  ghost predicate WrittenFor(id: string, e: Entry, env: Env) {
    var models := env.manifestOf(e.key.manifest);
    exists k :: 0 <= k < |models| && models[k].id == id
      && e.hash == env.sha(env.contentOf(models[k].target, e.key.size, e.key.mtime))
  }

  /** Every entry of a verification was written for its manifest; those of downloads match no manifest. */
  ghost predicate CacheSound(st: Store, env: Env) {
    forall id :: id in st.sums.cache && st.sums.cache[id].key.manifest != UNKNOWN_MANIFEST ==>
      WrittenFor(id, st.sums.cache[id], env)
  }

  ghost predicate Sound(st: Store, env: Env) {
    Determined(st.disk, env) && CacheSound(st, env)
  }

  lemma StepSound(v: Verification, before: Store, manifest: string, env: Env, i: nat)
    requires Running(v, before, env.manifestOf(manifest), manifest) && Sound(v.st, env)
    ensures Sound(Step(v, env.manifestOf(manifest), manifest, env, i).st, env)
  {
    var models := env.manifestOf(manifest);
    if i < |models| && v.tasks[i].Hashing? {
      var m, cache := models[i], Step(v, models, manifest, env, i).st.sums.cache;
      assert cache == v.st.sums.cache[m.id := Truth(v.st, m, manifest, env)];
      assert WrittenFor(m.id, cache[m.id], env);
    }
  }

  lemma {:induction false} ExecSound(v: Verification, before: Store, manifest: string, env: Env, schedule: seq<nat>)
    requires Running(v, before, env.manifestOf(manifest), manifest) && Sound(v.st, env)
    ensures Sound(Exec(v, env.manifestOf(manifest), manifest, env, schedule).st, env)
    decreases |schedule|
  {
    if schedule == [] {
    } else {
      var models := env.manifestOf(manifest);
      StepRunning(v, before, models, schedule[0], manifest, env);
      StepSound(v, before, manifest, env, schedule[0]);
      ExecSound(Step(v, models, manifest, env, schedule[0]), before, manifest, env, schedule[1..]);
    }
  }

  lemma BatchSound(st: Store, manifest: string, env: Env, schedule: seq<nat>)
    requires Sound(st, env)
    ensures Sound(Batch(st, env.manifestOf(manifest), manifest, env, schedule).st, env)
  {
    ExecSound(Verification(st, AllWaiting(|env.manifestOf(manifest)|)), st, manifest, env, schedule);
  }

  lemma {:induction false} RetrySound(st: Store, m: Model, fetches: seq<Option<File>>, env: Env)
    requires Sound(st, env) && AllDetermined(m, fetches, env)
    ensures Sound(Retry(st, m, fetches, env).0, env)
    decreases |fetches|
  {
    if fetches == [] {
    } else {
      assert AllDetermined(m, fetches[1..], env) by {
        forall k | 0 <= k < |fetches[1..]| && fetches[1..][k].Some?
          ensures var f := fetches[1..][k].value; f.content == env.contentOf(m.target, f.size, f.mtime)
        {
          assert fetches[1..][k] == fetches[k + 1];
        }
      }
      RetrySound(st, m, fetches[1..], env);
    }
  }

  lemma {:induction false} DownloadsSound(st: Store, missing: seq<Model>, fetches: seq<seq<Option<File>>>, env: Env)
    requires |fetches| == |missing| && Sound(st, env)
    requires forall i :: 0 <= i < |missing| ==> AllDetermined(missing[i], fetches[i], env)
    ensures Sound(DownloadAll(st, missing, fetches, env).0, env)
    decreases |missing|
  {
    if missing == [] {
    } else {
      RetrySound(st, missing[0], fetches[0], env);
      forall i | 0 <= i < |missing[1..]| ensures AllDetermined(missing[1..][i], fetches[1..][i], env) {
        assert missing[1..][i] == missing[i + 1] && fetches[1..][i] == fetches[i + 1];
      }
      DownloadsSound(Retry(st, missing[0], fetches[0], env).0, missing[1..], fetches[1..], env);
    }
  }

  lemma {:induction false} HistorySound(st: Store, evs: seq<Event>, env: Env)
    requires Sound(st, env) && ValidHistory(st, evs, env)
    ensures Sound(History(st, evs, env), env)
    decreases |evs|
  {
    if evs == [] {
    } else {
      match evs[0] {
        case Verify(manifest, schedule) => BatchSound(st, manifest, env, schedule);
        case Obtain(m, fetches) => RetrySound(st, m, fetches, env);
        case Call(manifest, schedule, fetches) =>
          BatchSound(st, manifest, env, schedule);
          var v := Batch(st, env.manifestOf(manifest), manifest, env, schedule);
          DownloadsSound(v.st, Failed(env.manifestOf(manifest), v.tasks), fetches, env);
        case Replace(_) =>
        case Forget =>
      }
      HistorySound(After(st, evs[0], env), evs[1..], env);
    }
  }

  /** For a manifest with distinct ids, what a history leaves in the cache can be trusted. */
  lemma SoundIsCurrent(st: Store, manifest: string, env: Env)
    requires Sound(st, env) && manifest != UNKNOWN_MANIFEST && DistinctIds(env.manifestOf(manifest))
    ensures CacheCurrent(st, env.manifestOf(manifest), manifest, env)
  {
    var models := env.manifestOf(manifest);
    forall i | 0 <= i < |models| && Cached(st, models[i], manifest)
      ensures st.sums.cache[models[i].id] == Truth(st, models[i], manifest, env)
    {
      assert WrittenFor(models[i].id, st.sums.cache[models[i].id], env);
    }
  }

  /** With distinct ids there is nobody to mislead or to replace an entry. */
  lemma DistinctIsReliable(st: Store, models: seq<Model>, ok: bool, manifest: string, env: Env)
    requires DistinctIds(models) && CacheCurrent(st, models, manifest, env)
    ensures Reliable(st, models, ok, manifest, env) && OneEntryPerId(st, models, manifest, env)
  {
  }

  lemma AfterHistory(disk: map<string, File>, evs: seq<Event>, env: Env, manifest: string)
    requires Determined(disk, env) && ValidHistory(Unrecorded(disk), evs, env)
    requires manifest != UNKNOWN_MANIFEST && DistinctIds(env.manifestOf(manifest))
    ensures var st := History(Unrecorded(disk), evs, env); var models := env.manifestOf(manifest);
      && CacheCurrent(st, models, manifest, env) && OneEntryPerId(st, models, manifest, env)
      && Reliable(st, models, true, manifest, env) && Reliable(st, models, false, manifest, env)
  {
    HistorySound(Unrecorded(disk), evs, env);
    var st := History(Unrecorded(disk), evs, env);
    SoundIsCurrent(st, manifest, env);
    DistinctIsReliable(st, env.manifestOf(manifest), true, manifest, env);
    DistinctIsReliable(st, env.manifestOf(manifest), false, manifest, env);
  }

  /**
   After any history, in every interleaving of the verifications of a manifest with distinct ids, those
   that have finished answered what hashing the file would, their cache entries are there and current,
   every entry that was in the cache still has one, and entries of other models and the recorded file
   hashes are untouched.
   */
  lemma CachedVerificationIsHashing(
      disk: map<string, File>, evs: seq<Event>, env: Env, manifest: string, schedule: seq<nat>)
    requires Determined(disk, env) && ValidHistory(Unrecorded(disk), evs, env)
    requires manifest != UNKNOWN_MANIFEST && DistinctIds(env.manifestOf(manifest))
    ensures var st := History(Unrecorded(disk), evs, env); var models := env.manifestOf(manifest);
      && AnswersGenuine(st, models, manifest, env, schedule)
      && EntriesCurrent(st, models, manifest, env, schedule)
      && OthersKept(st, Batch(st, models, manifest, env, schedule).st, models)
  {
    AfterHistory(disk, evs, env, manifest);
    var st, models := History(Unrecorded(disk), evs, env), env.manifestOf(manifest);
    AnswersGenuineIff(st, models, manifest, env);
    EntriesCurrentIff(st, models, manifest, env);
    BatchExplained(st, models, manifest, env, schedule);
  }

  /**
   When `verifyOrDownload` returns normally, after any history, every manifest model has its manifest
   hash exactly when models that share a target file agree on the hash.
   */
  lemma NormalReturnMeansGenuine(
      disk: map<string, File>, evs: seq<Event>, env: Env, manifest: string, schedule: seq<nat>,
      fetches: seq<seq<Option<File>>>)
    requires Determined(disk, env) && ValidHistory(Unrecorded(disk), evs, env)
    requires manifest != UNKNOWN_MANIFEST && DistinctIds(env.manifestOf(manifest))
    requires Returns(History(Unrecorded(disk), evs, env), env.manifestOf(manifest), manifest, env, schedule, fetches)
    ensures var st := History(Unrecorded(disk), evs, env); var models := env.manifestOf(manifest);
      AllGenuine(Returned(st, models, manifest, env, schedule, fetches), models, env) <==> Consistent(models)
  {
    AfterHistory(disk, evs, env, manifest);
    ReturnMeansGenuine(History(Unrecorded(disk), evs, env), env.manifestOf(manifest), manifest, env, schedule, fetches);
  }

  const StaleModels := [Model("m", "x", "z"), Model("m", "y", "b")]

  /** The first model's file is verified, then it goes away and the second model's file appears. */
  const StaleHistory := [Verify("h", [0, 0]), Replace(map["y" := File("b", 1, 1)])]

  /**
   With a repeated id a history can leave an entry that misleads although no two files do: the second
   model's file is genuine, its key is that of the entry, and the answer is "no".
   */
  lemma StaleHistoryMisleads(env: Env)
    requires env.manifestOf("h") == StaleModels && env.sha("a") != "b" && env.sha("b") == "b"
    requires env.contentOf("x", 1, 1) == "a" && env.contentOf("y", 1, 1) == "b"
    ensures var st0 := Unrecorded(map["x" := File("a", 1, 1)]);
      && Determined(st0.disk, env) && ValidHistory(st0, StaleHistory, env)
      && var st := History(st0, StaleHistory, env);
      && OneEntryPerId(st, StaleModels, "h", env)
      && !AnswersGenuine(st, StaleModels, "h", env, [1]) && !EntriesCurrent(st, StaleModels, "h", env, [1])
  {
    var st0 := Unrecorded(map["x" := File("a", 1, 1)]);
    var v0 := Verification(st0, AllWaiting(2));
    TwoTurnsWrite(v0, StaleModels, 0, "h", env);
    var st1 := Batch(st0, StaleModels, "h", env, [0, 0]).st;
    assert st1.sums.cache == map["m" := Entry(Key("h", 1, 1), env.sha("a"))];
    var st2 := st1.(disk := map["y" := File("b", 1, 1)]);
    assert "h" != UNKNOWN_MANIFEST by { assert |"h"| != |UNKNOWN_MANIFEST|; }
    assert After(st0, StaleHistory[0], env) == st1 && After(st1, StaleHistory[1], env) == st2;
    assert StaleHistory[1..] == [StaleHistory[1]] && [StaleHistory[1]][1..] == [];
    assert ValidHistory(st2, [], env) && ValidHistory(st1, StaleHistory[1..], env);
    assert History(st1, StaleHistory[1..], env) == st2;
    StaleAnswer(st2, StaleModels, 1, false, "h", env);
    StaleEntry(st2, StaleModels, "h", env, 1);
    BothAnswers(st2, StaleModels, "h", env, [1]);
  }
}
