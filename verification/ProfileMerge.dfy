/**
 Merging a chain of configuration profiles and flattening the result.

 Profiles are JSON objects. The loops over a dictionary's items take the keys in any order, so what is
 proved of them holds for every insertion order.
 */
module ProfileMerge {
  import opened Common

  datatype Json =
    | Null | Bool(b: bool) | Num(n: real) | Str(s: string)
    | List(items: seq<Json>) | Obj(fields: map<string, Json>)

  const WAKE_PHRASES := "wakePhrases"
  const Empty := Obj(map[])

  /** The deep merge of an object into another: `b` over `a`. */
  function Merge(a: Json, b: Json): (r: Json)
    requires a.Obj? && b.Obj?
    ensures r.Obj? && r.fields.Keys == a.fields.Keys + b.fields.Keys
    decreases b
  {
    Obj(map k | k in a.fields.Keys + b.fields.Keys ::
      if k !in b.fields then a.fields[k]
      else if k != WAKE_PHRASES && b.fields[k].Obj? && k in a.fields && a.fields[k].Obj?
      then Merge(a.fields[k], b.fields[k])
      else b.fields[k])
  }

  ghost predicate AllObjects(chain: seq<Json>) {
    forall i :: 0 <= i < |chain| ==> chain[i].Obj?
  }

  /** The whole chain, root first. */
  function MergeAll(chain: seq<Json>): (r: Json)
    requires forall i :: 0 <= i < |chain| ==> chain[i].Obj?
    ensures r.Obj?
  {
    if chain == [] then Empty
    else if |chain| == 1 then chain[0]
    else Merge(MergeAll(chain[..|chain| - 1]), chain[|chain| - 1])
  }

  /** What one item of `b` becomes in the merge, given what `a` has under its key. */
  function ItemValue(under: Option<Json>, key: string, value: Json): Json {
    if key != WAKE_PHRASES && value.Obj? && under.Some? && under.value.Obj? then Merge(under.value, value) else value
  }

  function Lookup(fields: map<string, Json>, key: string): Option<Json> {
    if key in fields then Some(fields[key]) else None
  }

  lemma MergeItems(a: Json, b: Json, k: string)
    requires a.Obj? && b.Obj? && k in a.fields.Keys + b.fields.Keys
    ensures Merge(a, b).fields[k]
         == if k in b.fields then ItemValue(Lookup(a.fields, k), k, b.fields[k]) else a.fields[k]
  {
  }

  method MergeItem(under: Option<Json>, key: string, value: Json) returns (r: Json)
    ensures r == ItemValue(under, key, value)
    decreases value, 1
  {
    if key == WAKE_PHRASES {
      r := value;
    } else if value.Obj? && under.Some? && under.value.Obj? {
      r := DeepMerge(under.value, value);
    } else {
      r := value;
    }
  }

  /** `_deep_merge`: goes through the items of `d2` and updates `d1`. */
  method DeepMerge(d1: Json, d2: Json) returns (r: Json)
    requires d1.Obj? && d2.Obj?
    ensures r == Merge(d1, d2)
    decreases d2, 0
  {
    var fields, items := d1.fields, d2.fields;
    var todo := items.Keys;
    while todo != {}
      invariant todo <= items.Keys
      invariant forall k :: k in fields <==> k in d1.fields || (k in items && k !in todo)
      invariant forall k :: k in items && k !in todo ==> fields[k] == ItemValue(Lookup(d1.fields, k), k, items[k])
      invariant forall k :: k in d1.fields && (k in todo || k !in items) ==> fields[k] == d1.fields[k]
      decreases |todo|
    {
      var key :| key in todo;
      assert Lookup(fields, key) == Lookup(d1.fields, key);
      var value := MergeItem(Lookup(fields, key), key, items[key]);
      fields := fields[key := value];
      todo := todo - {key};
    }
    forall k | k in fields ensures fields[k] == Merge(d1, d2).fields[k] { MergeItems(d1, d2, k); }
    assert fields == Merge(d1, d2).fields;
    r := Obj(fields);
  }

  /** `merge_profiles`. */
  method MergeProfiles(chain: seq<Json>) returns (merged: Json)
    requires AllObjects(chain)
    ensures merged == MergeAll(chain)
  {
    if chain == [] { return Empty; }
    merged := chain[0];
    for i := 1 to |chain|
      invariant merged.Obj? && merged == MergeAll(chain[..i])
    {
      assert chain[..i + 1][..i] == chain[..i];
      merged := DeepMerge(merged, chain[i]);
    }
    assert chain[..|chain|] == chain;
  }

  // ----- values at paths -----

  type Path = seq<string>

  function Get(j: Json, p: Path): Option<Json> {
    if p == [] then Some(j)
    else if j.Obj? && p[0] in j.fields then Get(j.fields[p[0]], p[1..])
    else None
  }

  /** The value at a path, if there is one and it is not an object. */
  function Leaf(j: Json, p: Path): Option<Json> {
    match Get(j, p)
    case Some(v) => if v.Obj? then None else Some(v)
    case None => None
  }

  /** The value of the most derived profile that defines a non-object at the path. */
  function MostDerived(chain: seq<Json>, p: Path): Option<Json> {
    if chain == [] then None
    else if Leaf(chain[|chain| - 1], p).Some? then Leaf(chain[|chain| - 1], p)
    else MostDerived(chain[..|chain| - 1], p)
  }

  lemma GetStep(j: Json, k: string, q: Path)
    ensures Get(j, [k] + q) == if j.Obj? && k in j.fields then Get(j.fields[k], q) else None
  {
  }

  // ----- when the merge is an overlay -----

  ghost predicate HasLeaf(j: Json) {
    exists p :: Leaf(j, p).Some?
  }

  ghost predicate LeavesWithin(a: Json, b: Json) {
    forall p :: Leaf(a, p).Some? ==> Leaf(b, p).Some?
  }

  /**
   Where merging `b` over `a` would lose or hide a leaf of `a`: an object over a value, a value over an
   object that has leaves, or wake phrases given as objects, which replace each other entirely.
   */
  ghost predicate Layers(a: Json, b: Json)
    requires a.Obj? && b.Obj?
    decreases b
  {
    forall k :: k in a.fields && k in b.fields ==>
      var x, y := a.fields[k], b.fields[k];
      if y.Obj? then x.Obj? && (if k == WAKE_PHRASES then LeavesWithin(x, y) else Layers(x, y))
      else x.Obj? ==> !HasLeaf(x)
  }

  ghost predicate Overlays(a: Json, b: Json)
    requires a.Obj? && b.Obj?
  {
    forall p :: Leaf(Merge(a, b), p) == if Leaf(b, p).Some? then Leaf(b, p) else Leaf(a, p)
  }

  lemma {:induction false} LayersOverlay(a: Json, b: Json, p: Path)
    requires a.Obj? && b.Obj? && Layers(a, b)
    ensures Leaf(Merge(a, b), p) == if Leaf(b, p).Some? then Leaf(b, p) else Leaf(a, p)
    decreases b
  {
    if p == [] {
    } else {
      var k, q := p[0], p[1..];
      if k in a.fields && k in b.fields {
        MergeItems(a, b, k);
        var x, y := a.fields[k], b.fields[k];
        assert Leaf(b, p) == Leaf(y, q) && Leaf(a, p) == Leaf(x, q);
        assert Leaf(Merge(a, b), p) == Leaf(Merge(a, b).fields[k], q);
        if y.Obj? {
          if k == WAKE_PHRASES {
            assert LeavesWithin(x, y);
            assert Leaf(x, q).Some? ==> Leaf(y, q).Some?;
          } else {
            LayersOverlay(x, y, q);
          }
        } else {
          assert q != [] ==> Leaf(x, q) == None;
        }
      }
    }
  }

  /** Under one key, what an overlay of the whole says about the values there. */
  lemma OverlayBelow(a: Json, b: Json, k: string, q: Path)
    requires a.Obj? && b.Obj? && Overlays(a, b) && k in a.fields && k in b.fields
    ensures Leaf(Merge(a, b).fields[k], q)
         == if Leaf(b.fields[k], q).Some? then Leaf(b.fields[k], q) else Leaf(a.fields[k], q)
  {
    var p := [k] + q;
    GetStep(a, k, q);
    GetStep(b, k, q);
    GetStep(Merge(a, b), k, q);
    assert Leaf(Merge(a, b), p) == if Leaf(b, p).Some? then Leaf(b, p) else Leaf(a, p);
  }

  lemma {:induction false} OverlayLayers(a: Json, b: Json)
    requires a.Obj? && b.Obj? && Overlays(a, b)
    ensures Layers(a, b)
    decreases b
  {
    forall k | k in a.fields && k in b.fields
      ensures var x, y := a.fields[k], b.fields[k];
        if y.Obj? then x.Obj? && (if k == WAKE_PHRASES then LeavesWithin(x, y) else Layers(x, y))
        else x.Obj? ==> !HasLeaf(x)
    {
      var x, y := a.fields[k], b.fields[k];
      OverlayBelow(a, b, k, []);
      forall q ensures Leaf(Merge(a, b).fields[k], q) == if Leaf(y, q).Some? then Leaf(y, q) else Leaf(x, q) {
        OverlayBelow(a, b, k, q);
      }
      if y.Obj? && k != WAKE_PHRASES {
        assert Overlays(x, y);
        OverlayLayers(x, y);
      }
      if !y.Obj? && x.Obj? {
        forall q ensures !Leaf(x, q).Some? {
          MergeItems(a, b, k);
          OverlayBelow(a, b, k, q);
        }
      }
    }
  }

  /** The merge gives every path the child's value, or else the parent's, exactly when the layers fit. */
  lemma MergeOverlaysIff(a: Json, b: Json)
    requires a.Obj? && b.Obj?
    ensures Overlays(a, b) <==> Layers(a, b)
  {
    if Layers(a, b) {
      forall p ensures Leaf(Merge(a, b), p) == if Leaf(b, p).Some? then Leaf(b, p) else Leaf(a, p) {
        LayersOverlay(a, b, p);
      }
    }
    if Overlays(a, b) { OverlayLayers(a, b); }
  }

  // ----- chains of compatible profiles -----

  /** No path is an object in one and something else in the other. */
  ghost predicate NoClash(a: Json, b: Json) {
    forall p :: Get(a, p).Some? && Get(b, p).Some? ==> (Get(a, p).value.Obj? <==> Get(b, p).value.Obj?)
  }

  /** Wake phrases are never given as an object. */
  ghost predicate PlainPhrases(a: Json) {
    forall p :: p != [] && p[|p| - 1] == WAKE_PHRASES && Get(a, p).Some? ==> !Get(a, p).value.Obj?
  }

  ghost predicate Compatible(chain: seq<Json>) {
    && AllObjects(chain)
    && (forall i, j :: 0 <= i < |chain| && 0 <= j < |chain| ==> NoClash(chain[i], chain[j]))
    && (forall i :: 0 <= i < |chain| ==> PlainPhrases(chain[i]))
  }

  lemma ClashBelow(a: Json, b: Json, k: string)
    requires a.Obj? && b.Obj? && NoClash(a, b) && PlainPhrases(a) && k in a.fields && k in b.fields
    ensures NoClash(a.fields[k], b.fields[k]) && PlainPhrases(a.fields[k])
    ensures a.fields[k].Obj? <==> b.fields[k].Obj?
    ensures k == WAKE_PHRASES ==> !a.fields[k].Obj?
  {
    GetStep(a, k, []);
    GetStep(b, k, []);
    forall q | Get(a.fields[k], q).Some? && Get(b.fields[k], q).Some?
      ensures Get(a.fields[k], q).value.Obj? <==> Get(b.fields[k], q).value.Obj?
    {
      GetStep(a, k, q);
      GetStep(b, k, q);
      assert Get(a, [k] + q) == Get(a.fields[k], q) && Get(b, [k] + q) == Get(b.fields[k], q);
    }
    forall q | q != [] && q[|q| - 1] == WAKE_PHRASES && Get(a.fields[k], q).Some?
      ensures !Get(a.fields[k], q).value.Obj?
    {
      GetStep(a, k, q);
      assert ([k] + q)[|[k] + q| - 1] == WAKE_PHRASES;
    }
    assert k == WAKE_PHRASES ==> Get(a, [k]) == Some(a.fields[k]) && [k][|[k]| - 1] == WAKE_PHRASES;
  }

  lemma {:induction false} CompatibleLayers(a: Json, b: Json)
    requires a.Obj? && b.Obj? && NoClash(a, b) && PlainPhrases(a)
    ensures Layers(a, b)
    decreases b
  {
    forall k | k in a.fields && k in b.fields
      ensures var x, y := a.fields[k], b.fields[k];
        if y.Obj? then x.Obj? && (if k == WAKE_PHRASES then LeavesWithin(x, y) else Layers(x, y))
        else x.Obj? ==> !HasLeaf(x)
    {
      ClashBelow(a, b, k);
      if b.fields[k].Obj? { CompatibleLayers(a.fields[k], b.fields[k]); }
    }
  }

  /** Whatever is at a path of the merge is of the kind one of the two has there. */
  lemma {:induction false} MergeKind(a: Json, b: Json, p: Path)
    requires a.Obj? && b.Obj? && Get(Merge(a, b), p).Some?
    ensures (Get(b, p).Some? && (Get(b, p).value.Obj? <==> Get(Merge(a, b), p).value.Obj?))
         || (Get(a, p).Some? && (Get(a, p).value.Obj? <==> Get(Merge(a, b), p).value.Obj?))
    decreases b
  {
    if p == [] {
    } else {
      var k, q := p[0], p[1..];
      if k in b.fields && k != WAKE_PHRASES && b.fields[k].Obj? && k in a.fields && a.fields[k].Obj? {
        MergeKind(a.fields[k], b.fields[k], q);
      }
    }
  }

  lemma MergeCompatible(a: Json, b: Json, c: Json)
    requires a.Obj? && b.Obj? && NoClash(a, c) && NoClash(b, c) && PlainPhrases(a) && PlainPhrases(b)
    ensures NoClash(Merge(a, b), c) && PlainPhrases(Merge(a, b))
  {
    forall p | Get(Merge(a, b), p).Some? && Get(c, p).Some?
      ensures Get(Merge(a, b), p).value.Obj? <==> Get(c, p).value.Obj?
    {
      MergeKind(a, b, p);
    }
    forall p | p != [] && p[|p| - 1] == WAKE_PHRASES && Get(Merge(a, b), p).Some?
      ensures !Get(Merge(a, b), p).value.Obj?
    {
      MergeKind(a, b, p);
    }
  }

  lemma {:induction false} ChainCompatible(chain: seq<Json>, c: Json)
    requires Compatible(chain) && chain != [] && forall i :: 0 <= i < |chain| ==> NoClash(chain[i], c)
    ensures NoClash(MergeAll(chain), c) && PlainPhrases(MergeAll(chain))
  {
    if |chain| <= 1 {
    } else {
      var prev, last := chain[..|chain| - 1], chain[|chain| - 1];
      ChainCompatible(prev, c);
      MergeCompatible(MergeAll(prev), last, c);
    }
  }

  /** Each leaf path of the merged chain has the value of the most derived profile defining it. */
  lemma {:induction false} MergedChainIsMostDerived(chain: seq<Json>, p: Path)
    requires Compatible(chain) && p != []
    ensures Leaf(MergeAll(chain), p) == MostDerived(chain, p)
  {
    if chain == [] {
    } else {
      var prev, last := chain[..|chain| - 1], chain[|chain| - 1];
      MergedChainIsMostDerived(prev, p);
      if prev == [] {
        assert MostDerived(prev, p) == None;
      } else {
        ChainCompatible(prev, last);
        CompatibleLayers(MergeAll(prev), last);
        LayersOverlay(MergeAll(prev), last, p);
      }
    }
  }

  // ----- algebra of the merge -----

  lemma {:induction false} EmptyIsIdentity(a: Json)
    requires a.Obj?
    ensures Merge(a, Empty) == a && Merge(Empty, a) == a
  {
  }

  /** Does merging `c` over `a` give `c` back? Every key of `a` is in `c`, and so on inside shared objects. */
  ghost predicate Absorbs(c: Json, a: Json)
    requires a.Obj? && c.Obj?
    decreases c
  {
    forall k :: k in a.fields ==>
      k in c.fields && (k != WAKE_PHRASES && a.fields[k].Obj? && c.fields[k].Obj? ==> Absorbs(c.fields[k], a.fields[k]))
  }

  lemma {:induction false} AbsorbsIff(c: Json, a: Json)
    requires a.Obj? && c.Obj?
    ensures Merge(a, c) == c <==> Absorbs(c, a)
    decreases c
  {
    forall k | k in a.fields && k in c.fields && k != WAKE_PHRASES && a.fields[k].Obj? && c.fields[k].Obj? {
      AbsorbsIff(c.fields[k], a.fields[k]);
    }
    var m := Merge(a, c);
    if Absorbs(c, a) {
      assert m.fields == c.fields;
    }
    if m == c {
      forall k | k in a.fields ensures k in c.fields { assert k in m.fields; }
      forall k | k in a.fields && k != WAKE_PHRASES && a.fields[k].Obj? && c.fields[k].Obj?
        ensures Absorbs(c.fields[k], a.fields[k])
      {
        assert m.fields[k] == c.fields[k];
      }
    }
  }

  /** Under this key the outer two of three profiles have objects that could be merged. */
  predicate Sandwiched(a: Json, b: Json, c: Json, k: string)
    requires a.Obj? && b.Obj? && c.Obj?
  {
    && k in a.fields && k in b.fields && k in c.fields
    && k != WAKE_PHRASES && a.fields[k].Obj? && c.fields[k].Obj?
  }

  /**
   The one obstacle to associativity: a value in the middle between two objects. Merging the middle
   first hides the first object; merging the last two first lets it through, unless the third absorbs it.
   */
  ghost predicate Associable(a: Json, b: Json, c: Json)
    requires a.Obj? && b.Obj? && c.Obj?
    decreases c
  {
    forall k :: Sandwiched(a, b, c, k) ==>
      if b.fields[k].Obj? then Associable(a.fields[k], b.fields[k], c.fields[k]) else Absorbs(c.fields[k], a.fields[k])
  }

  /** Under one key: the two ways of merging agree there exactly when the condition holds there. */
  lemma AssociativeAt(a: Json, b: Json, c: Json, k: string)
    requires a.Obj? && b.Obj? && c.Obj? && k in a.fields.Keys + b.fields.Keys + c.fields.Keys
    ensures var left, right := Merge(Merge(a, b), c), Merge(a, Merge(b, c));
      if Sandwiched(a, b, c, k) then
        if b.fields[k].Obj? then
          && left.fields[k] == Merge(Merge(a.fields[k], b.fields[k]), c.fields[k])
          && right.fields[k] == Merge(a.fields[k], Merge(b.fields[k], c.fields[k]))
        else
          left.fields[k] == c.fields[k] && right.fields[k] == Merge(a.fields[k], c.fields[k])
      else left.fields[k] == right.fields[k]
  {
  }

  lemma {:induction false} MergeAssociativeIff(a: Json, b: Json, c: Json)
    requires a.Obj? && b.Obj? && c.Obj?
    ensures Merge(Merge(a, b), c) == Merge(a, Merge(b, c)) <==> Associable(a, b, c)
    decreases c
  {
    var left, right := Merge(Merge(a, b), c), Merge(a, Merge(b, c));
    assert left.fields.Keys == right.fields.Keys;
    forall k | k in left.fields
      ensures left.fields[k] == right.fields[k] <==>
        (Sandwiched(a, b, c, k) ==>
          if b.fields[k].Obj? then Associable(a.fields[k], b.fields[k], c.fields[k])
          else Absorbs(c.fields[k], a.fields[k]))
    {
      AssociativeAt(a, b, c, k);
      if Sandwiched(a, b, c, k) {
        if b.fields[k].Obj? {
          MergeAssociativeIff(a.fields[k], b.fields[k], c.fields[k]);
        } else {
          AbsorbsIff(c.fields[k], a.fields[k]);
        }
      }
    }
    if Associable(a, b, c) {
      assert left.fields == right.fields;
    }
  }

  /** Three profiles that differ in kind: grouping matters. */
  lemma GroupingMatters()
    ensures var a, b, c := Obj(map["x" := Obj(map["p" := Null])]), Obj(map["x" := Null]), Obj(map["x" := Empty]);
      Merge(Merge(a, b), c) != Merge(a, Merge(b, c))
  {
    var a, b, c := Obj(map["x" := Obj(map["p" := Null])]), Obj(map["x" := Null]), Obj(map["x" := Empty]);
    assert "x"[0] != WAKE_PHRASES[0];
    assert "p" in a.fields["x"].fields;
    MergeAssociativeIff(a, b, c);
  }
}
