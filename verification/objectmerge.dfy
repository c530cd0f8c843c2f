/** The two `deepMerge` functions of the widget: the one in the module build's
    utilities and the one inside the CDN build's widget class. Both overlay
    their arguments left to right with `for … in`; they differ only in which
    values start a recursive merge. */
module ObjectMerge {
  import opened JsValue

  /** `Utils` recurses into non-null, non-array objects; `Cdn` tests only
      `typeof v === 'object' && !Array.isArray(v)`, so it recurses into `null` too. */
  datatype Variant = Utils | Cdn

  predicate Recurses(variant: Variant, v: Json) {
    v.Obj? || (variant == Cdn && v.Null?)
  }

  // ---------------------------------------------------------------------
  // Copying: `deepMerge(x)` with a single argument
  // ---------------------------------------------------------------------

  /** The properties `deepMerge(x)` builds from a single argument `x`:
      every own property of `x`, with merge-recursive values rebuilt. */
  function Copy(variant: Variant, x: Json): map<string, Json>
    decreases x, 1
  {
    match x
    case Obj(m) => map k | k in m :: CopyValue(variant, m[k])
    case Arr(items) => CopyItems(variant, x, |items|)
    case Str(s) => CharProps(s)
    case _ => map[]
  }

  function CopyItems(variant: Variant, owner: Json, n: nat): map<string, Json>
    requires owner.Arr? && n <= |owner.items|
    decreases owner, 0, n
  {
    if n == 0 then map[]
    else CopyItems(variant, owner, n - 1)[IndexKey(n - 1) := CopyValue(variant, owner.items[n - 1])]
  }

  function CopyValue(variant: Variant, v: Json): (r: Json)
    decreases v, 2
  {
    if Recurses(variant, v) then Obj(Copy(variant, v)) else v
  }

  // ---------------------------------------------------------------------
  // The merge itself
  // ---------------------------------------------------------------------

  /** One pass of `for (const key in obj)` over the plain object `o` into the
      partial result `acc`: a merge-recursive value is merged into a copy of
      `acc[key] || {}`, any other value is assigned. A non-object `o` (the
      `null` a Cdn recursion reaches) has no properties and leaves `acc`. */
  function MergeFields(variant: Variant, acc: map<string, Json>, o: Json): (r: map<string, Json>)
    ensures r.Keys == acc.Keys + (if o.Obj? then o.fields.Keys else {})
    ensures o.Obj? ==> forall k :: k in o.fields && !Recurses(variant, o.fields[k]) ==> r[k] == o.fields[k]
    ensures forall k :: k in acc && !(o.Obj? && k in o.fields) ==> r[k] == acc[k]
    decreases o, 0
  {
    match o
    case Obj(m) =>
      map k | k in acc.Keys + m.Keys :: if k in m then Assign(variant, Lookup(acc, k), m[k]) else acc[k]
    case _ => acc
  }

  /** `result[key]` after visiting `key ↦ v` when it held `prev`. The source
      writes the recursive case as `deepMerge(prev || {}, v)`; that is a copy
      of `prev || {}` overlaid with `v` (see `CopyIsMergeIntoEmpty`). */
  function Assign(variant: Variant, prev: Json, v: Json): (r: Json)
    ensures Recurses(variant, v) ==> r.Obj?
    ensures !Recurses(variant, v) ==> r == v
    decreases v, 1
  {
    if Recurses(variant, v) then Obj(MergeFields(variant, Copy(variant, Or(prev, EmptyObj)), v)) else v
  }

  /** Visiting one top-level argument: `for … in` walks its own properties. */
  function MergeArg(variant: Variant, acc: map<string, Json>, o: Json): map<string, Json> {
    MergeFields(variant, acc, ArgView(o))
  }

  /** `deepMerge(...objects)`: start from `{}` and visit the arguments left to right. */
  function DeepMerge(variant: Variant, objects: seq<Json>): (r: map<string, Json>)
    ensures r.Keys == KeyUnion(objects)
    decreases |objects|
  {
    if |objects| == 0 then map[]
    else MergeArg(variant, DeepMerge(variant, objects[..|objects| - 1]), objects[|objects| - 1])
  }

  /** `isObject(item)` from the utilities: `item && typeof item === 'object' &&
      !Array.isArray(item)`. A falsy `item` is returned as it is. */
  function IsObject(item: Json): (r: Json)
    ensures Truthy(r) <==> item.Obj?
    ensures !Truthy(item) ==> r == item
    ensures Truthy(item) ==> r.Bool?
  {
    if !Truthy(item) then item else Bool(item.Obj?)
  }

  // ---------------------------------------------------------------------
  // Copy lemmas
  // ---------------------------------------------------------------------

  lemma {:induction false} CopyItemsSpec(variant: Variant, owner: Json, n: nat)
    requires owner.Arr? && n <= |owner.items|
    ensures CopyItems(variant, owner, n)
         == map k | k in IndexProps(owner.items[..n]) :: CopyValue(variant, IndexProps(owner.items[..n])[k])
    decreases n
  {
    var items := owner.items;
    if n > 0 {
      CopyItemsSpec(variant, owner, n - 1);
      assert items[..n][..n - 1] == items[..n - 1];
    }
  }

  lemma {:induction false} AssignUndefinedIsCopy(variant: Variant, v: Json)
    ensures Assign(variant, Undefined, v) == CopyValue(variant, v)
    decreases v, 3
  {
    if v.Obj? {
      CopyIsMergeIntoEmpty(variant, v);
      assert ArgView(v) == v;
    }
  }

  /** What the source computes for `deepMerge(x || {}, …)` before visiting the
      second argument is exactly `Copy`: merging `x` into `{}`. */
  lemma {:induction false} CopyIsMergeIntoEmpty(variant: Variant, x: Json)
    ensures MergeFields(variant, map[], ArgView(x)) == Copy(variant, x)
    decreases x, 2
  {
    var props := OwnProps(x);
    var lhs := MergeFields(variant, map[], ArgView(x));
    match x {
      case Obj(m) =>
        forall k | k in m ensures lhs[k] == Copy(variant, x)[k] {
          AssignUndefinedIsCopy(variant, m[k]);
        }
      case Arr(items) =>
        CopyItemsSpec(variant, x, |items|);
        assert items[..|items|] == items;
        forall k | k in props ensures lhs[k] == CopyValue(variant, props[k]) {
          IndexPropsValues(items, k);
          var i :| 0 <= i < |items| && IndexKey(i) == k && props[k] == items[i];
          AssignUndefinedIsCopy(variant, items[i]);
        }
      case Str(s) =>
        forall k | k in props ensures lhs[k] == props[k] {
          CharPropsAreStrings(s, k);
        }
      case _ =>
    }
  }

  lemma {:induction false} CopyValueIdentity(v: Json)
    ensures CopyValue(Utils, v) == v
    decreases v, 3
  {
    if v.Obj? {
      CopyIdentity(v);
    }
  }

  lemma {:induction false} CopyItemsIdentity(owner: Json, n: nat)
    requires owner.Arr? && n <= |owner.items|
    ensures CopyItems(Utils, owner, n) == IndexProps(owner.items[..n])
    decreases owner, 0, n
  {
    var items := owner.items;
    if n > 0 {
      CopyItemsIdentity(owner, n - 1);
      CopyValueIdentity(items[n - 1]);
      assert items[..n][..n - 1] == items[..n - 1];
    }
  }

  /** In the utilities' merge a copy never changes anything: `deepMerge({}, x)`
      has exactly the own properties of `x`, with equal values. */
  lemma {:induction false} CopyIdentity(x: Json)
    ensures Copy(Utils, x) == OwnProps(x)
    decreases x, 2
  {
    match x {
      case Obj(m) =>
        forall k | k in m ensures CopyValue(Utils, m[k]) == m[k] {
          CopyValueIdentity(m[k]);
        }
      case Arr(items) =>
        CopyItemsIdentity(x, |items|);
        assert items[..|items|] == items;
      case _ =>
    }
  }

  lemma {:induction false} CopyItemsKeys(variant: Variant, owner: Json, n: nat)
    requires owner.Arr? && n <= |owner.items|
    ensures CopyItems(variant, owner, n).Keys == IndexProps(owner.items[..n]).Keys
    decreases n
  {
    if n > 0 {
      CopyItemsKeys(variant, owner, n - 1);
      assert owner.items[..n][..n - 1] == owner.items[..n - 1];
    }
  }

  /** Copying keeps exactly the own property names. */
  lemma CopyKeys(variant: Variant, x: Json)
    ensures Copy(variant, x).Keys == OwnProps(x).Keys
  {
    if x.Arr? {
      CopyItemsKeys(variant, x, |x.items|);
      assert x.items[..|x.items|] == x.items;
    }
  }

  // ---------------------------------------------------------------------
  // Properties of deepMerge
  // ---------------------------------------------------------------------

  function WithoutNullish(objects: seq<Json>): (r: seq<Json>)
    ensures forall i :: 0 <= i < |r| ==> !Nullish(r[i])
    decreases |objects|
  {
    if |objects| == 0 then []
    else
      var init := WithoutNullish(objects[..|objects| - 1]);
      if Nullish(objects[|objects| - 1]) then init else init + [objects[|objects| - 1]]
  }

  lemma {:induction false} MergeDropsNullish(variant: Variant, objects: seq<Json>)
    ensures DeepMerge(variant, objects) == DeepMerge(variant, WithoutNullish(objects))
    decreases |objects|
  {
    if |objects| > 0 {
      var init := objects[..|objects| - 1];
      var last := objects[|objects| - 1];
      MergeDropsNullish(variant, init);
      var w := WithoutNullish(init);
      if Nullish(last) {
        var acc := DeepMerge(variant, init);
        assert MergeArg(variant, acc, last) == acc;
      } else {
        assert (w + [last])[..|w + [last]| - 1] == w;
      }
    }
  }

  /** Merging only `null`/`undefined` arguments (or none at all) gives `{}`. */
  lemma NullishOnlyGivesEmpty(variant: Variant, objects: seq<Json>)
    requires forall i :: 0 <= i < |objects| ==> Nullish(objects[i])
    ensures DeepMerge(variant, objects) == map[]
  {
    MergeDropsNullish(variant, objects);
    NoNullishLeft(objects);
  }

  lemma {:induction false} NoNullishLeft(objects: seq<Json>)
    requires forall i :: 0 <= i < |objects| ==> Nullish(objects[i])
    ensures WithoutNullish(objects) == []
    decreases |objects|
  {
    if |objects| > 0 {
      NoNullishLeft(objects[..|objects| - 1]);
    }
  }

  /** The union of the own property names of all arguments. */
  function KeyUnion(objects: seq<Json>): set<string>
    decreases |objects|
  {
    if |objects| == 0 then {} else KeyUnion(objects[..|objects| - 1]) + OwnProps(objects[|objects| - 1]).Keys
  }

  /** The result's keys are exactly the keys of the arguments together. */
  lemma {:induction false} MergeKeys(variant: Variant, objects: seq<Json>)
    ensures DeepMerge(variant, objects).Keys == KeyUnion(objects)
    ensures forall i, k :: 0 <= i < |objects| && k in OwnProps(objects[i]) ==> k in DeepMerge(variant, objects)
    decreases |objects|
  {
    if |objects| > 0 {
      MergeKeys(variant, objects[..|objects| - 1]);
      forall i, k | 0 <= i < |objects| && k in OwnProps(objects[i])
        ensures k in DeepMerge(variant, objects)
      {
        if i < |objects| - 1 {
          assert objects[i] == objects[..|objects| - 1][i];
        }
      }
    }
  }

  /** "Later objects overwrite earlier ones": the value at `k` is the one given
      by the last argument that has `k`, whenever that value is assigned
      rather than merged (a scalar, an array, and in the utilities `null`). */
  lemma {:induction false} LastAssignmentWins(variant: Variant, objects: seq<Json>, j: nat, k: string)
    requires j < |objects| && k in OwnProps(objects[j])
    requires !Recurses(variant, OwnProps(objects[j])[k])
    requires forall i :: j < i < |objects| ==> k !in OwnProps(objects[i])
    ensures k in DeepMerge(variant, objects)
    ensures DeepMerge(variant, objects)[k] == OwnProps(objects[j])[k]
    decreases |objects|
  {
    var n := |objects| - 1;
    var init := objects[..n];
    if j < n {
      assert objects[j] == init[j];
      forall i | j < i < |init| ensures k !in OwnProps(init[i]) {
        assert init[i] == objects[i];
      }
      LastAssignmentWins(variant, init, j, k);
    }
  }

  /** Two plain objects at the same key are merged recursively
      (utilities' merge): the result at `k` is the merge of the two values. */
  lemma MergesNestedObjects(a: Json, b: Json, k: string)
    requires k in OwnProps(a) && OwnProps(a)[k].Obj?
    requires k in OwnProps(b) && OwnProps(b)[k].Obj?
    ensures k in DeepMerge(Utils, [a, b])
    ensures DeepMerge(Utils, [a, b])[k] == Obj(DeepMerge(Utils, [OwnProps(a)[k], OwnProps(b)[k]]))
  {
    var x := OwnProps(a)[k];
    var y := OwnProps(b)[k];
    assert [a, b][..1] == [a];
    assert [a][..0] == [];
    assert [x, y][..1] == [x];
    assert [x][..0] == [];
    CopyIsMergeIntoEmpty(Utils, a);
    CopyIdentity(a);
    CopyIsMergeIntoEmpty(Utils, x);
    CopyIdentity(x);
    assert ArgView(x) == x && ArgView(y) == y;
    var first := DeepMerge(Utils, [a]);
    SingleArg(Utils, a);
    assert first == OwnProps(a);
    var inner := MergeFields(Utils, x.fields, y);
    assert DeepMerge(Utils, [x]) == x.fields;
    assert DeepMerge(Utils, [x, y]) == inner;
    calc {
      DeepMerge(Utils, [a, b])[k];
      MergeFields(Utils, first, ArgView(b))[k];
      Assign(Utils, x, y);
      Obj(MergeFields(Utils, Copy(Utils, x), y));
      Obj(inner);
    }
  }

  lemma SingleArg(variant: Variant, a: Json)
    ensures DeepMerge(variant, [a]) == Copy(variant, a)
  {
    assert [a][..0] == [];
    assert DeepMerge(variant, [a]) == MergeArg(variant, DeepMerge(variant, []), a);
    CopyIsMergeIntoEmpty(variant, a);
  }

  /** Consequence: a nested key present only in the earlier argument survives. */
  lemma NestedKeySurvives(a: Json, b: Json, k: string, j: string)
    requires k in OwnProps(a) && OwnProps(a)[k].Obj?
    requires k in OwnProps(b) && OwnProps(b)[k].Obj?
    requires j in OwnProps(a)[k].fields && j !in OwnProps(b)[k].fields
    ensures k in DeepMerge(Utils, [a, b]) && DeepMerge(Utils, [a, b])[k].Obj?
    ensures j in DeepMerge(Utils, [a, b])[k].fields
    ensures DeepMerge(Utils, [a, b])[k].fields[j] == OwnProps(a)[k].fields[j]
  {
    var x := OwnProps(a)[k];
    var y := OwnProps(b)[k];
    MergesNestedObjects(a, b, k);
    assert [x, y][..1] == [x];
    assert [x][..0] == [];
    CopyIsMergeIntoEmpty(Utils, x);
    CopyIdentity(x);
    assert DeepMerge(Utils, [x]) == x.fields;
    assert ArgView(y) == y;
    var inner := MergeFields(Utils, x.fields, y);
    assert DeepMerge(Utils, [x, y]) == inner;
    assert j in inner && inner[j] == x.fields[j];
  }

  /** Many arguments merged at once equal a left fold of the two-argument merge. */
  function FoldPairwise(objects: seq<Json>): map<string, Json>
    decreases |objects|
  {
    if |objects| == 0 then map[]
    else DeepMerge(Utils, [Obj(FoldPairwise(objects[..|objects| - 1])), objects[|objects| - 1]])
  }

  lemma {:induction false} MergeIsPairwiseFold(objects: seq<Json>)
    ensures DeepMerge(Utils, objects) == FoldPairwise(objects)
    decreases |objects|
  {
    if |objects| > 0 {
      var init := objects[..|objects| - 1];
      var last := objects[|objects| - 1];
      MergeIsPairwiseFold(init);
      var m := FoldPairwise(init);
      assert [Obj(m), last][..1] == [Obj(m)];
      assert [Obj(m)][..0] == [];
      CopyIsMergeIntoEmpty(Utils, Obj(m));
      CopyIdentity(Obj(m));
      assert DeepMerge(Utils, [Obj(m)]) == m;
      assert FoldPairwise(objects) == MergeArg(Utils, m, last);
    }
  }

  /** No `null` anywhere along the object nesting of `j` (arrays are not
      looked into, as the merge does not look into them either). */
  predicate NullFree(j: Json)
    decreases j
  {
    !j.Null? && (j.Obj? ==> forall k :: k in j.fields ==> NullFree(j.fields[k]))
  }

  lemma {:induction false} CopyValueNullFree(v: Json)
    ensures NullFree(CopyValue(Cdn, v))
    decreases v, 3
  {
    if Recurses(Cdn, v) {
      CopyNullFree(v);
    }
  }

  /** The CDN copy replaces every `null` it meets with `{}`. */
  lemma {:induction false} CopyNullFree(x: Json)
    ensures NullFree(Obj(Copy(Cdn, x)))
    decreases x, 2
  {
    var c := Copy(Cdn, x);
    match x {
      case Obj(m) =>
        forall k | k in c ensures NullFree(c[k]) {
          CopyValueNullFree(m[k]);
        }
      case Arr(items) =>
        CopyItemsSpec(Cdn, x, |items|);
        assert items[..|items|] == items;
        forall k | k in c ensures NullFree(c[k]) {
          IndexPropsValues(items, k);
          var i :| 0 <= i < |items| && IndexKey(i) == k && IndexProps(items)[k] == items[i];
          CopyValueNullFree(items[i]);
        }
      case Str(s) =>
        forall k | k in c ensures NullFree(c[k]) {
          CharPropsAreStrings(s, k);
        }
      case _ =>
    }
  }

  /** On a `null`-free object the CDN copy changes nothing. */
  lemma {:induction false} CopyOfNullFree(x: Json)
    requires x.Obj? && NullFree(x)
    ensures Copy(Cdn, x) == x.fields
    decreases x
  {
    forall k | k in x.fields ensures CopyValue(Cdn, x.fields[k]) == x.fields[k] {
      if x.fields[k].Obj? {
        CopyOfNullFree(x.fields[k]);
      }
    }
  }

  lemma {:induction false} AssignNullFree(prev: Json, v: Json)
    ensures NullFree(Assign(Cdn, prev, v))
    decreases v, 1
  {
    if Recurses(Cdn, v) {
      CopyNullFree(Or(prev, EmptyObj));
      MergeFieldsNullFree(Copy(Cdn, Or(prev, EmptyObj)), v);
    }
  }

  /** One pass of the CDN merge keeps the partial result `null`-free, whatever
      the argument holds: every `null` it brings starts a recursive merge. */
  lemma {:induction false} MergeFieldsNullFree(acc: map<string, Json>, o: Json)
    requires NullFree(Obj(acc))
    ensures NullFree(Obj(MergeFields(Cdn, acc, o)))
    decreases o, 0
  {
    var r := MergeFields(Cdn, acc, o);
    if o.Obj? {
      forall k | k in r ensures NullFree(r[k]) {
        if k in o.fields {
          AssignNullFree(Lookup(acc, k), o.fields[k]);
        }
      }
    }
  }

  /** The CDN merge never produces `null` at any depth of object nesting. */
  lemma {:induction false} DeepMergeNullFree(objects: seq<Json>)
    ensures NullFree(Obj(DeepMerge(Cdn, objects)))
    decreases |objects|
  {
    if |objects| > 0 {
      DeepMergeNullFree(objects[..|objects| - 1]);
      MergeFieldsNullFree(DeepMerge(Cdn, objects[..|objects| - 1]), ArgView(objects[|objects| - 1]));
    }
  }

  /** In the CDN merge a later `null` never erases: an earlier object is kept
      as it was, and a falsy earlier value becomes `{}`. A truthy non-object
      earlier value is not kept either way: a number or `true` becomes `{}`,
      a string the object of its characters, an array the object of its
      indices. The utilities' merge assigns the `null`. */
  lemma NullNeverErases(objects: seq<Json>, k: string)
    requires |objects| > 0
    requires k in OwnProps(objects[|objects| - 1]) && OwnProps(objects[|objects| - 1])[k].Null?
    ensures k in DeepMerge(Cdn, objects) && DeepMerge(Cdn, objects)[k].Obj?
    ensures var prev := Lookup(DeepMerge(Cdn, objects[..|objects| - 1]), k);
            && (prev.Obj? ==> DeepMerge(Cdn, objects)[k] == prev)
            && (!Truthy(prev) ==> DeepMerge(Cdn, objects)[k] == EmptyObj)
            && (prev.Num? || prev.Bool? ==> DeepMerge(Cdn, objects)[k] == EmptyObj)
            && (prev.Str? ==> DeepMerge(Cdn, objects)[k] == Obj(CharProps(prev.s)))
            && (prev.Arr? ==> DeepMerge(Cdn, objects)[k].fields.Keys == IndexProps(prev.items).Keys)
    ensures DeepMerge(Utils, objects)[k] == Null
  {
    var acc := DeepMerge(Cdn, objects[..|objects| - 1]);
    var prev := Lookup(acc, k);
    var o := ArgView(objects[|objects| - 1]);
    assert o.fields[k] == Null;
    CopyKeys(Cdn, Or(prev, EmptyObj));
    assert DeepMerge(Cdn, objects)[k] == Assign(Cdn, prev, Null);
    assert Assign(Cdn, prev, Null) == Obj(Copy(Cdn, Or(prev, EmptyObj)));
    if prev.Obj? {
      DeepMergeNullFree(objects[..|objects| - 1]);
      CopyOfNullFree(prev);
    }
  }

  // ---------------------------------------------------------------------
  // Precedence along a property path
  // ---------------------------------------------------------------------

  /** Every step of `path` inside `j` is a plain object (or missing), and the
      value at the end, if present, is a leaf: it is assigned, not merged. */
  predicate Leafy(variant: Variant, j: Json, path: seq<string>)
    decreases |path|
  {
    if |path| == 0 then !Recurses(variant, j)
    else j.Obj? && (path[0] in j.fields ==> Leafy(variant, j.fields[path[0]], path[1..]))
  }

  /** Reference definition of precedence: the value at `path` in the LAST
      argument that has it, `undefined` when none does. */
  function LatestAt(objects: seq<Json>, path: seq<string>): Json
    decreases |objects|
  {
    if |objects| == 0 then Undefined
    else if HasPath(ArgView(objects[|objects| - 1]), path) then GetPath(ArgView(objects[|objects| - 1]), path)
    else LatestAt(objects[..|objects| - 1], path)
  }

  lemma {:induction false} GetPathOfNonObject(j: Json, path: seq<string>)
    requires !j.Obj? && |path| > 0
    ensures GetPath(j, path) == Undefined
    decreases |path|
  {
    if |path| > 1 {
      GetPathOfNonObject(Undefined, path[1..]);
    }
  }

  lemma {:induction false} CopyPath(variant: Variant, x: Json, path: seq<string>)
    requires |path| > 0 && Leafy(variant, x, path)
    ensures Leafy(variant, Obj(Copy(variant, x)), path)
    ensures HasPath(Obj(Copy(variant, x)), path) == HasPath(x, path)
    ensures GetPath(Obj(Copy(variant, x)), path) == GetPath(x, path)
    decreases |path|
  {
    var k := path[0];
    var rest := path[1..];
    var c := Copy(variant, x);
    if k in x.fields {
      var v := x.fields[k];
      assert c[k] == CopyValue(variant, v);
      if |rest| > 0 {
        CopyPath(variant, v, rest);
      }
    } else {
      GetPathOfNonObject(Undefined, path);
      if |rest| > 0 {
        GetPathOfNonObject(Undefined, rest);
      }
    }
  }

  lemma {:induction false} MergePathStep(variant: Variant, acc: map<string, Json>, o: Json, path: seq<string>)
    requires |path| > 0 && Leafy(variant, Obj(acc), path) && Leafy(variant, o, path)
    ensures Leafy(variant, Obj(MergeFields(variant, acc, o)), path)
    ensures GetPath(Obj(MergeFields(variant, acc, o)), path)
         == if HasPath(o, path) then GetPath(o, path) else GetPath(Obj(acc), path)
    decreases |path|
  {
    var k := path[0];
    var rest := path[1..];
    var r := MergeFields(variant, acc, o);
    if k in o.fields {
      var v := o.fields[k];
      if |rest| > 0 {
        var prev := Lookup(acc, k);
        var base := Or(prev, EmptyObj);
        assert r[k] == Obj(MergeFields(variant, Copy(variant, base), v));
        if k in acc {
          CopyPath(variant, prev, rest);
        } else {
          assert Copy(variant, base) == map[];
          if |rest| > 0 {
            GetPathOfNonObject(Undefined, rest);
          }
        }
        MergePathStep(variant, Copy(variant, base), v, rest);
      }
    } else {
      if k !in acc && |rest| > 0 {
        GetPathOfNonObject(Undefined, rest);
      }
    }
  }

  /** Precedence: along a path whose steps are objects in every argument, the
      merged value is the one from the last argument that has the path. */
  lemma {:induction false} MergePrecedence(variant: Variant, objects: seq<Json>, path: seq<string>)
    requires |path| > 0
    requires forall i :: 0 <= i < |objects| ==> Leafy(variant, ArgView(objects[i]), path)
    ensures Leafy(variant, Obj(DeepMerge(variant, objects)), path)
    ensures GetPath(Obj(DeepMerge(variant, objects)), path) == LatestAt(objects, path)
    decreases |objects|
  {
    if |objects| == 0 {
      if |path| > 1 {
        GetPathOfNonObject(Undefined, path[1..]);
      }
    } else {
      var init := objects[..|objects| - 1];
      forall i | 0 <= i < |init| ensures Leafy(variant, ArgView(init[i]), path) {
        assert init[i] == objects[i];
      }
      MergePrecedence(variant, init, path);
      MergePathStep(variant, DeepMerge(variant, init), ArgView(objects[|objects| - 1]), path);
    }
  }
}
