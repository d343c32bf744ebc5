/** Undoing the flattening: the generated action's jq expression splits each input's name at the separator, sets the
    value at that path and drops two top-level names. Also the update action's default queries, which rewrite
    separators. */
module CrdUnflatten {
  import opened Basics
  import CrdFlatten

  const SEP := "__"

  // ---- splitting names ----

  predicate HasSep(s: string) { exists i :: 0 <= i < |s| - 1 && s[i] == '_' && s[i + 1] == '_' }

  /** Splitting at each leftmost separator. */
  function Split(s: string): (parts: seq<string>)
    ensures parts != []
  {
    if |s| < 2 then [s]
    else if s[0] == '_' && s[1] == '_' then [""] + Split(s[2..])
    else
      var rest := Split(s[1..]);
      [[s[0]] + rest[0]] + rest[1..]
  }

  /** The path an input's name stands for: names without a separator are not split. */
  function PathOf(key: string): seq<string> {
    if HasSep(key) then Split(key) else [key]
  }

  /** The name under which flattening stores a leaf: see `CrdFlatten.Join`. An empty prefix counts as none. */
  function FlatKey(path: seq<string>): string
    requires path != []
  {
    if |path| == 1 then path[0] else CrdFlatten.Join(FlatKey(path[..|path| - 1]), SEP, path[|path| - 1])
  }

  function PlainJoin(path: seq<string>): string
    requires path != []
  {
    if |path| == 1 then path[0] else path[0] + SEP + PlainJoin(path[1..])
  }

  predicate EndsInUnderscore(s: string) { s != "" && s[|s| - 1] == '_' }

  /** No segment contains the separator, and none but the last ends in an underscore. */
  ghost predicate Splittable(path: seq<string>) {
    && path != []
    && (forall i :: 0 <= i < |path| ==> !HasSep(path[i]))
    && (forall i :: 0 <= i < |path| - 1 ==> !EndsInUnderscore(path[i]))
  }

  /** Paths that survive being joined and split: besides, the first of several segments is not empty. */
  ghost predicate WellFormed(path: seq<string>) {
    Splittable(path) && (|path| > 1 ==> path[0] != "")
  }

  lemma {:induction false} SplitWhole(s: string)
    requires !HasSep(s)
    ensures Split(s) == [s]
  {
    if |s| >= 2 {
      assert !(s[0] == '_' && s[1] == '_');
      forall i | 0 <= i < |s[1..]| - 1 ensures !(s[1..][i] == '_' && s[1..][i + 1] == '_') {
        assert s[1..][i] == s[i + 1] && s[1..][i + 1] == s[i + 2];
      }
      SplitWhole(s[1..]);
      assert [s[0]] + s[1..] == s;
    }
  }

  lemma {:induction false} SplitFirst(a: string, rest: string)
    requires !HasSep(a) && !EndsInUnderscore(a)
    ensures Split(a + SEP + rest) == [a] + Split(rest)
  {
    var s := a + SEP + rest;
    if a == "" {
      assert s[0] == '_' && s[1] == '_' && s[2..] == rest;
    } else {
      assert s[0] == a[0] && s[1..] == a[1..] + SEP + rest;
      assert s[1] == if |a| > 1 then a[1] else '_';
      forall i | 0 <= i < |a[1..]| - 1 ensures !(a[1..][i] == '_' && a[1..][i + 1] == '_') {
        assert a[1..][i] == a[i + 1] && a[1..][i + 1] == a[i + 2];
      }
      SplitFirst(a[1..], rest);
      assert [a[0]] + a[1..] == a;
    }
  }

  lemma {:induction false} SplitUndoesJoin(path: seq<string>)
    requires Splittable(path)
    ensures Split(PlainJoin(path)) == path
  {
    if |path| == 1 {
      SplitWhole(path[0]);
    } else {
      SplitUndoesJoin(path[1..]);
      SplitFirst(path[0], PlainJoin(path[1..]));
    }
  }

  lemma {:induction false} SplitParts(s: string)
    ensures Splittable(Split(s))
    ensures Split(s)[0] != "" ==> s != "" && Split(s)[0][0] == s[0]
    ensures Split(s)[0] == "" && |Split(s)| > 1 ==> |s| >= 2 && s[0] == '_' && s[1] == '_'
  {
    if |s| >= 2 {
      if s[0] == '_' && s[1] == '_' {
        SplitParts(s[2..]);
      } else {
        SplitParts(s[1..]);
        var rest := Split(s[1..]);
        var first := [s[0]] + rest[0];
        assert rest[0] != "" ==> rest[0][0] == s[1];
        forall i | 0 <= i < |first| - 1 ensures !(first[i] == '_' && first[i + 1] == '_') {
          if i > 0 {
            assert first[i] == rest[0][i - 1] && first[i + 1] == rest[0][i];
          }
        }
        assert rest[0] == "" && |rest| > 1 ==> s[1] == '_';
        assert rest[0] != "" ==> first[|first| - 1] == rest[0][|rest[0]| - 1];
      }
    }
  }

  lemma PathOfIsSplit(key: string)
    ensures PathOf(key) == Split(key) && Splittable(PathOf(key))
  {
    SplitParts(key);
    if !HasSep(key) {
      SplitWhole(key);
    }
  }

  lemma {:induction false} FlatKeyIsPlain(path: seq<string>)
    requires path != [] && (|path| > 1 ==> path[0] != "")
    ensures FlatKey(path) == PlainJoin(path)
    ensures path[0] != "" ==> FlatKey(path) != ""
  {
    if |path| > 1 {
      var n := |path| - 1;
      FlatKeyIsPlain(path[..n]);
      PlainJoinSnoc(path);
    }
  }

  lemma {:induction false} PlainJoinSnoc(path: seq<string>)
    requires |path| > 1
    ensures PlainJoin(path) == PlainJoin(path[..|path| - 1]) + SEP + path[|path| - 1]
  {
    var n := |path| - 1;
    if n > 1 {
      PlainJoinSnoc(path[1..]);
      assert path[1..][..n - 1] == path[..n][1..];
      var middle := PlainJoin(path[..n][1..]);
      assert path[0] + SEP + (middle + SEP + path[n]) == path[0] + SEP + middle + SEP + path[n];
    }
  }

  /** Leading empty segments leave no trace in the joined name. */
  lemma {:induction false} FlatKeyDropsEmpty(path: seq<string>)
    requires |path| > 1 && path[0] == ""
    ensures FlatKey(path) == FlatKey(path[1..])
  {
    var n := |path| - 1;
    if n > 1 {
      FlatKeyDropsEmpty(path[..n]);
      assert path[..n][1..] == path[1..][..n - 1];
    }
  }

  /** The path that a joined name is split into: the original without leading empty segments. */
  lemma {:induction false} PathOfFlatKey(path: seq<string>)
    requires Splittable(path)
    ensures WellFormed(PathOf(FlatKey(path)))
    ensures if |path| > 1 && path[0] == "" then |PathOf(FlatKey(path))| < |path| else PathOf(FlatKey(path)) == path
  {
    if |path| > 1 && path[0] == "" {
      FlatKeyDropsEmpty(path);
      PathOfFlatKey(path[1..]);
    } else {
      FlatKeyIsPlain(path);
      SplitUndoesJoin(path);
      PathOfIsSplit(FlatKey(path));
    }
  }

  /** Joining and splitting gives a path back if and only if it is well-formed. */
  lemma PathRoundTrip(path: seq<string>)
    requires path != []
    ensures PathOf(FlatKey(path)) == path <==> WellFormed(path)
  {
    PathOfIsSplit(FlatKey(path));
    if Splittable(path) {
      PathOfFlatKey(path);
    }
  }

  // ---- rebuilding the nested object ----

  datatype Json = Null | Atom(id: nat) | Obj(fields: map<string, Json>)

  type Fields = map<string, Json>

  ghost predicate LeafAt(f: Fields, path: seq<string>, v: Json)
    decreases |path|
  {
    && path != [] && path[0] in f
    && if |path| == 1 then f[path[0]] == v && !v.Obj? else f[path[0]].Obj? && LeafAt(f[path[0]].fields, path[1..], v)
  }

  /** Sets a value at a path, creating objects on the way; a scalar other than null cannot be descended into. */
  function SetPath(f: Fields, path: seq<string>, v: Json): Option<Fields>
    requires path != []
    decreases |path|
  {
    if |path| == 1 then Some(f[path[0] := v])
    else
      var sub := if path[0] in f then f[path[0]] else Null;
      if sub.Atom? then None
      else match SetPath(if sub.Obj? then sub.fields else map[], path[1..], v)
        case None => None
        case Some(g) => Some(f[path[0] := Obj(g)])
  }

  /** The reduction over the action's inputs in the given order. */
  function Rebuild(inputs: Fields, order: seq<string>): Option<Fields>
    requires forall key :: key in order ==> key in inputs
  {
    if order == [] then Some(map[])
    else
      var n := |order| - 1;
      PathOfIsSplit(order[n]);
      match Rebuild(inputs, order[..n])
      case None => None
      case Some(f) => SetPath(f, PathOf(order[n]), inputs[order[n]])
  }

  /** The spec the action sends: the rebuilt object without the resource's name and namespace. */
  function SpecOf(inputs: Fields, order: seq<string>): Option<Fields>
    requires forall key :: key in order ==> key in inputs
  {
    match Rebuild(inputs, order)
    case None => None
    case Some(f) => Some(f - {"name", "namespace"})
  }

  /** The inputs are the flattened form of `f`: one entry for each leaf, under its joined name. */
  ghost predicate IsFlatForm(inputs: Fields, f: Fields) {
    forall key, v :: (key in inputs && inputs[key] == v) <==> IsFlatLeaf(f, key, v)
  }

  ghost predicate IsFlatLeaf(f: Fields, key: string, v: Json) {
    exists path :: LeafAt(f, path, v) && FlatKey(path) == key
  }

  ghost predicate NoEmptyObjects(f: Fields)
    decreases Obj(f)
  {
    forall k :: k in f && f[k].Obj? ==> f[k].fields != map[] && NoEmptyObjects(f[k].fields)
  }

  ghost predicate WellFormedLeaves(f: Fields) {
    forall path, v :: LeafAt(f, path, v) ==> WellFormed(path)
  }

  /** `g` is `f` with some leaves missing. */
  ghost predicate Part(g: Fields, f: Fields)
    decreases Obj(f)
  {
    forall k :: k in g ==> k in f && (if g[k].Obj? then f[k].Obj? && Part(g[k].fields, f[k].fields) else g[k] == f[k])
  }

  /** Setting one of the leaves of `f` in a part of `f` gives a part of `f` with that leaf and the ones it had. */
  lemma {:induction false} SetLeaf(g: Fields, f: Fields, path: seq<string>, v: Json) returns (g': Fields)
    requires Part(g, f) && LeafAt(f, path, v)
    ensures SetPath(g, path, v) == Some(g') && Part(g', f) && LeafAt(g', path, v)
    ensures forall q, w :: LeafAt(g, q, w) ==> LeafAt(g', q, w)
    decreases |path|
  {
    var k := path[0];
    if |path| == 1 {
      g' := g[k := v];
    } else {
      var sub: Fields := if k in g && g[k].Obj? then g[k].fields else map[];
      assert k in g ==> g[k].Obj?;
      var sub' := SetLeaf(sub, f[k].fields, path[1..], v);
      g' := g[k := Obj(sub')];
      forall q, w | LeafAt(g, q, w) ensures LeafAt(g', q, w) {
        if q[0] == k {
          assert LeafAt(sub, q[1..], w);
        }
      }
    }
  }

  lemma {:induction false} AllLeavesMeansWhole(g: Fields, f: Fields)
    requires Part(g, f) && NoEmptyObjects(f)
    requires forall path, v :: LeafAt(f, path, v) ==> LeafAt(g, path, v)
    ensures g == f
    decreases Obj(f)
  {
    forall k | k in f ensures k in g && g[k] == f[k] {
      if f[k].Obj? {
        var path, v := SomeLeaf(f[k].fields);
        assert ([k] + path)[1..] == path;
        assert LeafAt(f, [k] + path, v);
        assert LeafAt(g, [k] + path, v);
        forall q, w | LeafAt(f[k].fields, q, w) ensures LeafAt(g[k].fields, q, w) {
          assert ([k] + q)[1..] == q;
          assert LeafAt(f, [k] + q, w);
          assert LeafAt(g, [k] + q, w);
        }
        AllLeavesMeansWhole(g[k].fields, f[k].fields);
      } else {
        assert LeafAt(f, [k], f[k]);
        assert LeafAt(g, [k], f[k]);
      }
    }
  }

  lemma {:induction false} SomeLeaf(f: Fields) returns (path: seq<string>, v: Json)
    requires f != map[] && NoEmptyObjects(f)
    ensures LeafAt(f, path, v)
    decreases Obj(f)
  {
    var k :| k in f;
    if f[k].Obj? {
      var rest, w := SomeLeaf(f[k].fields);
      path, v := [k] + rest, w;
      assert path[1..] == rest;
    } else {
      path, v := [k], f[k];
    }
  }

  lemma {:induction false} RebuildGrows(inputs: Fields, f: Fields, order: seq<string>) returns (g: Fields)
    requires IsFlatForm(inputs, f) && WellFormedLeaves(f)
    requires forall key :: key in order ==> key in inputs
    ensures Rebuild(inputs, order) == Some(g) && Part(g, f)
    ensures forall path, v :: LeafAt(f, path, v) && FlatKey(path) in order ==> LeafAt(g, path, v)
  {
    if order == [] {
      g := map[];
    } else {
      var n := |order| - 1;
      var key := order[n];
      assert order == order[..n] + [key];
      var before := RebuildGrows(inputs, f, order[..n]);
      assert IsFlatLeaf(f, key, inputs[key]);
      var path :| LeafAt(f, path, inputs[key]) && FlatKey(path) == key;
      PathRoundTrip(path);
      g := SetLeaf(before, f, path, inputs[key]);
      forall q, w | LeafAt(f, q, w) && FlatKey(q) in order ensures LeafAt(g, q, w) {
        if FlatKey(q) == key {
          PathRoundTrip(q);
          assert IsFlatLeaf(f, key, w);
        }
      }
    }
  }

  /** What `SetPath` leaves: nothing but what was there and the new leaf, and no empty object. */
  lemma {:induction false} SetPathAddsOne(g: Fields, path: seq<string>, v: Json)
    requires path != [] && !v.Obj? && NoEmptyObjects(g) && SetPath(g, path, v).Some?
    ensures var g' := SetPath(g, path, v).value;
            && g' != map[] && NoEmptyObjects(g')
            && forall q, w :: LeafAt(g', q, w) ==> LeafAt(g, q, w) || (q == path && w == v)
    decreases |path|
  {
    var g' := SetPath(g, path, v).value;
    var k := path[0];
    assert k in g';
    if |path| == 1 {
      forall q, w | LeafAt(g', q, w) ensures LeafAt(g, q, w) || (q == path && w == v) {
        if q[0] == k {
          assert q == path;
        }
      }
    } else {
      var sub: Fields := if k in g && g[k].Obj? then g[k].fields else map[];
      SetPathAddsOne(sub, path[1..], v);
      var sub' := SetPath(sub, path[1..], v).value;
      assert g' == g[k := Obj(sub')];
      forall j | j in g' && g'[j].Obj? ensures g'[j].fields != map[] && NoEmptyObjects(g'[j].fields) {
        assert j != k ==> j in g && g'[j] == g[j];
      }
      forall q, w | LeafAt(g', q, w) ensures LeafAt(g, q, w) || (q == path && w == v) {
        if q[0] == k {
          assert LeafAt(sub', q[1..], w);
          if LeafAt(sub, q[1..], w) {
            assert LeafAt(g, q, w);
          } else {
            assert q == [q[0]] + q[1..] && path == [k] + path[1..];
          }
        }
      }
    }
  }

  lemma {:induction false} RebuiltLeaves(inputs: Fields, order: seq<string>)
    requires forall key :: key in order ==> key in inputs && !inputs[key].Obj?
    requires Rebuild(inputs, order).Some?
    ensures NoEmptyObjects(Rebuild(inputs, order).value)
    ensures forall path, v :: LeafAt(Rebuild(inputs, order).value, path, v) ==>
              exists key :: key in order && path == PathOf(key)
  {
    if order != [] {
      var n := |order| - 1;
      assert order == order[..n] + [order[n]];
      RebuiltLeaves(inputs, order[..n]);
      PathOfIsSplit(order[n]);
      SetPathAddsOne(Rebuild(inputs, order[..n]).value, PathOf(order[n]), inputs[order[n]]);
    }
  }

  lemma FlatFormScalar(inputs: Fields, f: Fields, key: string)
    requires IsFlatForm(inputs, f) && key in inputs
    ensures !inputs[key].Obj?
    ensures exists path :: LeafAt(f, path, inputs[key]) && FlatKey(path) == key
  {
    assert IsFlatLeaf(f, key, inputs[key]);
    var path :| LeafAt(f, path, inputs[key]) && FlatKey(path) == key;
    LeafIsScalar(f, path, inputs[key]);
  }

  lemma {:induction false} LeafIsScalar(f: Fields, path: seq<string>, v: Json)
    requires LeafAt(f, path, v)
    ensures !v.Obj?
    decreases |path|
  {
    if |path| > 1 {
      LeafIsScalar(f[path[0]].fields, path[1..], v);
    }
  }

  /** The round trip: from the flattened form of an object, in whatever order the inputs come, the reduction gives the
      object back if and only if each of its leaf paths is well-formed and it has no empty object inside. */
  lemma UnflattenIffWellFormed(inputs: Fields, f: Fields, order: seq<string>)
    requires IsFlatForm(inputs, f) && IsOrderOf(order, inputs.Keys)
    ensures Rebuild(inputs, order) == Some(f) <==> WellFormedLeaves(f) && NoEmptyObjects(f)
    ensures WellFormedLeaves(f) && NoEmptyObjects(f) ==> SpecOf(inputs, order) == Some(f - {"name", "namespace"})
  {
    if WellFormedLeaves(f) && NoEmptyObjects(f) {
      var g := RebuildGrows(inputs, f, order);
      forall path, v | LeafAt(f, path, v) ensures LeafAt(g, path, v) {
        assert IsFlatLeaf(f, FlatKey(path), v);
      }
      AllLeavesMeansWhole(g, f);
    }
    if Rebuild(inputs, order) == Some(f) {
      RebuiltMeansWellFormed(inputs, f, order);
    }
  }

  lemma RebuiltMeansWellFormed(inputs: Fields, f: Fields, order: seq<string>)
    requires IsFlatForm(inputs, f) && IsOrderOf(order, inputs.Keys) && Rebuild(inputs, order) == Some(f)
    ensures WellFormedLeaves(f) && NoEmptyObjects(f)
  {
    forall key | key in order ensures !inputs[key].Obj? {
      FlatFormScalar(inputs, f, key);
    }
    RebuiltLeaves(inputs, order);
    forall path, v | LeafAt(f, path, v) ensures WellFormed(path) {
      var key :| key in order && path == PathOf(key);
      FlatFormScalar(inputs, f, key);
      var origin :| LeafAt(f, origin, inputs[key]) && FlatKey(origin) == key;
      var originKey :| originKey in order && origin == PathOf(originKey);
      PathOfIsSplit(originKey);
      PathOfFlatKey(origin);
    }
  }

  // ---- the update action's default queries ----

  /** Replacing every separator by a dot. */
  function Dotted(s: string): string {
    if |s| < 2 then s
    else if s[0] == '_' && s[1] == '_' then "." + Dotted(s[2..])
    else [s[0]] + Dotted(s[1..])
  }

  function DotJoin(path: seq<string>): string
    requires path != []
  {
    if |path| == 1 then path[0] else path[0] + "." + DotJoin(path[1..])
  }

  lemma {:induction false} DottedIsDotJoin(s: string)
    ensures Dotted(s) == DotJoin(Split(s))
  {
    if |s| >= 2 {
      if s[0] == '_' && s[1] == '_' {
        DottedIsDotJoin(s[2..]);
        assert ([""] + Split(s[2..]))[1..] == Split(s[2..]);
      } else {
        DottedIsDotJoin(s[1..]);
        var rest := Split(s[1..]);
        var parts := Split(s);
        assert parts[1..] == rest[1..];
        if |rest| > 1 {
          assert [s[0]] + (rest[0] + "." + DotJoin(rest[1..])) == [s[0]] + rest[0] + "." + DotJoin(rest[1..]);
        }
      }
    }
  }

  datatype ActionProperty = ActionProperty(kind: string, default: Option<string>)

  const ENTITY_QUERY := ".entity.properties."

  /** Gives each flattened input of the update action the query of the nested property it stands for as its default. */
  method BuildUpdateAction(properties: map<string, ActionProperty>) returns (updated: map<string, ActionProperty>)
    ensures updated.Keys == properties.Keys
    ensures forall path :: WellFormed(path) && FlatKey(path) in properties ==>
              updated[FlatKey(path)] == properties[FlatKey(path)].(default := Some(ENTITY_QUERY + DotJoin(path)))
  {
    updated := properties;
    var remaining := properties.Keys;
    while remaining != {}
      invariant remaining <= properties.Keys && updated.Keys == properties.Keys
      invariant forall k :: k in remaining ==> updated[k] == properties[k]
      invariant forall k :: k in properties.Keys - remaining ==>
                  updated[k] == properties[k].(default := Some(ENTITY_QUERY + Dotted(k)))
      decreases remaining
    {
      var k :| k in remaining;
      remaining := remaining - {k};
      updated := updated[k := updated[k].(default := Some(ENTITY_QUERY + Dotted(k)))];
    }
    forall path | WellFormed(path) && FlatKey(path) in properties
      ensures updated[FlatKey(path)] == properties[FlatKey(path)].(default := Some(ENTITY_QUERY + DotJoin(path)))
    {
      PathRoundTrip(path);
      PathOfIsSplit(FlatKey(path));
      DottedIsDotJoin(FlatKey(path));
    }
  }
}
