/** From a nested schema through its flattened form to a rebuilt object: what flattening calls a joined leaf name and
    what the rebuilding expression splits are the same thing. */
module CrdRoundTrip {
  import opened Basics
  import opened CrdFlatten
  import U = CrdUnflatten

  /** The schema has a leaf property at this path. */
  ghost predicate SchemaLeafAt(s: Schema, path: seq<string>, leaf: Schema)
    decreases |path|
  {
    && path != [] && path[0] in s.props
    && if |path| == 1 then s.props[path[0]] == leaf && !leaf.IsObject()
       else s.props[path[0]].IsObject() && SchemaLeafAt(s.props[path[0]], path[1..], leaf)
  }

  /** Joining a path to a prefix from the left, as the recursion over the schema does. */
  function JoinAll(prefix: string, path: seq<string>): string
    decreases |path|
  {
    if path == [] then prefix else JoinAll(Join(prefix, U.SEP, path[0]), path[1..])
  }

  lemma {:induction false} JoinAllSnoc(prefix: string, path: seq<string>, name: string)
    ensures JoinAll(prefix, path + [name]) == Join(JoinAll(prefix, path), U.SEP, name)
    decreases |path|
  {
    if path == [] {
      assert ([] + [name])[1..] == [];
    } else {
      JoinAllSnoc(Join(prefix, U.SEP, path[0]), path[1..], name);
      assert (path + [name])[1..] == path[1..] + [name];
    }
  }

  lemma {:induction false} JoinAllIsFlatKey(path: seq<string>)
    requires path != []
    ensures JoinAll("", path) == U.FlatKey(path)
  {
    var n := |path| - 1;
    JoinAllSnoc("", path[..n], path[n]);
    assert path == path[..n] + [path[n]];
    if n > 0 {
      JoinAllIsFlatKey(path[..n]);
    }
  }

  lemma {:induction false} PathIsLeaf(s: Schema, prefix: string, path: seq<string>, leaf: Schema)
    requires SchemaLeafAt(s, path, leaf)
    ensures LeafUnder(s, path[0], prefix, U.SEP, JoinAll(prefix, path), leaf)
    ensures LeafOf(s, prefix, U.SEP, JoinAll(prefix, path), leaf)
    decreases |path|
  {
    if |path| > 1 {
      PathIsLeaf(s.props[path[0]], Join(prefix, U.SEP, path[0]), path[1..], leaf);
    } else {
      assert JoinAll(prefix, path) == Join(prefix, U.SEP, path[0]);
    }
  }

  lemma {:induction false} LeafHasPath(s: Schema, k: string, prefix: string, key: string, leaf: Schema)
    returns (path: seq<string>)
    requires k in s.props && LeafUnder(s, k, prefix, U.SEP, key, leaf)
    ensures SchemaLeafAt(s, path, leaf) && JoinAll(prefix, path) == key && path[0] == k
    decreases s
  {
    if s.props[k].IsObject() {
      var below := s.props[k];
      var k2 :| k2 in below.props && LeafUnder(below, k2, Join(prefix, U.SEP, k), U.SEP, key, leaf);
      var rest := LeafHasPath(below, k2, Join(prefix, U.SEP, k), key, leaf);
      path := [k] + rest;
      assert path[1..] == rest;
    } else {
      path := [k];
    }
  }

  /** Flattening stores a leaf exactly under the name that its path has when joined. */
  lemma LeafKeysAreFlatKeys(s: Schema, key: string, leaf: Schema)
    ensures LeafOf(s, "", U.SEP, key, leaf) <==> exists path :: SchemaLeafAt(s, path, leaf) && U.FlatKey(path) == key
  {
    if LeafOf(s, "", U.SEP, key, leaf) {
      var k :| k in s.props && LeafUnder(s, k, "", U.SEP, key, leaf);
      var path := LeafHasPath(s, k, "", key, leaf);
      JoinAllIsFlatKey(path);
    }
    if path :| SchemaLeafAt(s, path, leaf) && U.FlatKey(path) == key {
      PathIsLeaf(s, "", path, leaf);
      JoinAllIsFlatKey(path);
    }
  }

  /** A path to a leaf each step of which the object above it lists as required. */
  ghost predicate RequiredPath(s: Schema, path: seq<string>)
    decreases |path|
  {
    && path != [] && path[0] in s.props && path[0] in s.required
    && if |path| == 1 then !s.props[path[0]].IsObject()
       else s.props[path[0]].IsObject() && RequiredPath(s.props[path[0]], path[1..])
  }

  lemma {:induction false} PathIsRequired(s: Schema, prefix: string, path: seq<string>)
    requires RequiredPath(s, path)
    ensures RequiredUnder(s, path[0], prefix, U.SEP, JoinAll(prefix, path))
    ensures RequiredLeaf(s, prefix, U.SEP, JoinAll(prefix, path))
    decreases |path|
  {
    if |path| > 1 {
      PathIsRequired(s.props[path[0]], Join(prefix, U.SEP, path[0]), path[1..]);
    } else {
      assert JoinAll(prefix, path) == Join(prefix, U.SEP, path[0]);
    }
  }

  lemma {:induction false} RequiredHasPath(s: Schema, prefix: string, key: string) returns (path: seq<string>)
    requires RequiredLeaf(s, prefix, U.SEP, key)
    ensures RequiredPath(s, path) && JoinAll(prefix, path) == key
    decreases s
  {
    var k :| k in s.required && RequiredUnder(s, k, prefix, U.SEP, key);
    if s.props[k].IsObject() {
      var rest := RequiredHasPath(s.props[k], Join(prefix, U.SEP, k), key);
      path := [k] + rest;
      assert path[1..] == rest;
    } else {
      path := [k];
    }
  }

  /** The required names are exactly the joined paths to leaves that are required at every step. */
  lemma RequiredNamesAreFlatKeys(s: Schema, key: string)
    ensures RequiredLeaf(s, "", U.SEP, key) <==> exists path :: RequiredPath(s, path) && U.FlatKey(path) == key
  {
    if RequiredLeaf(s, "", U.SEP, key) {
      var path := RequiredHasPath(s, "", key);
      JoinAllIsFlatKey(path);
    }
    if path :| RequiredPath(s, path) && U.FlatKey(path) == key {
      PathIsRequired(s, "", path);
      JoinAllIsFlatKey(path);
    }
  }

  ghost predicate IsLeafPath(s: Schema, path: seq<string>) {
    exists leaf :: SchemaLeafAt(s, path, leaf)
  }

  ghost predicate Injective(s: Schema, prefix: string) {
    forall p, q :: IsLeafPath(s, p) && IsLeafPath(s, q) && JoinAll(prefix, p) == JoinAll(prefix, q) ==> p == q
  }

  lemma {:induction false} DistinctIsInjective(s: Schema, prefix: string, p: seq<string>, q: seq<string>)
    requires DistinctLeaves(s, prefix, U.SEP)
    requires IsLeafPath(s, p) && IsLeafPath(s, q) && JoinAll(prefix, p) == JoinAll(prefix, q)
    ensures p == q
    decreases |p|
  {
    var a :| SchemaLeafAt(s, p, a);
    var b :| SchemaLeafAt(s, q, b);
    PathIsLeaf(s, prefix, p, a);
    PathIsLeaf(s, prefix, q, b);
    var key := JoinAll(prefix, p);
    assert LeafKeyUnder(s, p[0], prefix, U.SEP, key) && LeafKeyUnder(s, q[0], prefix, U.SEP, key);
    assert p[0] == q[0];
    if |p| > 1 {
      var below := s.props[p[0]];
      assert SchemaLeafAt(below, p[1..], a) && SchemaLeafAt(below, q[1..], b);
      DistinctIsInjective(below, Join(prefix, U.SEP, p[0]), p[1..], q[1..]);
      assert p == [p[0]] + p[1..] && q == [q[0]] + q[1..];
    }
  }

  lemma {:induction false} InjectiveIsDistinct(s: Schema, prefix: string)
    requires Injective(s, prefix)
    ensures DistinctLeaves(s, prefix, U.SEP)
    decreases s
  {
    forall k1, k2, key | k1 in s.props && k2 in s.props
      && LeafKeyUnder(s, k1, prefix, U.SEP, key) && LeafKeyUnder(s, k2, prefix, U.SEP, key)
      ensures k1 == k2
    {
      var a :| LeafUnder(s, k1, prefix, U.SEP, key, a);
      var b :| LeafUnder(s, k2, prefix, U.SEP, key, b);
      var p := LeafHasPath(s, k1, prefix, key, a);
      var q := LeafHasPath(s, k2, prefix, key, b);
      assert IsLeafPath(s, p) && IsLeafPath(s, q);
    }
    forall k | k in s.props && s.props[k].IsObject() ensures DistinctLeaves(s.props[k], Join(prefix, U.SEP, k), U.SEP) {
      InjectiveBelow(s, prefix, k);
      InjectiveIsDistinct(s.props[k], Join(prefix, U.SEP, k));
    }
  }

  lemma InjectiveBelow(s: Schema, prefix: string, k: string)
    requires Injective(s, prefix) && k in s.props && s.props[k].IsObject()
    ensures Injective(s.props[k], Join(prefix, U.SEP, k))
  {
    var below := s.props[k];
    forall p, q | IsLeafPath(below, p) && IsLeafPath(below, q)
      && JoinAll(Join(prefix, U.SEP, k), p) == JoinAll(Join(prefix, U.SEP, k), q)
      ensures p == q
    {
      var a :| SchemaLeafAt(below, p, a);
      var b :| SchemaLeafAt(below, q, b);
      assert ([k] + p)[1..] == p && ([k] + q)[1..] == q;
      assert SchemaLeafAt(s, [k] + p, a) && SchemaLeafAt(s, [k] + q, b);
      assert IsLeafPath(s, [k] + p) && IsLeafPath(s, [k] + q);
    }
  }

  /** Joined leaf names are distinct exactly when no two leaf paths join to the same name. */
  lemma DistinctIffInjective(s: Schema)
    ensures DistinctLeaves(s, "", U.SEP)
        <==> forall p, q :: IsLeafPath(s, p) && IsLeafPath(s, q) && U.FlatKey(p) == U.FlatKey(q) ==> p == q
  {
    forall p | IsLeafPath(s, p) ensures JoinAll("", p) == U.FlatKey(p) {
      JoinAllIsFlatKey(p);
    }
    if DistinctLeaves(s, "", U.SEP) {
      forall p, q | IsLeafPath(s, p) && IsLeafPath(s, q) && U.FlatKey(p) == U.FlatKey(q) ensures p == q {
        DistinctIsInjective(s, "", p, q);
      }
    }
    if forall p, q :: IsLeafPath(s, p) && IsLeafPath(s, q) && U.FlatKey(p) == U.FlatKey(q) ==> p == q {
      assert Injective(s, "");
      InjectiveIsDistinct(s, "");
    }
  }

  ghost predicate WellFormedSchema(s: Schema) {
    forall path :: IsLeafPath(s, path) ==> U.WellFormed(path)
  }

  /** Well-formed paths never meet in a joined name. */
  lemma WellFormedIsDistinct(s: Schema)
    requires WellFormedSchema(s)
    ensures DistinctLeaves(s, "", U.SEP)
  {
    forall p, q | IsLeafPath(s, p) && IsLeafPath(s, q) && U.FlatKey(p) == U.FlatKey(q) ensures p == q {
      U.PathRoundTrip(p);
      U.PathRoundTrip(q);
    }
    DistinctIffInjective(s);
  }

  /** Every value in the object is one that the schema describes. */
  ghost predicate Follows(f: U.Fields, s: Schema) {
    forall path, v :: U.LeafAt(f, path, v) ==> IsLeafPath(s, path)
  }

  /** Each input of a flattened object is one of the flattened schema's. */
  lemma InputHasLeaf(s: Schema, form: Props, f: U.Fields, inputs: U.Fields, key: string)
    requires IsFlat(form, s, U.SEP) && Follows(f, s) && U.IsFlatForm(inputs, f) && key in inputs
    ensures key in form
  {
    U.FlatFormScalar(inputs, f, key);
    var path :| U.LeafAt(f, path, inputs[key]) && U.FlatKey(path) == key;
    var leaf :| SchemaLeafAt(s, path, leaf);
    PathIsLeaf(s, "", path, leaf);
    JoinAllIsFlatKey(path);
  }

  lemma FlattensIn(s: Schema, form: Props)
    requires WellFormedSchema(s) && Separable(s, U.SEP) && RootRun(s.props, s.props.Keys, U.SEP, form)
    ensures IsFlat(form, s, U.SEP)
  {
    WellFormedIsDistinct(s);
    SeparableFlattens(s, U.SEP, s.props, s.props.Keys, {}, form);
  }

  /** The whole way: flatten the schema in place in any iteration order, fill the resulting form in for an object that
      follows the schema, rebuild from the inputs in any order. Every value has its input, and the object comes back. */
  lemma FormRoundTrip(s: Schema, form: Props, f: U.Fields, inputs: U.Fields, order: seq<string>)
    requires WellFormedSchema(s) && Separable(s, U.SEP) && RootRun(s.props, s.props.Keys, U.SEP, form)
    requires Follows(f, s) && U.NoEmptyObjects(f)
    requires U.IsFlatForm(inputs, f) && IsOrderOf(order, inputs.Keys)
    ensures inputs.Keys <= form.Keys
    ensures U.Rebuild(inputs, order) == Some(f)
  {
    FlattensIn(s, form);
    forall key | key in inputs ensures key in form {
      InputHasLeaf(s, form, f, inputs, key);
    }
    assert U.WellFormedLeaves(f);
    U.UnflattenIffWellFormed(inputs, f, order);
  }
}
