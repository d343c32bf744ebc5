/** Flattening a resource definition's schema: nested properties move to the top under joined names. The code does this
    in place, in a map that it iterates at the same time, and deletes nested objects by their simple names. */
module CrdFlatten {
  import opened Basics

  /** `rest` stands for the parts of a schema that flattening does not look at. */
  datatype Schema = Schema(kind: string, props: map<string, Schema>, required: seq<string>, rest: nat) {
    predicate IsObject() { kind == "object" }
  }

  type Props = map<string, Schema>

  function Join(prefix: string, sep: string, name: string): string {
    if prefix == "" then name else prefix + sep + name
  }

  // ---- what flattening is meant to give ----

  /** Under the property `k` of `s` there is a leaf whose joined name is `key`. */
  ghost predicate LeafUnder(s: Schema, k: string, prefix: string, sep: string, key: string, leaf: Schema)
    requires k in s.props
    decreases s, 0
  {
    if s.props[k].IsObject() then LeafOf(s.props[k], Join(prefix, sep, k), sep, key, leaf)
    else key == Join(prefix, sep, k) && leaf == s.props[k]
  }

  ghost predicate LeafOf(s: Schema, prefix: string, sep: string, key: string, leaf: Schema)
    decreases s, 1
  {
    exists k :: k in s.props && LeafUnder(s, k, prefix, sep, key, leaf)
  }

  /** `k` is an object property called `name`, or has one below it. */
  ghost predicate ObjectUnder(s: Schema, k: string, name: string)
    requires k in s.props
    decreases s, 0
  {
    s.props[k].IsObject() && (k == name || ObjectIn(s.props[k], name))
  }

  ghost predicate ObjectIn(s: Schema, name: string)
    decreases s, 1
  {
    exists k :: k in s.props && ObjectUnder(s, k, name)
  }

  ghost predicate IsLeafKey(s: Schema, prefix: string, sep: string, key: string) {
    exists leaf :: LeafOf(s, prefix, sep, key, leaf)
  }

  /** The map holds exactly the leaves of the schema, each under its joined name. */
  ghost predicate IsFlat(m: Props, s: Schema, sep: string) {
    forall key, leaf :: LeafOf(s, "", sep, key, leaf) <==> key in m && m[key] == leaf
  }

  // ---- what the code does, for every iteration order ----

  /** Processing the properties of an object below the top in the order `order` can turn the shared map `m` into
      `m'`. */
  ghost predicate FoldRun(s: Schema, order: seq<string>, prefix: string, sep: string, m: Props, m': Props)
    requires forall k :: k in order ==> k in s.props
    decreases s, 1, |order|
  {
    if order == [] then m' == m
    else
      var n := |order| - 1;
      exists mid: Props :: FoldRun(s, order[..n], prefix, sep, m, mid) && EntryRun(s, order[n], prefix, sep, mid, m')
  }

  /** One property: a leaf is stored under its joined name; an object is descended into, then its simple name
      deleted. */
  ghost predicate EntryRun(s: Schema, k: string, prefix: string, sep: string, m: Props, m': Props)
    requires k in s.props
    decreases s, 0, 0
  {
    if s.props[k].IsObject() then
      exists mid: Props :: NestedRun(s.props[k], Join(prefix, sep, k), sep, m, mid) && m' == mid - {k}
    else m' == m[Join(prefix, sep, k) := s.props[k]]
  }

  ghost predicate NestedRun(s: Schema, prefix: string, sep: string, m: Props, m': Props)
    decreases s, 2, 0
  {
    exists order :: IsOrderOf(order, s.props.Keys) && FoldRun(s, order, prefix, sep, m, m')
  }

  /** The iteration over the top-level map itself. `must` are the entries it still has to visit: original entries that
      have not been visited or deleted. An entry created meanwhile may be visited, too; it is a leaf, stored where it
      is. */
  ghost predicate RootRun(m: Props, must: set<string>, sep: string, m': Props)
    decreases must
  {
    if must == {} then m' == m
    else exists k :: k in must && k in m && RootVisit(m, must, k, sep, m')
  }

  ghost predicate RootVisit(m: Props, must: set<string>, k: string, sep: string, m': Props)
    requires k in must && k in m
    decreases must, 0
  {
    if m[k].IsObject() then
      exists mid: Props :: NestedRun(m[k], k, sep, m, mid) && RootRun(mid - {k}, (must - {k}) * mid.Keys, sep, m')
    else RootRun(m, must - {k}, sep, m')
  }

  // ---- what a run below the top does to the shared map ----

  ghost predicate LeafAmong(s: Schema, order: seq<string>, prefix: string, sep: string, key: string, leaf: Schema)
    requires forall k :: k in order ==> k in s.props
  {
    exists k :: k in order && LeafUnder(s, k, prefix, sep, key, leaf)
  }

  ghost predicate ObjectAmong(s: Schema, order: seq<string>, name: string)
    requires forall k :: k in order ==> k in s.props
  {
    exists k :: k in order && ObjectUnder(s, k, name)
  }

  ghost predicate Same(m: Props, m': Props, key: string) {
    (key in m' <==> key in m) && (key in m ==> m'[key] == m[key])
  }

  /** `leaf` says that the run stores some leaf under the key, `named` that it deletes the key, `ours` that what is
      found there afterwards is such a leaf. */
  ghost predicate Effect(m: Props, m': Props, key: string, leaf: bool, named: bool, ours: bool) {
    && (leaf && !named ==> ours)
    && (!leaf && named ==> key !in m')
    && (!leaf && !named ==> Same(m, m', key))
    && (key in m' ==> ours || Same(m, m', key))
  }

  ghost predicate EntryEffect(s: Schema, k: string, prefix: string, sep: string, m: Props, m': Props, key: string)
    requires k in s.props
  {
    Effect(m, m', key, exists leaf :: LeafUnder(s, k, prefix, sep, key, leaf), ObjectUnder(s, k, key),
           key in m' && LeafUnder(s, k, prefix, sep, key, m'[key]))
  }

  ghost predicate FoldEffect(s: Schema, order: seq<string>, prefix: string, sep: string, m: Props, m': Props,
                             key: string)
    requires forall k :: k in order ==> k in s.props
  {
    Effect(m, m', key, exists leaf :: LeafAmong(s, order, prefix, sep, key, leaf), ObjectAmong(s, order, key),
           key in m' && LeafAmong(s, order, prefix, sep, key, m'[key]))
  }

  ghost predicate NestedEffect(s: Schema, prefix: string, sep: string, m: Props, m': Props, key: string) {
    Effect(m, m', key, IsLeafKey(s, prefix, sep, key), ObjectIn(s, key),
           key in m' && LeafOf(s, prefix, sep, key, m'[key]))
  }

  lemma {:induction false} EntryRunEffect(s: Schema, k: string, prefix: string, sep: string, m: Props, m': Props,
                                          key: string)
    requires k in s.props && EntryRun(s, k, prefix, sep, m, m')
    ensures EntryEffect(s, k, prefix, sep, m, m', key)
    decreases s, 0, 0
  {
    if s.props[k].IsObject() {
      var mid: Props :| NestedRun(s.props[k], Join(prefix, sep, k), sep, m, mid) && m' == mid - {k};
      NestedRunEffect(s.props[k], Join(prefix, sep, k), sep, m, mid, key);
      ObjectEntryEffect(s, k, prefix, sep, m, mid, key);
    } else {
      LeafEntryEffect(s, k, prefix, sep, m, key);
    }
  }

  lemma LeafEntryEffect(s: Schema, k: string, prefix: string, sep: string, m: Props, key: string)
    requires k in s.props && !s.props[k].IsObject()
    ensures EntryEffect(s, k, prefix, sep, m, m[Join(prefix, sep, k) := s.props[k]], key)
  {
    if key == Join(prefix, sep, k) {
      assert LeafUnder(s, k, prefix, sep, key, s.props[k]);
    }
  }

  /** What happens below an object, and then the deletion of its simple name. */
  lemma ObjectEntryEffect(s: Schema, k: string, prefix: string, sep: string, m: Props, mid: Props, key: string)
    requires k in s.props && s.props[k].IsObject()
    requires NestedEffect(s.props[k], Join(prefix, sep, k), sep, m, mid, key)
    ensures EntryEffect(s, k, prefix, sep, m, mid - {k}, key)
  {
    var m' := mid - {k};
    var below, path := s.props[k], Join(prefix, sep, k);
    assert forall leaf :: LeafUnder(s, k, prefix, sep, key, leaf) <==> LeafOf(below, path, sep, key, leaf);
    assert (exists leaf :: LeafUnder(s, k, prefix, sep, key, leaf)) <==> IsLeafKey(below, path, sep, key);
    assert ObjectUnder(s, k, key) <==> k == key || ObjectIn(below, key);
    if key != k {
      assert key in m' <==> key in mid;
      assert key in m' ==> m'[key] == mid[key];
    }
  }

  /** One effect after another. */
  lemma EffectsCompose(m: Props, mid: Props, m': Props, key: string, leaf1: bool, named1: bool, ours1: bool,
                       leaf2: bool, named2: bool, ours2: bool, leaf: bool, named: bool, ours: bool)
    requires Effect(m, mid, key, leaf1, named1, ours1) && Effect(mid, m', key, leaf2, named2, ours2)
    requires leaf == (leaf1 || leaf2) && named == (named1 || named2)
    requires ours1 ==> key in mid
    requires ours2 ==> ours
    requires ours1 && Same(mid, m', key) ==> ours
    ensures Effect(m, m', key, leaf, named, ours)
  {
  }

  lemma {:induction false} FoldRunEffect(s: Schema, order: seq<string>, prefix: string, sep: string, m: Props,
                                         m': Props, key: string)
    requires forall k :: k in order ==> k in s.props
    requires FoldRun(s, order, prefix, sep, m, m')
    ensures FoldEffect(s, order, prefix, sep, m, m', key)
    decreases s, 1, |order|
  {
    if order != [] {
      var n := |order| - 1;
      var last := order[n];
      var mid: Props :| FoldRun(s, order[..n], prefix, sep, m, mid) && EntryRun(s, last, prefix, sep, mid, m');
      FoldRunEffect(s, order[..n], prefix, sep, m, mid, key);
      EntryRunEffect(s, last, prefix, sep, mid, m', key);
      FoldComposes(s, order, prefix, sep, m, mid, m', key);
    }
  }

  lemma FoldComposes(s: Schema, order: seq<string>, prefix: string, sep: string, m: Props, mid: Props, m': Props,
                     key: string)
    requires order != [] && forall k :: k in order ==> k in s.props
    requires FoldEffect(s, order[..|order| - 1], prefix, sep, m, mid, key)
    requires EntryEffect(s, order[|order| - 1], prefix, sep, mid, m', key)
    ensures FoldEffect(s, order, prefix, sep, m, m', key)
  {
    var n := |order| - 1;
    AmongSnoc(s, order, prefix, sep, key);
    EffectsCompose(m, mid, m', key,
                   exists leaf :: LeafAmong(s, order[..n], prefix, sep, key, leaf), ObjectAmong(s, order[..n], key),
                   key in mid && LeafAmong(s, order[..n], prefix, sep, key, mid[key]),
                   exists leaf :: LeafUnder(s, order[n], prefix, sep, key, leaf), ObjectUnder(s, order[n], key),
                   key in m' && LeafUnder(s, order[n], prefix, sep, key, m'[key]),
                   exists leaf :: LeafAmong(s, order, prefix, sep, key, leaf), ObjectAmong(s, order, key),
                   key in m' && LeafAmong(s, order, prefix, sep, key, m'[key]));
  }

  lemma AmongSnoc(s: Schema, order: seq<string>, prefix: string, sep: string, key: string)
    requires order != [] && forall k :: k in order ==> k in s.props
    ensures var n := |order| - 1;
            && (ObjectAmong(s, order, key) <==> ObjectAmong(s, order[..n], key) || ObjectUnder(s, order[n], key))
            && (forall leaf :: LeafAmong(s, order, prefix, sep, key, leaf) <==>
                  LeafAmong(s, order[..n], prefix, sep, key, leaf) || LeafUnder(s, order[n], prefix, sep, key, leaf))
  {
    var n := |order| - 1;
    assert forall k :: k in order <==> k in order[..n] || k == order[n];
  }

  lemma {:induction false} NestedRunEffect(s: Schema, prefix: string, sep: string, m: Props, m': Props, key: string)
    requires NestedRun(s, prefix, sep, m, m')
    ensures NestedEffect(s, prefix, sep, m, m', key)
    decreases s, 2, 0
  {
    var order :| IsOrderOf(order, s.props.Keys) && FoldRun(s, order, prefix, sep, m, m');
    FoldRunEffect(s, order, prefix, sep, m, m', key);
    assert ObjectAmong(s, order, key) <==> ObjectIn(s, key);
    assert forall leaf :: LeafAmong(s, order, prefix, sep, key, leaf) <==> LeafOf(s, prefix, sep, key, leaf);
  }

  // ---- when every iteration order flattens ----

  /** No object property is called like a joined leaf key, and no object property below the top is called like a
      top-level property other than the one it is below. */
  ghost predicate Separable(s: Schema, sep: string) {
    && (forall key :: IsLeafKey(s, "", sep, key) ==> !ObjectIn(s, key))
    && (forall k, name :: k in s.props && name in s.props && NestedUnder(s, k, name) ==> name == k)
  }

  ghost predicate NestedUnder(s: Schema, k: string, name: string)
    requires k in s.props
  {
    s.props[k].IsObject() && ObjectIn(s.props[k], name)
  }

  ghost predicate LeafKeyUnder(s: Schema, k: string, prefix: string, sep: string, key: string)
    requires k in s.props
  {
    exists leaf :: LeafUnder(s, k, prefix, sep, key, leaf)
  }

  /** Joined leaf paths are distinct: a key belongs to one property at each level. */
  ghost predicate DistinctLeaves(s: Schema, prefix: string, sep: string) {
    && (forall k1, k2, key | k1 in s.props && k2 in s.props ::
          LeafKeyUnder(s, k1, prefix, sep, key) && LeafKeyUnder(s, k2, prefix, sep, key) ==> k1 == k2)
    && (forall k :: k in s.props && s.props[k].IsObject() ==> DistinctLeaves(s.props[k], Join(prefix, sep, k), sep))
  }

  /** Each object property has properties. */
  ghost predicate NoEmptyObjects(s: Schema) {
    forall k :: k in s.props && s.props[k].IsObject() ==> s.props[k].props != map[] && NoEmptyObjects(s.props[k])
  }

  lemma {:induction false} LeafUnique(s: Schema, prefix: string, sep: string, key: string, a: Schema, b: Schema)
    requires DistinctLeaves(s, prefix, sep)
    requires LeafOf(s, prefix, sep, key, a) && LeafOf(s, prefix, sep, key, b)
    ensures a == b && !a.IsObject()
  {
    var k :| k in s.props && LeafUnder(s, k, prefix, sep, key, a);
    var k2 :| k2 in s.props && LeafUnder(s, k2, prefix, sep, key, b);
    assert LeafKeyUnder(s, k, prefix, sep, key) && LeafKeyUnder(s, k2, prefix, sep, key);
    if s.props[k].IsObject() {
      LeafUnique(s.props[k], Join(prefix, sep, k), sep, key, a, b);
    }
  }

  /** The state of the top-level iteration, `done` being the properties whose leaves are all in place. */
  ghost predicate RootInv(s: Schema, sep: string, m: Props, must: set<string>, done: set<string>) {
    && must + done == s.props.Keys && must !! done
    && (forall k :: k in must ==> k in m && m[k] == s.props[k])
    && (forall k, key, leaf :: k in done && LeafUnder(s, k, "", sep, key, leaf) ==> key in m && m[key] == leaf)
    && (forall key :: key in m ==> key in must || exists k :: k in done && LeafUnder(s, k, "", sep, key, m[key]))
  }

  lemma LeafVisitKeepsInv(s: Schema, sep: string, m: Props, must: set<string>, done: set<string>, k: string)
    requires RootInv(s, sep, m, must, done) && k in must && !s.props[k].IsObject()
    ensures RootInv(s, sep, m, must - {k}, done + {k})
  {
    assert LeafUnder(s, k, "", sep, k, m[k]);
    assert must - {k} + (done + {k}) == must + done;
  }

  /** Where a key stands after an object at the top has been visited. */
  lemma ObjectVisitKey(s: Schema, sep: string, m: Props, mid: Props, k: string, key: string)
    requires Separable(s, sep) && k in s.props && s.props[k].IsObject()
    requires NestedRun(s.props[k], k, sep, m, mid)
    ensures (exists leaf :: LeafUnder(s, k, "", sep, key, leaf)) ==>
              key in mid - {k} && LeafUnder(s, k, "", sep, key, mid[key])
    ensures !(exists leaf :: LeafUnder(s, k, "", sep, key, leaf)) && !ObjectUnder(s, k, key) ==> Same(m, mid - {k}, key)
    ensures ObjectUnder(s, k, key) ==> key !in mid - {k}
  {
    NestedRunEffect(s.props[k], k, sep, m, mid, key);
    assert Join("", sep, k) == k;
    assert forall leaf :: LeafUnder(s, k, "", sep, key, leaf) <==> LeafOf(s.props[k], k, sep, key, leaf);
    if leaf :| LeafUnder(s, k, "", sep, key, leaf) {
      assert LeafOf(s, "", sep, key, leaf);
      assert IsLeafKey(s, "", sep, key);
      assert !ObjectUnder(s, k, key);
    }
  }

  lemma ObjectVisitKeepsInv(s: Schema, sep: string, m: Props, mid: Props, must: set<string>, done: set<string>,
                            k: string)
    requires Separable(s, sep) && DistinctLeaves(s, "", sep)
    requires RootInv(s, sep, m, must, done) && k in must && s.props[k].IsObject()
    requires NestedRun(s.props[k], k, sep, m, mid)
    ensures (must - {k}) * mid.Keys == must - {k}
    ensures RootInv(s, sep, mid - {k}, must - {k}, done + {k})
  {
    var m' := mid - {k};
    forall j | j in must - {k} ensures j in m' && m'[j] == s.props[j] {
      ObjectVisitKey(s, sep, m, mid, k, j);
      assert !ObjectUnder(s, k, j) by {
        assert NestedUnder(s, k, j) ==> j == k;
      }
      if leaf :| LeafUnder(s, k, "", sep, j, leaf) {
        TopLeafNotUnder(s, sep, j, k, leaf);
      }
    }
    assert must - {k} + (done + {k}) == must + done;
    forall i, key, leaf | i in done + {k} && LeafUnder(s, i, "", sep, key, leaf) ensures key in m' && m'[key] == leaf {
      ObjectVisitKey(s, sep, m, mid, k, key);
      assert LeafOf(s, "", sep, key, leaf) && IsLeafKey(s, "", sep, key);
      assert !ObjectUnder(s, k, key);
      if other :| LeafUnder(s, k, "", sep, key, other) {
        assert LeafOf(s, "", sep, key, m'[key]);
        LeafUnique(s, "", sep, key, leaf, m'[key]);
      }
    }
    forall key | key in m'
      ensures key in must - {k} || exists i :: i in done + {k} && LeafUnder(s, i, "", sep, key, m'[key])
    {
      ObjectVisitKey(s, sep, m, mid, k, key);
    }
  }

  /** A top-level property is not stored over by the leaves of another one. */
  lemma TopLeafNotUnder(s: Schema, sep: string, j: string, k: string, leaf: Schema)
    requires Separable(s, sep) && DistinctLeaves(s, "", sep)
    requires j in s.props && k in s.props && LeafUnder(s, k, "", sep, j, leaf)
    ensures j == k
  {
    assert LeafOf(s, "", sep, j, leaf) && IsLeafKey(s, "", sep, j);
    assert ObjectUnder(s, j, j) == s.props[j].IsObject();
    assert LeafUnder(s, j, "", sep, j, s.props[j]);
    assert LeafKeyUnder(s, j, "", sep, j) && LeafKeyUnder(s, k, "", sep, j);
  }

  lemma {:induction false} SeparableFlattens(s: Schema, sep: string, m: Props, must: set<string>, done: set<string>,
                                             m': Props)
    requires Separable(s, sep) && DistinctLeaves(s, "", sep)
    requires RootInv(s, sep, m, must, done) && RootRun(m, must, sep, m')
    ensures IsFlat(m', s, sep)
    decreases must
  {
    if must == {} {
      assert done == s.props.Keys;
    } else {
      var k :| k in must && k in m && RootVisit(m, must, k, sep, m');
      if m[k].IsObject() {
        var mid: Props :| NestedRun(m[k], k, sep, m, mid) && RootRun(mid - {k}, (must - {k}) * mid.Keys, sep, m');
        ObjectVisitKeepsInv(s, sep, m, mid, must, done, k);
        SeparableFlattens(s, sep, mid - {k}, must - {k}, done + {k}, m');
      } else {
        LeafVisitKeepsInv(s, sep, m, must, done, k);
        SeparableFlattens(s, sep, m, must - {k}, done + {k}, m');
      }
    }
  }

  // ---- when some iteration order does not ----

  lemma {:induction false} FoldOnce(s: Schema, order: seq<string>, k: string, prefix: string, sep: string, m: Props,
                                    mid: Props, m': Props)
    requires k in s.props && forall j :: j in order ==> j in s.props
    requires FoldRun(s, order, prefix, sep, m, mid) && EntryRun(s, k, prefix, sep, mid, m')
    ensures FoldRun(s, order + [k], prefix, sep, m, m')
  {
    assert (order + [k])[..|order|] == order;
  }

  lemma {:induction false} EntryCompletes(s: Schema, k: string, prefix: string, sep: string, m: Props)
    returns (m': Props)
    requires k in s.props
    ensures EntryRun(s, k, prefix, sep, m, m')
    decreases s, 0, 0
  {
    if s.props[k].IsObject() {
      var mid := NestedCompletes(s.props[k], Join(prefix, sep, k), sep, m);
      m' := mid - {k};
    } else {
      m' := m[Join(prefix, sep, k) := s.props[k]];
    }
  }

  lemma {:induction false} FoldCompletes(s: Schema, order: seq<string>, prefix: string, sep: string, m: Props)
    returns (m': Props)
    requires forall k :: k in order ==> k in s.props
    ensures FoldRun(s, order, prefix, sep, m, m')
    decreases s, 1, |order|
  {
    if order == [] {
      m' := m;
    } else {
      var mid := FoldCompletes(s, order[..|order| - 1], prefix, sep, m);
      m' := EntryCompletes(s, order[|order| - 1], prefix, sep, mid);
    }
  }

  lemma {:induction false} NestedCompletes(s: Schema, prefix: string, sep: string, m: Props) returns (m': Props)
    ensures NestedRun(s, prefix, sep, m, m')
    decreases s, 2, 0
  {
    var order := SomeOrder(s.props.Keys);
    m' := FoldCompletes(s, order, prefix, sep, m);
  }

  lemma {:induction false} RootCompletes(m: Props, must: set<string>, sep: string) returns (m': Props)
    requires must <= m.Keys
    ensures RootRun(m, must, sep, m')
    decreases must
  {
    if must == {} {
      m' := m;
    } else {
      var k :| k in must;
      if m[k].IsObject() {
        var mid := NestedCompletes(m[k], k, sep, m);
        m' := RootCompletes(mid - {k}, (must - {k}) * mid.Keys, sep);
      } else {
        m' := RootCompletes(m, must - {k}, sep);
      }
      assert RootVisit(m, must, k, sep, m');
    }
  }

  /** A key that is both a leaf's and an object's can be lost below the top: visit the leaf's branch before the
      object's. */
  lemma {:induction false} EntryLoses(s: Schema, k: string, prefix: string, sep: string, m: Props, key: string)
    returns (m': Props)
    requires k in s.props && DistinctLeaves(s, prefix, sep)
    requires LeafKeyUnder(s, k, prefix, sep, key) && ObjectUnder(s, k, key)
    ensures EntryRun(s, k, prefix, sep, m, m') && key !in m'
    decreases s, 0
  {
    var child, name := s.props[k], Join(prefix, sep, k);
    var mid: Props;
    if k == key {
      mid := NestedCompletes(child, name, sep, m);
    } else {
      var leaf :| LeafUnder(s, k, prefix, sep, key, leaf);
      assert LeafOf(child, name, sep, key, leaf);
      mid := NestedLoses(child, name, sep, m, key);
    }
    m' := mid - {k};
  }

  lemma {:induction false} NestedLoses(s: Schema, prefix: string, sep: string, m: Props, key: string)
    returns (m': Props)
    requires DistinctLeaves(s, prefix, sep)
    requires IsLeafKey(s, prefix, sep, key) && ObjectIn(s, key)
    ensures NestedRun(s, prefix, sep, m, m') && key !in m'
    decreases s, 1
  {
    var leaf :| LeafOf(s, prefix, sep, key, leaf);
    var kp :| kp in s.props && LeafUnder(s, kp, prefix, sep, key, leaf);
    assert LeafKeyUnder(s, kp, prefix, sep, key);
    var last := kp;
    if !ObjectUnder(s, kp, key) {
      last :| last in s.props && ObjectUnder(s, last, key);
    }
    var order := SomeOrder(s.props.Keys - {last});
    var mid := FoldCompletes(s, order, prefix, sep, m);
    if last == kp {
      m' := EntryLoses(s, last, prefix, sep, mid, key);
    } else {
      m' := EntryDeletes(s, last, prefix, sep, mid, key, kp);
    }
    LastEntry(s, order, last, prefix, sep, m, mid, m');
  }

  lemma EntryDeletes(s: Schema, k: string, prefix: string, sep: string, m: Props, key: string, owner: string)
    returns (m': Props)
    requires k in s.props && owner in s.props && k != owner && DistinctLeaves(s, prefix, sep)
    requires LeafKeyUnder(s, owner, prefix, sep, key) && ObjectUnder(s, k, key)
    ensures EntryRun(s, k, prefix, sep, m, m') && key !in m'
  {
    m' := EntryCompletes(s, k, prefix, sep, m);
    EntryRunEffect(s, k, prefix, sep, m, m', key);
    assert LeafKeyUnder(s, k, prefix, sep, key) ==> k == owner;
  }

  lemma LastEntry(s: Schema, order: seq<string>, k: string, prefix: string, sep: string, m: Props, mid: Props,
                  m': Props)
    requires k in s.props && IsOrderOf(order, s.props.Keys - {k})
    requires FoldRun(s, order, prefix, sep, m, mid) && EntryRun(s, k, prefix, sep, mid, m')
    ensures NestedRun(s, prefix, sep, m, m')
  {
    FoldOnce(s, order, k, prefix, sep, m, mid, m');
    assert IsOrderOf(order + [k], s.props.Keys);
  }

  /** Nothing the top-level iteration still does can store a leaf under `key`, which belongs to `owner`. */
  ghost predicate Lost(s: Schema, sep: string, m: Props, must: set<string>, owner: string, key: string) {
    && must <= s.props.Keys && must <= m.Keys
    && (forall k :: k in must ==> m[k] == s.props[k] || !m[k].IsObject())
    && owner in s.props && LeafKeyUnder(s, owner, "", sep, key)
    && (owner in must ==> !m[owner].IsObject())
    && (key in m ==> m[key].IsObject())
  }

  lemma {:induction false} LeavesAreLeaves(s: Schema, prefix: string, sep: string, key: string, leaf: Schema)
    requires LeafOf(s, prefix, sep, key, leaf)
    ensures !leaf.IsObject()
  {
    var k :| k in s.props && LeafUnder(s, k, prefix, sep, key, leaf);
    if s.props[k].IsObject() {
      LeavesAreLeaves(s.props[k], Join(prefix, sep, k), sep, key, leaf);
    }
  }

  /** After an object at the top has been visited, entries still to be visited are as they were or have become
      leaves. */
  lemma VisitKeepsEntries(s: Schema, sep: string, m: Props, mid: Props, k: string, j: string)
    requires NestedRun(s, k, sep, m, mid) && j in m && j in mid
    ensures mid[j] == m[j] || !mid[j].IsObject()
  {
    NestedRunEffect(s, k, sep, m, mid, j);
    if LeafOf(s, k, sep, j, mid[j]) {
      LeavesAreLeaves(s, k, sep, j, mid[j]);
    }
  }

  lemma {:induction false} LostStaysLost(s: Schema, sep: string, m: Props, must: set<string>, m': Props, owner: string,
                                         key: string)
    requires DistinctLeaves(s, "", sep) && Lost(s, sep, m, must, owner, key) && RootRun(m, must, sep, m')
    ensures !IsFlat(m', s, sep)
    decreases must
  {
    if must == {} {
      var leaf :| LeafUnder(s, owner, "", sep, key, leaf);
      assert LeafOf(s, "", sep, key, leaf);
      LeavesAreLeaves(s, "", sep, key, leaf);
    } else {
      var k :| k in must && k in m && RootVisit(m, must, k, sep, m');
      if m[k].IsObject() {
        var mid: Props :| NestedRun(m[k], k, sep, m, mid) && RootRun(mid - {k}, (must - {k}) * mid.Keys, sep, m');
        VisitKeepsLost(s, sep, m, mid, must, k, owner, key);
        LostStaysLost(s, sep, mid - {k}, (must - {k}) * mid.Keys, m', owner, key);
      } else {
        LostStaysLost(s, sep, m, must - {k}, m', owner, key);
      }
    }
  }

  lemma VisitKeepsLost(s: Schema, sep: string, m: Props, mid: Props, must: set<string>, k: string, owner: string,
                       key: string)
    requires DistinctLeaves(s, "", sep) && Lost(s, sep, m, must, owner, key)
    requires k in must && m[k].IsObject() && NestedRun(s.props[k], k, sep, m, mid)
    ensures Lost(s, sep, mid - {k}, (must - {k}) * mid.Keys, owner, key)
  {
    forall j | j in (must - {k}) * mid.Keys
      ensures (mid - {k})[j] == s.props[j] || !(mid - {k})[j].IsObject()
      ensures j == owner ==> !(mid - {k})[j].IsObject()
    {
      VisitKeepsEntries(s.props[k], sep, m, mid, k, j);
    }
    NotOwned(s, sep, k, owner, key);
    NestedRunEffect(s.props[k], k, sep, m, mid, key);
  }

  lemma NotOwned(s: Schema, sep: string, k: string, owner: string, key: string)
    requires DistinctLeaves(s, "", sep) && k in s.props && owner in s.props && k != owner && s.props[k].IsObject()
    requires LeafKeyUnder(s, owner, "", sep, key)
    ensures !IsLeafKey(s.props[k], k, sep, key)
  {
    assert Join("", sep, k) == k;
    if leaf :| LeafOf(s.props[k], k, sep, key, leaf) {
      assert LeafUnder(s, k, "", sep, key, leaf);
      assert LeafKeyUnder(s, k, "", sep, key);
    }
  }

  /** The first visit of a run, to an object property `k`, after which `key` of `owner` can no longer be stored. */
  lemma BadFirstVisit(s: Schema, sep: string, mid: Props, k: string, owner: string, key: string) returns (m': Props)
    requires DistinctLeaves(s, "", sep) && k in s.props && s.props[k].IsObject()
    requires NestedRun(s.props[k], k, sep, s.props, mid)
    requires Lost(s, sep, mid - {k}, (s.props.Keys - {k}) * mid.Keys, owner, key)
    ensures RootRun(s.props, s.props.Keys, sep, m') && !IsFlat(m', s, sep)
  {
    m' := RootCompletes(mid - {k}, (s.props.Keys - {k}) * mid.Keys, sep);
    LostStaysLost(s, sep, mid - {k}, (s.props.Keys - {k}) * mid.Keys, m', owner, key);
    assert RootVisit(s.props, s.props.Keys, k, sep, m');
  }

  /** What every first visit leaves of the other top-level entries. */
  lemma FirstVisitEntries(s: Schema, sep: string, mid: Props, k: string)
    requires k in s.props && NestedRun(s.props[k], k, sep, s.props, mid)
    ensures forall j :: j in (s.props.Keys - {k}) * mid.Keys ==> mid[j] == s.props[j] || !mid[j].IsObject()
  {
    forall j | j in (s.props.Keys - {k}) * mid.Keys ensures mid[j] == s.props[j] || !mid[j].IsObject() {
      VisitKeepsEntries(s.props[k], sep, s.props, mid, k, j);
    }
  }

  lemma {:induction false} SomeLeaf(s: Schema, prefix: string, sep: string) returns (key: string, leaf: Schema)
    requires s.props != map[] && NoEmptyObjects(s)
    ensures LeafOf(s, prefix, sep, key, leaf)
  {
    var k :| k in s.props;
    if s.props[k].IsObject() {
      key, leaf := SomeLeaf(s.props[k], Join(prefix, sep, k), sep);
    } else {
      key, leaf := Join(prefix, sep, k), s.props[k];
    }
    assert LeafUnder(s, k, prefix, sep, key, leaf);
  }

  /** An object at the top that is gone or stored over before it is visited loses its leaves. */
  lemma MissedObject(s: Schema, sep: string, mid: Props, k: string, missed: string) returns (m': Props)
    requires DistinctLeaves(s, "", sep) && NoEmptyObjects(s)
    requires k in s.props && s.props[k].IsObject() && NestedRun(s.props[k], k, sep, s.props, mid)
    requires missed in s.props && missed != k && s.props[missed].IsObject()
    requires missed in mid ==> !mid[missed].IsObject()
    ensures RootRun(s.props, s.props.Keys, sep, m') && !IsFlat(m', s, sep)
  {
    assert Join("", sep, missed) == missed;
    var key, leaf := SomeLeaf(s.props[missed], missed, sep);
    assert LeafUnder(s, missed, "", sep, key, leaf);
    assert LeafKeyUnder(s, missed, "", sep, key);
    NotOwned(s, sep, k, missed, key);
    NestedRunEffect(s.props[k], k, sep, s.props, mid, key);
    FirstVisitEntries(s, sep, mid, k);
    if key in s.props && !s.props[key].IsObject() {
      assert LeafUnder(s, key, "", sep, key, s.props[key]);
      assert LeafKeyUnder(s, key, "", sep, key);
    }
    m' := BadFirstVisit(s, sep, mid, k, missed, key);
  }

  /** A top-level object that an object below another one is called like: visited second, it is gone. */
  lemma NestedNameLoses(s: Schema, sep: string, k: string, name: string) returns (m': Props)
    requires DistinctLeaves(s, "", sep) && NoEmptyObjects(s)
    requires k in s.props && name in s.props && name != k && NestedUnder(s, k, name) && s.props[name].IsObject()
    requires !IsLeafKey(s, "", sep, name)
    ensures RootRun(s.props, s.props.Keys, sep, m') && !IsFlat(m', s, sep)
  {
    var mid := NestedCompletes(s.props[k], k, sep, s.props);
    NestedRunEffect(s.props[k], k, sep, s.props, mid, name);
    assert Join("", sep, k) == k;
    if leaf :| LeafOf(s.props[k], k, sep, name, leaf) {
      assert LeafUnder(s, k, "", sep, name, leaf);
      assert LeafOf(s, "", sep, name, leaf);
    }
    m' := MissedObject(s, sep, mid, k, name);
  }

  /** A leaf key that an object property is called like: a run that visits the leaf's branch first loses something. */
  lemma LeafNameLoses(s: Schema, sep: string, key: string) returns (m': Props)
    requires DistinctLeaves(s, "", sep) && NoEmptyObjects(s)
    requires IsLeafKey(s, "", sep, key) && ObjectIn(s, key)
    ensures RootRun(s.props, s.props.Keys, sep, m') && !IsFlat(m', s, sep)
  {
    var leaf :| LeafOf(s, "", sep, key, leaf);
    var kp :| kp in s.props && LeafUnder(s, kp, "", sep, key, leaf);
    assert LeafKeyUnder(s, kp, "", sep, key);
    assert Join("", sep, kp) == kp;
    if ObjectUnder(s, kp, key) {
      m' := SameBranchLoses(s, sep, kp, key);
    } else {
      var ko :| ko in s.props && ObjectUnder(s, ko, key);
      if s.props[kp].IsObject() {
        m' := OtherBranchLoses(s, sep, kp, ko, key);
      } else {
        m' := LeafThenObject(s, sep, ko, key);
      }
    }
  }

  lemma SameBranchLoses(s: Schema, sep: string, k: string, key: string) returns (m': Props)
    requires DistinctLeaves(s, "", sep) && k in s.props && LeafKeyUnder(s, k, "", sep, key) && ObjectUnder(s, k, key)
    ensures RootRun(s.props, s.props.Keys, sep, m') && !IsFlat(m', s, sep)
  {
    assert Join("", sep, k) == k;
    var after := EntryLoses(s, k, "", sep, s.props, key);
    var mid: Props :| NestedRun(s.props[k], k, sep, s.props, mid) && after == mid - {k};
    FirstVisitEntries(s, sep, mid, k);
    m' := BadFirstVisit(s, sep, mid, k, k, key);
  }

  /** The key is a top-level leaf, and `k` an object below which an object is called like it. */
  lemma LeafThenObject(s: Schema, sep: string, k: string, key: string) returns (m': Props)
    requires DistinctLeaves(s, "", sep) && k in s.props && ObjectUnder(s, k, key)
    requires key in s.props && !s.props[key].IsObject()
    ensures RootRun(s.props, s.props.Keys, sep, m') && !IsFlat(m', s, sep)
  {
    var mid := NestedCompletes(s.props[k], k, sep, s.props);
    assert LeafUnder(s, key, "", sep, key, s.props[key]);
    assert LeafKeyUnder(s, key, "", sep, key);
    NotOwned(s, sep, k, key, key);
    NestedRunEffect(s.props[k], k, sep, s.props, mid, key);
    FirstVisitEntries(s, sep, mid, k);
    m' := BadFirstVisit(s, sep, mid, k, key, key);
  }

  /** The key belongs to the object `kp`, and the object `ko` is called like it or has an object below it that is: after
      `kp` has been visited, either `ko` is missed, or its visit deletes the key. */
  lemma OtherBranchLoses(s: Schema, sep: string, kp: string, ko: string, key: string) returns (m': Props)
    requires DistinctLeaves(s, "", sep) && NoEmptyObjects(s)
    requires kp in s.props && ko in s.props && s.props[kp].IsObject()
    requires LeafKeyUnder(s, kp, "", sep, key) && ObjectUnder(s, ko, key) && !ObjectUnder(s, kp, key)
    ensures RootRun(s.props, s.props.Keys, sep, m') && !IsFlat(m', s, sep)
  {
    var mid := NestedCompletes(s.props[kp], kp, sep, s.props);
    if ko !in mid || !mid[ko].IsObject() {
      m' := MissedObject(s, sep, mid, kp, ko);
    } else {
      FirstVisitEntries(s, sep, mid, kp);
      var m1, must1 := mid - {kp}, (s.props.Keys - {kp}) * mid.Keys;
      assert m1[ko] == s.props[ko];
      var mid2 := NestedCompletes(s.props[ko], ko, sep, m1);
      NotOwned(s, sep, ko, kp, key);
      NestedRunEffect(s.props[ko], ko, sep, m1, mid2, key);
      assert key !in mid2 - {ko};
      var m2, must2 := mid2 - {ko}, (must1 - {ko}) * mid2.Keys;
      forall j | j in must2 ensures m2[j] == s.props[j] || !m2[j].IsObject() {
        VisitKeepsEntries(s.props[ko], sep, m1, mid2, ko, j);
      }
      m' := RootCompletes(m2, must2, sep);
      LostStaysLost(s, sep, m2, must2, m', kp, key);
      assert RootVisit(m1, must1, ko, sep, m');
      assert RootVisit(s.props, s.props.Keys, kp, sep, m');
    }
  }

  /** For schemas with distinct joined leaf paths and no empty objects, flattening in place gives exactly the leaves for
      every iteration order if and only if no object is called like a joined leaf key, and none below the top is called
      like a top-level property other than the one it is below. */
  lemma FlattensIffSeparable(s: Schema, sep: string)
    requires DistinctLeaves(s, "", sep) && NoEmptyObjects(s)
    ensures Separable(s, sep) <==> forall m' :: RootRun(s.props, s.props.Keys, sep, m') ==> IsFlat(m', s, sep)
  {
    if Separable(s, sep) {
      forall m' | RootRun(s.props, s.props.Keys, sep, m') ensures IsFlat(m', s, sep) {
        SeparableFlattens(s, sep, s.props, s.props.Keys, {}, m');
      }
    } else if k, name :| k in s.props && name in s.props && NestedUnder(s, k, name) && name != k {
      assert ObjectUnder(s, k, name);
      if s.props[name].IsObject() && !IsLeafKey(s, "", sep, name) {
        var m' := NestedNameLoses(s, sep, k, name);
      } else {
        if !s.props[name].IsObject() {
          assert LeafUnder(s, name, "", sep, name, s.props[name]);
          assert LeafOf(s, "", sep, name, s.props[name]);
        }
        var m' := LeafNameLoses(s, sep, name);
      }
    } else {
      var key :| IsLeafKey(s, "", sep, key) && ObjectIn(s, key);
      var m' := LeafNameLoses(s, sep, key);
    }
  }

  /** An object with one property has the leaves of that property. */
  lemma SingleLeaf(s: Schema, k: string, prefix: string, sep: string, key: string)
    requires s.props.Keys == {k}
    ensures IsLeafKey(s, prefix, sep, key) <==> LeafKeyUnder(s, k, prefix, sep, key)
  {
    assert k in s.props && forall j :: j in s.props ==> j == k;
    if IsLeafKey(s, prefix, sep, key) {
      var leaf :| LeafOf(s, prefix, sep, key, leaf);
      var j :| j in s.props && LeafUnder(s, j, prefix, sep, key, leaf);
    }
    if LeafKeyUnder(s, k, prefix, sep, key) {
      var leaf :| LeafUnder(s, k, prefix, sep, key, leaf);
      assert LeafOf(s, prefix, sep, key, leaf);
    }
  }

  lemma LeafKeyStep(s: Schema, k: string, prefix: string, sep: string, key: string)
    requires k in s.props
    ensures LeafKeyUnder(s, k, prefix, sep, key)
       <==> if s.props[k].IsObject() then IsLeafKey(s.props[k], Join(prefix, sep, k), sep, key)
            else key == Join(prefix, sep, k)
  {
    if s.props[k].IsObject() {
      if IsLeafKey(s.props[k], Join(prefix, sep, k), sep, key) {
        var leaf :| LeafOf(s.props[k], Join(prefix, sep, k), sep, key, leaf);
        assert LeafUnder(s, k, prefix, sep, key, leaf);
      }
      if LeafKeyUnder(s, k, prefix, sep, key) {
        var leaf :| LeafUnder(s, k, prefix, sep, key, leaf);
        assert LeafOf(s.props[k], Join(prefix, sep, k), sep, key, leaf);
      }
    } else if key == Join(prefix, sep, k) {
      assert LeafUnder(s, k, prefix, sep, key, s.props[k]);
    }
  }

  function Wrap(k: string, s: Schema): Schema { Schema("object", map[k := s], [], 0) }

  lemma WrapNotEmpty(k: string, s: Schema)
    requires s.IsObject() ==> s.props != map[] && NoEmptyObjects(s)
    ensures Wrap(k, s).props != map[] && NoEmptyObjects(Wrap(k, s))
  {
    assert k in Wrap(k, s).props;
  }

  /** An `x` below `b` below `a`, and a `y` below another `b` at the top. */
  function SimpleNames(x: Schema, y: Schema): Schema {
    Schema("object", map["a" := Wrap("b", Wrap("x", x)), "b" := Wrap("y", y)], [], 0)
  }

  lemma SimpleNamesLeaves(x: Schema, y: Schema, key: string)
    requires !x.IsObject() && !y.IsObject()
    ensures LeafKeyUnder(SimpleNames(x, y), "a", "", "__", key) <==> key == "a__b__x"
    ensures LeafKeyUnder(SimpleNames(x, y), "b", "", "__", key) <==> key == "b__y"
  {
    var s := SimpleNames(x, y);
    LeafKeyStep(s, "a", "", "__", key);
    SingleLeaf(Wrap("b", Wrap("x", x)), "b", "a", "__", key);
    LeafKeyStep(Wrap("b", Wrap("x", x)), "b", "a", "__", key);
    SingleLeaf(Wrap("x", x), "x", "a__b", "__", key);
    LeafKeyStep(Wrap("x", x), "x", "a__b", "__", key);
    LeafKeyStep(s, "b", "", "__", key);
    SingleLeaf(Wrap("y", y), "y", "b", "__", key);
    LeafKeyStep(Wrap("y", y), "y", "b", "__", key);
    assert Join("", "__", "a") == "a" && Join("", "__", "b") == "b";
    assert Join("a", "__", "b") == "a__b" && Join("a__b", "__", "x") == "a__b__x" && Join("b", "__", "y") == "b__y";
  }

  lemma SingleDistinct(s: Schema, k: string, prefix: string)
    requires s.props.Keys == {k} && (s.props[k].IsObject() ==> DistinctLeaves(s.props[k], Join(prefix, "__", k), "__"))
    ensures DistinctLeaves(s, prefix, "__")
  {
    assert forall j :: j in s.props ==> j == k;
  }

  lemma SimpleNamesDistinct(x: Schema, y: Schema)
    requires !x.IsObject() && !y.IsObject()
    ensures DistinctLeaves(SimpleNames(x, y), "", "__")
  {
    var s := SimpleNames(x, y);
    SingleDistinct(Wrap("x", x), "x", Join(Join("", "__", "a"), "__", "b"));
    SingleDistinct(Wrap("b", Wrap("x", x)), "b", Join("", "__", "a"));
    SingleDistinct(Wrap("y", y), "y", Join("", "__", "b"));
    forall k1, k2, key | k1 in s.props && k2 in s.props
      && LeafKeyUnder(s, k1, "", "__", key) && LeafKeyUnder(s, k2, "", "__", key)
      ensures k1 == k2
    {
      SimpleNamesLeaves(x, y, key);
    }
  }

  /** Two settings called `b`, one at the top and one below `a`: not separable, and some iteration order loses
      a setting. */
  lemma SimpleNameExample(x: Schema, y: Schema) returns (m': Props)
    requires !x.IsObject() && !y.IsObject()
    ensures var s := SimpleNames(x, y);
            && !Separable(s, "__")
            && RootRun(s.props, s.props.Keys, "__", m') && !IsFlat(m', s, "__")
  {
    var s := SimpleNames(x, y);
    assert ObjectUnder(Wrap("b", Wrap("x", x)), "b", "b");
    assert NestedUnder(s, "a", "b");
    SimpleNamesDistinct(x, y);
    if IsLeafKey(s, "", "__", "b") {
      var leaf :| LeafOf(s, "", "__", "b", leaf);
      var k :| k in s.props && LeafUnder(s, k, "", "__", "b", leaf);
      SimpleNamesLeaves(x, y, "b");
      assert LeafKeyUnder(s, k, "", "__", "b");
    }
    WrapNotEmpty("x", x);
    WrapNotEmpty("b", Wrap("x", x));
    WrapNotEmpty("y", y);
    m' := NestedNameLoses(s, "__", "a", "b");
  }

  // ---- the code ----

  /** The schema copy whose property map is rewritten. */
  class SharedSchema {
    var props: Props

    constructor (props: Props)
      ensures this.props == props
    {
      this.props := props;
    }

    /** Moves the leaves below `s` into the shared map, visiting the properties in any order. */
    method ShallowNested(s: Schema, parent: string, sep: string)
      modifies this
      ensures NestedRun(s, parent, sep, old(props), props)
      decreases s, 1
    {
      var remaining := s.props.Keys;
      ghost var order, seen: set<string> := [], {};
      while remaining != {}
        invariant remaining == s.props.Keys - seen && seen <= s.props.Keys
        invariant IsOrderOf(order, seen)
        invariant FoldRun(s, order, parent, sep, old(props), props)
        decreases remaining
      {
        var k :| k in remaining;
        remaining := remaining - {k};
        ghost var before := props;
        ShallowEntry(s, k, parent, sep);
        FoldOnce(s, order, k, parent, sep, old(props), before, props);
        OrderOneMore(order, seen, k);
        order, seen := order + [k], seen + {k};
      }
      assert seen == s.props.Keys;
    }

    method ShallowEntry(s: Schema, k: string, parent: string, sep: string)
      requires k in s.props
      modifies this
      ensures EntryRun(s, k, parent, sep, old(props), props)
      decreases s, 0
    {
      var v := s.props[k];
      var shallowedKey := Join(parent, sep, k);
      if !v.IsObject() {
        props := props[shallowedKey := v];
      } else {
        ShallowNested(v, shallowedKey, sep);
        props := props - {k};
      }
    }

    /** The iteration over the shared map itself. Entries deleted before they are reached are never visited; entries
        created meanwhile may be visited or skipped. */
    method ShallowProperties(sep: string)
      modifies this
      ensures RootRun(old(props), old(props).Keys, sep, props)
    {
      var must, created := props.Keys, {};
      while must != {}
        invariant must <= props.Keys
        invariant forall k :: k in created && k in props ==> !props[k].IsObject()
        invariant forall end: Props :: RootRun(props, must, sep, end) ==> RootRun(old(props), old(props).Keys, sep, end)
        decreases must, created
      {
        var visitCreated: bool := *;
        if visitCreated && created != {} {
          var k :| k in created;
          created := created - {k};
          if k in props {
            ghost var unvisited := props;
            props := props[k := props[k]];
            assert props == unvisited;
          }
          continue;
        }
        var k :| k in must;
        ghost var before, mustBefore := props, must;
        var v := props[k];
        must := must - {k};
        if !v.IsObject() {
          props := props[k := v];
          assert props == before;
          forall end: Props | RootRun(props, must, sep, end) ensures RootRun(before, mustBefore, sep, end) {
            assert RootVisit(before, mustBefore, k, sep, end);
          }
        } else {
          var known := props.Keys;
          ShallowNested(v, k, sep);
          ghost var mid := props;
          created := created + (props.Keys - known);
          forall j | j in created && j in props ensures !props[j].IsObject() {
            CreatedAreLeaves(v, k, sep, before, props, j);
          }
          must := must * props.Keys;
          props := props - {k};
          must := must - {k};
          forall end: Props | RootRun(props, must, sep, end) ensures RootRun(before, mustBefore, sep, end) {
            assert must == (mustBefore - {k}) * mid.Keys && props == mid - {k};
            assert NestedRun(before[k], k, sep, before, mid);
            assert RootVisit(before, mustBefore, k, sep, end);
          }
        }
      }
    }
  }

  lemma CreatedAreLeaves(s: Schema, prefix: string, sep: string, m: Props, m': Props, key: string)
    requires NestedRun(s, prefix, sep, m, m') && key in m' && (key in m ==> !m[key].IsObject())
    ensures !m'[key].IsObject()
  {
    NestedRunEffect(s, prefix, sep, m, m', key);
    if LeafOf(s, prefix, sep, key, m'[key]) {
      LeavesAreLeaves(s, prefix, sep, key, m'[key]);
    }
  }

  // ---- required fields ----

  ghost predicate RequiredUnder(s: Schema, k: string, prefix: string, sep: string, key: string)
    decreases s, 0
  {
    && k in s.props
    && (if s.props[k].IsObject() then RequiredLeaf(s.props[k], Join(prefix, sep, k), sep, key)
        else key == Join(prefix, sep, k))
  }

  /** A joined name of a required leaf, every step of whose path is required by its parent. */
  ghost predicate RequiredLeaf(s: Schema, prefix: string, sep: string, key: string)
    decreases s, 1
  {
    exists k :: k in s.required && RequiredUnder(s, k, prefix, sep, key)
  }

  ghost predicate RequiredAmong(s: Schema, listed: seq<string>, prefix: string, sep: string, key: string) {
    exists k :: k in listed && RequiredUnder(s, k, prefix, sep, key)
  }

  lemma RequiredSnoc(s: Schema, listed: seq<string>, k: string, prefix: string, sep: string, key: string)
    ensures RequiredAmong(s, listed + [k], prefix, sep, key)
        <==> RequiredAmong(s, listed, prefix, sep, key) || RequiredUnder(s, k, prefix, sep, key)
  {
    assert forall j :: j in listed + [k] <==> j in listed || j == k;
  }

  /** The joined names of the required leaves, in the order in which the parents list them. */
  method ShallowRequired(s: Schema, prefix: string, sep: string) returns (fields: seq<string>)
    ensures forall key :: key in fields <==> RequiredLeaf(s, prefix, sep, key)
    decreases s
  {
    fields := [];
    for i := 0 to |s.required|
      invariant forall key :: key in fields <==> RequiredAmong(s, s.required[..i], prefix, sep, key)
    {
      var field := s.required[i];
      ghost var before := fields;
      assert s.required[..i + 1] == s.required[..i] + [field];
      if field in s.props {
        var fullName := Join(prefix, sep, field);
        if s.props[field].IsObject() {
          var nested := ShallowRequired(s.props[field], fullName, sep);
          fields := fields + nested;
        } else {
          fields := fields + [fullName];
        }
      }
      forall key ensures key in fields <==> RequiredAmong(s, s.required[..i + 1], prefix, sep, key) {
        RequiredSnoc(s, s.required[..i], field, prefix, sep, key);
        assert key in fields <==> key in before || RequiredUnder(s, field, prefix, sep, key);
      }
    }
    assert s.required[..|s.required|] == s.required;
  }

  /** Every required leaf is a leaf: with a separable schema it is a key of the flattened properties. */
  lemma {:induction false} RequiredIsLeaf(s: Schema, prefix: string, sep: string, key: string)
    requires RequiredLeaf(s, prefix, sep, key)
    ensures IsLeafKey(s, prefix, sep, key)
    decreases s
  {
    var k :| k in s.required && RequiredUnder(s, k, prefix, sep, key);
    if s.props[k].IsObject() {
      RequiredIsLeaf(s.props[k], Join(prefix, sep, k), sep, key);
      var leaf :| LeafOf(s.props[k], Join(prefix, sep, k), sep, key, leaf);
      assert LeafUnder(s, k, prefix, sep, key, leaf);
      assert LeafOf(s, prefix, sep, key, leaf);
    } else {
      assert LeafUnder(s, k, prefix, sep, key, s.props[k]);
      assert LeafOf(s, prefix, sep, key, s.props[k]);
    }
  }

  /** Flattening a whole schema. A schema that is not an object is returned as it is. */
  method ShallowJsonSchema(s: Schema, sep: string) returns (r: Schema)
    ensures !s.IsObject() ==> r == s
    ensures s.IsObject() ==> r.IsObject() && RootRun(s.props, s.props.Keys, sep, r.props)
    ensures s.IsObject() ==> forall key :: key in r.required <==> RequiredLeaf(s, "", sep, key)
    ensures s.IsObject() && DistinctLeaves(s, "", sep) && Separable(s, sep) ==>
              IsFlat(r.props, s, sep) && forall key :: key in r.required ==> key in r.props
  {
    var cloned := new SharedSchema(s.props);
    cloned.ShallowProperties(sep);
    if !s.IsObject() {
      return s;
    }
    var required := ShallowRequired(s, "", sep);
    r := Schema("object", cloned.props, required, 0);
    if DistinctLeaves(s, "", sep) && Separable(s, sep) {
      SeparableFlattens(s, sep, s.props, s.props.Keys, {}, r.props);
      forall key | key in required ensures key in r.props {
        RequiredIsLeaf(s, "", sep, key);
        var leaf :| LeafOf(s, "", sep, key, leaf);
      }
    }
  }
}
