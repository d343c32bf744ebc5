/** Applying a mapping's queries to one object. A query is a text evaluated by jq, an unknown function here, or nests
    queries in maps and lists. Maps are iterated in an order nobody controls. */
module JqMapping {
  import opened Basics

  datatype Value = Null | Scalar(id: nat) | List(items: seq<Value>) | Object(fields: map<string, Value>)

  /** `Invalid` is a query of any other kind, such as a number, and `NoQuery` a null, which has no kind at all. */
  datatype Query =
    | Text(text: string)
    | Nested(queries: map<string, Query>)
    | Many(list: seq<Query>)
    | Invalid
    | NoQuery

  /** What jq makes of a query text for the object at hand; it can fail. */
  type Eval = string -> Option<Value>

  const STAR := "*"

  // ---- flat query maps ----

  /** Adds one result: the star key spreads an object's fields over the map. */
  function Add(m: map<string, Value>, key: string, v: Value): map<string, Value> {
    if key == STAR && v.Object? then m + v.fields else m[key := v]
  }

  function Fold(results: map<string, Value>, order: seq<string>): map<string, Value>
    requires forall k :: k in order ==> k in results
  {
    if order == [] then map[]
    else Add(Fold(results, order[..|order| - 1]), order[|order| - 1], results[order[|order| - 1]])
  }

  ghost predicate AllEvaluate(queries: map<string, string>, eval: Eval) {
    forall k :: k in queries ==> eval(queries[k]).Some?
  }

  ghost function Results(queries: map<string, string>, eval: Eval): map<string, Value>
    requires AllEvaluate(queries, eval)
  {
    map k | k in queries :: eval(queries[k]).value
  }

  method ParseMapInterface(queries: map<string, string>, eval: Eval)
    returns (r: Option<map<string, Value>>, ghost order: seq<string>)
    ensures r.Some? <==> AllEvaluate(queries, eval)
    ensures r.Some? ==> IsOrderOf(order, queries.Keys) && r.value == Fold(Results(queries, eval), order)
  {
    var m: map<string, Value> := map[];
    var remaining := queries.Keys;
    ghost var seen: set<string> := {};
    order := [];
    while remaining != {}
      invariant remaining == queries.Keys - seen && seen <= queries.Keys
      invariant IsOrderOf(order, seen)
      invariant forall k :: k in seen ==> eval(queries[k]).Some?
      invariant AllEvaluate(queries, eval) ==> m == Fold(Results(queries, eval), order)
      decreases remaining
    {
      var key :| key in remaining;
      var result := eval(queries[key]);
      if result.None? {
        return None, order;
      }
      remaining := remaining - {key};
      assert (order + [key])[..|order|] == order;
      order, seen := order + [key], seen + {key};
      m := Add(m, key, result.value);
    }
    assert seen == queries.Keys;
    return Some(m), order;
  }

  /** The fields that the star key spreads. */
  function Spread(results: map<string, Value>): map<string, Value> {
    if STAR in results && results[STAR].Object? then results[STAR].fields else map[]
  }

  function Explicit(results: map<string, Value>): map<string, Value> {
    if STAR in results && results[STAR].Object? then results - {STAR} else results
  }

  /** Fields spread by the star key agree with the keys given explicitly. */
  ghost predicate Compatible(results: map<string, Value>) {
    forall k :: k in Spread(results) && k in Explicit(results) ==> Spread(results)[k] == Explicit(results)[k]
  }

  lemma {:induction false} FoldIsUnion(results: map<string, Value>, order: seq<string>, key: string)
    requires Compatible(results) && forall k :: k in order ==> k in results
    ensures key in Fold(results, order) <==>
              (key in Explicit(results) && key in order) || (key in Spread(results) && STAR in order)
    ensures key in Fold(results, order) ==>
              Fold(results, order)[key]
              == if key in Explicit(results) then Explicit(results)[key] else Spread(results)[key]
  {
    if order != [] {
      var n := |order| - 1;
      assert order == order[..n] + [order[n]];
      FoldIsUnion(results, order[..n], key);
    }
  }

  /** Confluence: all iteration orders give the same map, the union of the explicit results and the spread fields, if
      and only if the two agree where they overlap. */
  lemma ConfluentIffCompatible(results: map<string, Value>)
    ensures Compatible(results) <==>
              forall o1, o2 :: IsOrderOf(o1, results.Keys) && IsOrderOf(o2, results.Keys) ==>
                Fold(results, o1) == Fold(results, o2)
    ensures Compatible(results) ==>
              forall o :: IsOrderOf(o, results.Keys) ==> Fold(results, o) == Spread(results) + Explicit(results)
  {
    if Compatible(results) {
      forall o | IsOrderOf(o, results.Keys) ensures Fold(results, o) == Spread(results) + Explicit(results) {
        forall key
          ensures key in Fold(results, o) <==> key in Spread(results) + Explicit(results)
          ensures key in Fold(results, o) ==> Fold(results, o)[key] == (Spread(results) + Explicit(results))[key]
        {
          FoldIsUnion(results, o, key);
        }
      }
    } else {
      var k :| k in Spread(results) && k in Explicit(results) && Spread(results)[k] != Explicit(results)[k];
      var starLast := SomeOrderEnding(results.Keys, STAR);
      var keyLast := SomeOrderEnding(results.Keys, k);
      assert Fold(results, starLast)[k] == Spread(results)[k];
      assert Fold(results, keyLast)[k] == Explicit(results)[k];
    }
  }

  lemma SomeOrderEnding(keys: set<string>, last: string) returns (order: seq<string>)
    requires last in keys
    ensures IsOrderOf(order, keys) && order[|order| - 1] == last
  {
    var rest := SomeOrder(keys - {last});
    order := rest + [last];
    assert forall k :: k in order <==> k in rest || k == last;
  }

  // ---- nested query maps ----

  ghost predicate Evaluates(q: Query, eval: Eval) {
    match q
    case Text(t) => eval(t).Some?
    case Nested(m) => forall k :: k in m ==> Evaluates(m[k], eval)
    case Many(qs) => forall i :: 0 <= i < |qs| ==> Evaluates(qs[i], eval)
    case Invalid => false
    case NoQuery => false
  }

  /** Some text in it fails or some query is of the wrong kind. */
  ghost predicate Broken(q: Query, eval: Eval) {
    match q
    case Text(t) => eval(t).None?
    case Nested(m) => exists k :: k in m && Broken(m[k], eval)
    case Many(qs) => exists i :: 0 <= i < |qs| && Broken(qs[i], eval)
    case Invalid => true
    case NoQuery => false
  }

  lemma {:induction false} BrokenDoesNotEvaluate(q: Query, eval: Eval)
    ensures Broken(q, eval) ==> !Evaluates(q, eval)
  {
    match q
    case Nested(m) =>
      forall k | k in m ensures Broken(m[k], eval) ==> !Evaluates(m[k], eval) {
        BrokenDoesNotEvaluate(m[k], eval);
      }
    case Many(qs) =>
      forall i | 0 <= i < |qs| ensures Broken(qs[i], eval) ==> !Evaluates(qs[i], eval) {
        BrokenDoesNotEvaluate(qs[i], eval);
      }
    case _ =>
  }

  /** The structural meaning: texts become their results, maps and lists keep their shape. */
  ghost function Shape(q: Query, eval: Eval): Value
    requires Evaluates(q, eval)
  {
    match q
    case Text(t) => eval(t).value
    case Nested(m) => Object(map k | k in m :: Shape(m[k], eval))
    case Many(qs) => List(seq(|qs|, i requires 0 <= i < |qs| => Shape(qs[i], eval)))
  }

  datatype PathStep = Key(key: string) | Index(index: nat)

  /** What is found in a query by following map keys and list positions. */
  function QueryAt(q: Query, path: seq<PathStep>): Option<Query>
    decreases |path|
  {
    if path == [] then Some(q)
    else match path[0]
      case Key(k) => if q.Nested? && k in q.queries then QueryAt(q.queries[k], path[1..]) else None
      case Index(i) => if q.Many? && i < |q.list| then QueryAt(q.list[i], path[1..]) else None
  }

  function ValueAt(v: Value, path: seq<PathStep>): Option<Value>
    decreases |path|
  {
    if path == [] then Some(v)
    else match path[0]
      case Key(k) => if v.Object? && k in v.fields then ValueAt(v.fields[k], path[1..]) else None
      case Index(i) => if v.List? && i < |v.items| then ValueAt(v.items[i], path[1..]) else None
  }

  /** The shape mirrors the query place by place: where the query has a text there is its result, where it has a map
      there is an object with the same keys, and where it has a list there is one of the same length. */
  lemma {:induction false} ShapeMirrors(q: Query, eval: Eval, path: seq<PathStep>)
    requires Evaluates(q, eval) && QueryAt(q, path).Some?
    ensures var at, v := QueryAt(q, path).value, ValueAt(Shape(q, eval), path);
            && (at.Text? ==> v == eval(at.text))
            && (at.Nested? ==> v.Some? && v.value.Object? && v.value.fields.Keys == at.queries.Keys)
            && (at.Many? ==> v.Some? && v.value.List? && |v.value.items| == |at.list|)
    decreases |path|
  {
    if path != [] {
      match path[0]
      case Key(k) => ShapeMirrors(q.queries[k], eval, path[1..]);
      case Index(i) => ShapeMirrors(q.list[i], eval, path[1..]);
    }
  }

  /** No query is null, no map inside is empty, and no text under a star key evaluates to an object. */
  ghost predicate Regular(key: string, q: Query, eval: Eval)
    decreases q
  {
    match q
    case Text(t) => !(key == STAR && eval(t).Some? && eval(t).value.Object?)
    case Nested(m) => m != map[] && forall k :: k in m ==> Regular(k, m[k], eval)
    case Many(qs) => forall i :: 0 <= i < |qs| ==> Regular(key, qs[i], eval)
    case Invalid => true
    case NoQuery => false
  }

  /** A null query, or a text under a star key that evaluates to an object, occurs in it. */
  ghost predicate Hazardous(key: string, q: Query, eval: Eval)
    decreases q
  {
    match q
    case Text(t) => key == STAR && eval(t).Some? && eval(t).value.Object?
    case Nested(m) => exists k :: k in m && Hazardous(k, m[k], eval)
    case Many(qs) => exists i :: 0 <= i < |qs| && Hazardous(key, qs[i], eval)
    case Invalid => false
    case NoQuery => true
  }

  lemma {:induction false} HazardousIsIrregular(key: string, q: Query, eval: Eval)
    requires Hazardous(key, q, eval)
    ensures !Regular(key, q, eval)
    decreases q
  {
    match q
    case Nested(m) =>
      var k :| k in m && Hazardous(k, m[k], eval);
      HazardousIsIrregular(k, m[k], eval);
    case Many(qs) =>
      var i :| 0 <= i < |qs| && Hazardous(key, qs[i], eval);
      HazardousIsIrregular(key, qs[i], eval);
    case _ =>
  }

  type Queries = map<string, Query>

  ghost predicate MapEvaluates(m: Queries, eval: Eval) { forall k :: k in m ==> Evaluates(m[k], eval) }

  ghost predicate MapBroken(m: Queries, eval: Eval) { exists k :: k in m && Broken(m[k], eval) }

  ghost predicate MapHazardous(m: Queries, eval: Eval) { exists k :: k in m && Hazardous(k, m[k], eval) }

  ghost predicate MapRegular(m: Queries, eval: Eval) { forall k :: k in m ==> Regular(k, m[k], eval) }

  ghost function MapShape(m: Queries, eval: Eval): map<string, Value>
    requires MapEvaluates(m, eval)
  {
    map k | k in m :: Shape(m[k], eval)
  }

  /** The star key is there and spreads an object over the map. */
  ghost predicate Spreads(key: string, q: Query, eval: Eval) {
    key == STAR && q.Text? && eval(q.text).Some? && eval(q.text).value.Object?
  }

  // ---- the measure: how deep a query nests ----

  ghost function MaxOf(s: set<nat>): nat {
    if s == {} then 0 else
    var x :| x in s;
    Max(x, MaxOf(s - {x}))
  }

  lemma {:induction false} MaxOfBounds(s: set<nat>, x: nat)
    requires x in s
    ensures x <= MaxOf(s)
    decreases s
  {
    var y :| y in s && MaxOf(s) == Max(y, MaxOf(s - {y}));
    if x != y {
      MaxOfBounds(s - {y}, x);
    }
    assert x <= Max(y, MaxOf(s - {y}));
  }

  ghost function Height(q: Query): nat {
    match q
    case Text(_) => 0
    case Nested(m) => 1 + MaxOf(set k | k in m :: Height(m[k]))
    case Many(qs) => 1 + MaxOf(set i | 0 <= i < |qs| :: Height(qs[i]))
    case Invalid => 0
    case NoQuery => 0
  }

  /** A bound on the height of each query of a map. Wrapping a nested query in a map of its own lowers it. */
  ghost predicate Below(m: Queries, height: nat) { forall k :: k in m ==> Height(m[k]) < height }

  /** Every map of queries has such a bound, so each call of `ParseMapRecursively` terminates. */
  lemma HeightBound(m: Queries) returns (height: nat)
    ensures Below(m, height)
  {
    var heights := set k | k in m :: Height(m[k]);
    height := MaxOf(heights) + 1;
    forall k | k in m ensures Height(m[k]) < height {
      MaxOfBounds(heights, Height(m[k]));
    }
  }

  // ---- the code ----

  /** `Panicked` is a null query, or a type assertion that fails: a nested map meets a value that a star key spread. */
  datatype Parsed = Failed | Panicked | Parsed(value: map<string, Value>)

  /** What a call may answer for a map of queries. */
  ghost predicate Answers(m: Queries, eval: Eval, r: Parsed) {
    && (r.Failed? ==> MapBroken(m, eval))
    && (r.Panicked? ==> MapHazardous(m, eval))
    && (r.Parsed? ==>
          && MapEvaluates(m, eval)
          && (r.value == MapShape(m, eval) <==> MapRegular(m, eval))
          && (forall k :: k in r.value ==> k in m || Spreading(m, eval))
          && (Spreading(m, eval) && STAR in r.value ==> r.value[STAR] != Shape(m[STAR], eval)))
  }

  ghost predicate Spreading(m: Queries, eval: Eval) { STAR in m && Spreads(STAR, m[STAR], eval) }

  /** The answer for a single query has its shape under its key exactly when the query is regular. */
  lemma SingleAnswer(k: string, q: Query, eval: Eval, v: map<string, Value>)
    requires Answers(map[k := q], eval, Parsed(v))
    ensures Evaluates(q, eval)
    ensures k in v && v[k] == Shape(q, eval) <==> Regular(k, q, eval)
    ensures Regular(k, q, eval) ==> v == map[k := Shape(q, eval)]
    ensures !Spreads(k, q, eval) ==> v.Keys <= {k}
  {
    var m := map[k := q];
    assert m[k] == q && MapEvaluates(m, eval);
    assert MapRegular(m, eval) <==> Regular(k, q, eval);
    assert MapShape(m, eval) == map[k := Shape(q, eval)];
    assert Spreading(m, eval) <==> Spreads(k, q, eval);
    if k in v && v[k] == Shape(q, eval) && !Spreads(k, q, eval) {
      assert v == map[k := Shape(q, eval)];
    }
  }

  lemma ExtendedMap(m: Queries, eval: Eval, k: string, q: Query)
    requires k !in m && MapEvaluates(m, eval) && Evaluates(q, eval)
    ensures MapEvaluates(m[k := q], eval)
    ensures MapRegular(m[k := q], eval) <==> MapRegular(m, eval) && Regular(k, q, eval)
    ensures MapShape(m[k := q], eval) == MapShape(m, eval)[k := Shape(q, eval)]
    ensures Spreading(m[k := q], eval) <==> Spreading(m, eval) || Spreads(k, q, eval)
  {
    var m' := m[k := q];
    assert m'[k] == q;
    assert forall j :: j in m ==> m'[j] == m[j];
    if MapRegular(m', eval) {
      forall j | j in m ensures Regular(j, m[j], eval) {
        assert Regular(j, m'[j], eval);
      }
      assert Regular(k, m'[k], eval);
    }
  }

  /** Adding the answer for one more query to the answer for a map of queries. */
  lemma MergeAnswer(m: Queries, eval: Eval, acc: map<string, Value>, k: string, q: Query, part: map<string, Value>)
    requires k !in m && Answers(m, eval, Parsed(acc)) && Answers(map[k := q], eval, Parsed(part))
    ensures Answers(m[k := q], eval, Parsed(acc + part))
  {
    SingleAnswer(k, q, eval, part);
    ExtendedMap(m, eval, k, q);
    if Spreading(m[k := q], eval) {
      MergeSpreading(m, eval, acc, k, q, part);
    } else {
      MergePlain(m, eval, acc, k, q, part);
    }
  }

  lemma MergeSpreading(m: Queries, eval: Eval, acc: map<string, Value>, k: string, q: Query, part: map<string, Value>)
    requires k !in m && Answers(m, eval, Parsed(acc)) && Answers(map[k := q], eval, Parsed(part))
    requires Spreading(m[k := q], eval)
    ensures Answers(m[k := q], eval, Parsed(acc + part))
  {
    var m' := m[k := q];
    SingleAnswer(k, q, eval, part);
    ExtendedMap(m, eval, k, q);
    assert !Regular(STAR, m'[STAR], eval);
    assert MapShape(m', eval)[STAR] == Shape(m'[STAR], eval);
    if k == STAR {
      assert map[k := q][STAR] == q && Spreading(map[k := q], eval);
    }
  }

  lemma MergePlain(m: Queries, eval: Eval, acc: map<string, Value>, k: string, q: Query, part: map<string, Value>)
    requires k !in m && Answers(m, eval, Parsed(acc)) && Answers(map[k := q], eval, Parsed(part))
    requires !Spreading(m[k := q], eval)
    ensures Answers(m[k := q], eval, Parsed(acc + part))
  {
    SingleAnswer(k, q, eval, part);
    ExtendedMap(m, eval, k, q);
    assert k !in acc && part.Keys <= {k};
    ExtendsIff(acc, part, MapShape(m, eval), k, Shape(q, eval));
  }

  lemma ExtendsIff(acc: map<string, Value>, part: map<string, Value>, shape: map<string, Value>, k: string, v: Value)
    requires k !in acc && k !in shape && part.Keys <= {k}
    ensures acc + part == shape[k := v] <==> acc == shape && k in part && part[k] == v
  {
    if acc + part == shape[k := v] {
      assert k in shape[k := v];
      assert k in part && part[k] == v;
      assert acc == (acc + part) - {k} && shape == shape[k := v] - {k};
    }
  }

  /** Once the star key has spread an object, a change elsewhere does not make the answer right. */
  lemma SpreadAnswer(m: Queries, eval: Eval, acc: map<string, Value>, k: string, q: Query, acc': map<string, Value>)
    requires k !in m && Answers(m, eval, Parsed(acc)) && Spreading(m, eval) && Evaluates(q, eval)
    requires STAR in acc' <==> STAR in acc
    requires STAR in acc ==> acc'[STAR] == acc[STAR]
    ensures Answers(m[k := q], eval, Parsed(acc'))
  {
    assert m[k := q][STAR] == m[STAR];
    assert !Regular(STAR, m[STAR], eval);
    assert MapShape(m[k := q], eval)[STAR] == Shape(m[STAR], eval);
  }

  lemma TextAnswer(k: string, text: string, eval: Eval)
    requires eval(text).Some?
    ensures Answers(map[k := Text(text)], eval, Parsed(Add(map[], k, eval(text).value)))
  {
    var m: Queries := map[k := Text(text)];
    assert m[k] == Text(text);
    var v := eval(text).value;
    assert MapShape(m, eval) == map[k := v];
    if k == STAR && v.Object? {
      assert map[] + v.fields == v.fields;
      if STAR in v.fields {
        assert v.fields[STAR] != v;
      }
    }
  }

  lemma NestedAnswer(k: string, inner: Queries, eval: Eval, f: map<string, Value>)
    requires Answers(inner, eval, Parsed(f))
    ensures Answers(map[k := Nested(inner)], eval, Parsed(if f == map[] then map[] else map[k := Object(f)]))
  {
    var m: Queries := map[k := Nested(inner)];
    assert m[k] == Nested(inner);
    assert Shape(Nested(inner), eval).fields == MapShape(inner, eval);
    assert MapShape(m, eval) == map[k := Object(MapShape(inner, eval))];
    var part: map<string, Value> := if f == map[] then map[] else map[k := Object(f)];
    assert Regular(k, Nested(inner), eval) <==> inner != map[] && MapRegular(inner, eval);
    if inner != map[] {
      var j :| j in inner;
      assert j in MapShape(inner, eval);
    }
    if part == MapShape(m, eval) {
      assert k in part;
      assert part[k] == Object(MapShape(inner, eval));
    }
  }

  lemma ManyAnswer(k: string, list: seq<Query>, eval: Eval, values: seq<Value>)
    requires |values| == |list|
    requires forall i :: 0 <= i < |list| ==> Evaluates(list[i], eval)
    requires forall i :: 0 <= i < |list| ==> (values[i] == Shape(list[i], eval) <==> Regular(k, list[i], eval))
    ensures Answers(map[k := Many(list)], eval, Parsed(map[k := List(values)]))
  {
    var m: Queries := map[k := Many(list)];
    assert m[k] == Many(list);
    assert MapShape(m, eval) == map[k := Shape(Many(list), eval)];
    if map[k := List(values)] == MapShape(m, eval) {
      assert map[k := List(values)][k] == Shape(Many(list), eval);
      forall i | 0 <= i < |list| ensures Regular(k, list[i], eval) {
        assert values[i] == Shape(list[i], eval);
      }
    }
    if Regular(k, Many(list), eval) {
      assert values == Shape(Many(list), eval).items;
    }
  }

  /** A failed or panicked answer for one query is one for every map that holds it. */
  lemma BadAnswerSpreads(m: Queries, eval: Eval, k: string, bad: Parsed)
    requires k in m && Answers(map[k := m[k]], eval, bad) && !bad.Parsed?
    ensures Answers(m, eval, bad)
  {
    assert map[k := m[k]][k] == m[k];
  }

  lemma SameQueries(done: Queries, m: Queries)
    requires m.Keys - done.Keys == {} && done.Keys <= m.Keys && forall k :: k in done ==> done[k] == m[k]
    ensures done == m
  {
    assert forall k :: k in m ==> k !in m.Keys - done.Keys;
  }

  method ParseText(k: string, text: string, eval: Eval) returns (r: Parsed)
    ensures !r.Panicked? && Answers(map[k := Text(text)], eval, r)
  {
    var queries := map[k := text];
    var result;
    ghost var order;
    result, order := ParseMapInterface(queries, eval);
    assert queries[k] == text;
    if result.None? {
      assert map[k := Text(text)][k] == Text(text);
      return Failed;
    }
    ghost var results := map[k := eval(text).value];
    assert Results(queries, eval) == results;
    ConfluentIffCompatible(results);
    TextAnswer(k, text, eval);
    assert Spread(results) + Explicit(results) == Add(map[], k, eval(text).value);
    return Parsed(result.value);
  }

  /** The results of a nested map, each key handled on its own. `existing` is what is stored where they go: anything but
      an object or null makes the first result panic. */
  method ParseNested(inner: Queries, eval: Eval, existing: Value, ghost height: nat) returns (r: Parsed)
    requires Below(inner, height)
    ensures Answers(inner, eval, r) || (r.Panicked? && !existing.Null? && !existing.Object?)
    decreases height, 2
  {
    var f: map<string, Value> := map[];
    var remaining := inner.Keys;
    ghost var done: Queries := map[];
    while remaining != {}
      invariant remaining == inner.Keys - done.Keys && done.Keys <= inner.Keys
      invariant forall k :: k in done ==> done[k] == inner[k]
      invariant Answers(done, eval, Parsed(f))
      decreases remaining
    {
      var k :| k in remaining;
      remaining := remaining - {k};
      assert map[k := inner[k]][k] == inner[k];
      var part := ParseMapRecursively(map[k := inner[k]], eval, height);
      if !part.Parsed? {
        BadAnswerSpreads(inner, eval, k, part);
        return part;
      }
      if part.value != map[] && !existing.Null? && !existing.Object? {
        return Panicked;
      }
      MergeAnswer(done, eval, f, k, inner[k], part.value);
      f := f + part.value;
      done := done[k := inner[k]];
    }
    SameQueries(done, inner);
    return Parsed(f);
  }

  method ParseMany(k: string, list: seq<Query>, eval: Eval, ghost height: nat) returns (r: Parsed)
    requires forall i :: 0 <= i < |list| ==> Height(list[i]) < height
    ensures Answers(map[k := Many(list)], eval, r)
    decreases height, 2
  {
    var values: seq<Value> := [];
    assert map[k := Many(list)][k] == Many(list);
    for i := 0 to |list|
      invariant |values| == i
      invariant forall j :: 0 <= j < i ==> Evaluates(list[j], eval)
      invariant forall j :: 0 <= j < i ==> (values[j] == Shape(list[j], eval) <==> Regular(k, list[j], eval))
    {
      assert map[k := list[i]][k] == list[i];
      var part := ParseMapRecursively(map[k := list[i]], eval, height);
      if !part.Parsed? {
        return part;
      }
      SingleAnswer(k, list[i], eval, part.value);
      values := values + [if k in part.value then part.value[k] else Null];
    }
    ManyAnswer(k, list, eval, values);
    return Parsed(map[k := List(values)]);
  }

  lemma NestedBelow(m: Queries, k: string, height: nat)
    requires Below(m, height) && k in m
    ensures m[k].Nested? ==> height > 0 && Below(m[k].queries, height - 1)
    ensures m[k].Many? ==> height > 0 && forall i :: 0 <= i < |m[k].list| ==> Height(m[k].list[i]) < height - 1
  {
    match m[k]
    case Nested(inner) =>
      var heights := set j | j in inner :: Height(inner[j]);
      assert Height(m[k]) == 1 + MaxOf(heights);
      forall j | j in inner ensures Height(inner[j]) < height - 1 {
        MaxOfBounds(heights, Height(inner[j]));
      }
    case Many(list) =>
      var heights := set i | 0 <= i < |list| :: Height(list[i]);
      assert Height(m[k]) == 1 + MaxOf(heights);
      forall i | 0 <= i < |list| ensures Height(list[i]) < height - 1 {
        MaxOfBounds(heights, Height(list[i]));
      }
    case _ =>
  }

  /** What an answer says: see `ParseMapRecursively`. */
  lemma AnswerMeaning(m: Queries, eval: Eval, r: Parsed)
    requires Answers(m, eval, r)
    ensures r.Panicked? ==> MapHazardous(m, eval)
    ensures MapRegular(m, eval) ==> !r.Panicked? && (r.Failed? <==> !MapEvaluates(m, eval))
    ensures MapRegular(m, eval) && MapEvaluates(m, eval) ==> r == Parsed(MapShape(m, eval))
    ensures !MapBroken(m, eval) && !MapEvaluates(m, eval) ==> r.Panicked?
  {
    forall k | k in m && Hazardous(k, m[k], eval) ensures !Regular(k, m[k], eval) {
      HazardousIsIrregular(k, m[k], eval);
    }
    forall k | k in m && Broken(m[k], eval) ensures !Evaluates(m[k], eval) {
      BrokenDoesNotEvaluate(m[k], eval);
    }
  }

  /** The queries of a map in any order. An answer has the structural shape exactly when the map is regular. For a
      regular map the call never panics, fails exactly when some text fails or some query is invalid, and keeps the
      shape. */
  method ParseMapRecursively(m: Queries, eval: Eval, ghost height: nat) returns (r: Parsed)
    requires Below(m, height)
    ensures Answers(m, eval, r)
    // it panics only over a null query or a star key that spreads an object
    ensures r.Panicked? ==> MapHazardous(m, eval)
    ensures MapRegular(m, eval) ==> !r.Panicked? && (r.Failed? <==> !MapEvaluates(m, eval))
    ensures MapRegular(m, eval) && MapEvaluates(m, eval) ==> r == Parsed(MapShape(m, eval))
    // what neither evaluates nor has a failing text or a query of the wrong kind has a null query, and panics
    ensures !MapBroken(m, eval) && !MapEvaluates(m, eval) ==> r.Panicked?
    decreases height, 1
  {
    var acc: map<string, Value> := map[];
    var remaining := m.Keys;
    ghost var done: Queries := map[];
    while remaining != {}
      invariant remaining == m.Keys - done.Keys && done.Keys <= m.Keys
      invariant forall k :: k in done ==> done[k] == m[k]
      invariant Answers(done, eval, Parsed(acc))
      decreases remaining
    {
      var k :| k in remaining;
      remaining := remaining - {k};
      NestedBelow(m, k, height);
      r := ParseEntry(k, m[k], eval, acc, done, height);
      if !r.Parsed? {
        BadEntrySpreads(m, eval, done, k, r);
        AnswerMeaning(m, eval, r);
        return;
      }
      acc := r.value;
      done := done[k := m[k]];
    }
    SameQueries(done, m);
    r := Parsed(acc);
    AnswerMeaning(m, eval, r);
  }

  lemma BadEntrySpreads(m: Queries, eval: Eval, done: Queries, k: string, bad: Parsed)
    requires k in m && k !in done && (forall j :: j in done ==> j in m && done[j] == m[j])
    requires Answers(done[k := m[k]], eval, bad) && !bad.Parsed?
    ensures Answers(m, eval, bad)
  {
    assert forall j :: j in done[k := m[k]] ==> j in m && done[k := m[k]][j] == m[j];
  }

  /** One query of a map, added to the answer for the queries done before. */
  method ParseEntry(k: string, q: Query, eval: Eval, acc: map<string, Value>, ghost done: Queries, ghost height: nat)
    returns (r: Parsed)
    requires k !in done && Answers(done, eval, Parsed(acc))
    requires Height(q) < height
    requires q.Nested? ==> Below(q.queries, height - 1)
    requires q.Many? ==> forall i :: 0 <= i < |q.list| ==> Height(q.list[i]) < height - 1
    ensures Answers(done[k := q], eval, r)
    decreases height, 0
  {
    ghost var single: Queries := map[k := q];
    assert single[k] == q && done[k := q][k] == q;
    match q
    case Invalid =>
      return Failed;
    case NoQuery =>
      return Panicked;
    case Text(text) =>
      var part := ParseText(k, text, eval);
      if part.Failed? {
        return Failed;
      }
      MergeAnswer(done, eval, acc, k, q, part.value);
      return Parsed(acc + part.value);
    case Many(list) =>
      var part := ParseMany(k, list, eval, height - 1);
      if !part.Parsed? {
        BadAnswerSpreads(done[k := q], eval, k, part);
        return part;
      }
      MergeAnswer(done, eval, acc, k, q, part.value);
      return Parsed(acc + part.value);
    case Nested(inner) =>
      var existing := if k in acc then acc[k] else Null;
      var sub := ParseNested(inner, eval, existing, height - 1);
      if !sub.Parsed? {
        NestedFails(done, eval, acc, k, inner, sub);
        return sub;
      }
      NestedAnswer(k, inner, eval, sub.value);
      if k in acc {
        var fields := (if existing.Object? then existing.fields else map[]) + sub.value;
        var acc' := if sub.value == map[] then acc else acc[k := Object(fields)];
        SpreadAnswer(done, eval, acc, k, q, acc');
        return Parsed(acc');
      }
      var part: map<string, Value> := if sub.value == map[] then map[] else map[k := Object(sub.value)];
      MergeAnswer(done, eval, acc, k, q, part);
      return Parsed(acc + part);
  }

  lemma NestedFails(done: Queries, eval: Eval, acc: map<string, Value>, k: string, inner: Queries, bad: Parsed)
    requires k !in done && Answers(done, eval, Parsed(acc)) && !bad.Parsed?
    requires Answers(inner, eval, bad) || (bad.Panicked? && k in acc)
    ensures Answers(done[k := Nested(inner)], eval, bad)
  {
    var m := done[k := Nested(inner)];
    assert m[k] == Nested(inner);
    if k in acc {
      assert Spreading(done, eval) && m[STAR] == done[STAR];
    }
  }
}
