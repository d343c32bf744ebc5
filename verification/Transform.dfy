/** Turning one cluster object into catalog entities for one kind configuration: list the objects to map, keep those
    that pass the selector, apply every mapping. */
module Transforms {
  import opened Basics
  import opened PortApi
  import opened JqMapping

  /** jq applied to a query and an object; it can fail. */
  type Jq = (string, Value) -> Option<Value>

  /** What one entity mapping makes of an object. */
  type Mapping = Value -> Option<EntityRequest>

  datatype Kind = Kind(selector: string, mappings: seq<Mapping>, itemsToParse: string, itemsToParseName: string)

  const TRUE: Value := Scalar(1)
  const FALSE: Value := Scalar(0)

  datatype TransformResult = TransformResult(entities: seq<EntityRequest>, excluded: seq<EntityRequest>)

  predicate SelectorWorks(jq: Jq, kind: Kind, o: Value) {
    kind.selector == "" || jq(kind.selector, o) == Some(TRUE) || jq(kind.selector, o) == Some(FALSE)
  }

  predicate Selected(jq: Jq, kind: Kind, o: Value) {
    kind.selector == "" || jq(kind.selector, o) == Some(TRUE)
  }

  predicate Mappable(mappings: seq<Mapping>, o: Value) {
    forall i :: 0 <= i < |mappings| ==> mappings[i](o).Some?
  }

  function Mapped(mappings: seq<Mapping>, o: Value): seq<EntityRequest>
    requires Mappable(mappings, o)
  {
    seq(|mappings|, i requires 0 <= i < |mappings| => mappings[i](o).value)
  }

  /** One object per item: the object itself with the item under the configured name. */
  function WithItems(o: Value, name: string, items: seq<Value>): seq<Value>
    requires o.Object?
  {
    seq(|items|, i requires 0 <= i < |items| => Object(o.fields[name := items[i]]))
  }

  function ItemName(kind: Kind): string {
    if kind.itemsToParseName == "" then "item" else kind.itemsToParseName
  }

  predicate Listable(jq: Jq, kind: Kind, o: Value) {
    kind.itemsToParse == "" || (o.Object? && jq(kind.itemsToParse, o).Some? && jq(kind.itemsToParse, o).value.List?)
  }

  function ObjectsToMap(jq: Jq, kind: Kind, o: Value): seq<Value>
    requires Listable(jq, kind, o)
  {
    if kind.itemsToParse == "" then [o] else WithItems(o, ItemName(kind), jq(kind.itemsToParse, o).value.items)
  }

  predicate ObjectWorks(jq: Jq, kind: Kind, o: Value) {
    SelectorWorks(jq, kind, o) && (Selected(jq, kind, o) ==> Mappable(kind.mappings, o))
  }

  predicate AllWork(jq: Jq, kind: Kind, objects: seq<Value>) {
    forall k :: 0 <= k < |objects| ==> ObjectWorks(jq, kind, objects[k])
  }

  predicate Transformable(jq: Jq, kind: Kind, obj: Option<Value>) {
    obj.Some? && Listable(jq, kind, obj.value) && AllWork(jq, kind, ObjectsToMap(jq, kind, obj.value))
  }

  /** The entities of the objects that pass the selector, in order. */
  function Matched(jq: Jq, kind: Kind, objects: seq<Value>): seq<EntityRequest>
    requires AllWork(jq, kind, objects)
  {
    if objects == [] then []
    else
      var o := objects[|objects| - 1];
      Matched(jq, kind, objects[..|objects| - 1]) + if Selected(jq, kind, o) then Mapped(kind.mappings, o) else []
  }

  /** The entities of the objects that do not pass it, as far as they can be mapped. */
  function Excluded(jq: Jq, kind: Kind, objects: seq<Value>): seq<EntityRequest> {
    if objects == [] then []
    else
      var o := objects[|objects| - 1];
      Excluded(jq, kind, objects[..|objects| - 1])
      + if !Selected(jq, kind, o) && Mappable(kind.mappings, o) then Mapped(kind.mappings, o) else []
  }

  function MatchedEntities(jq: Jq, kind: Kind, obj: Option<Value>): seq<EntityRequest>
    requires Transformable(jq, kind, obj)
  {
    Matched(jq, kind, ObjectsToMap(jq, kind, obj.value))
  }

  method IsPassSelector(jq: Jq, kind: Kind, o: Value) returns (r: Option<bool>)
    ensures r.Some? <==> SelectorWorks(jq, kind, o)
    ensures r.Some? ==> r.value == Selected(jq, kind, o)
    // a query that fails or gives anything but a boolean has no answer
    ensures r.None? <==> kind.selector != "" && jq(kind.selector, o) !in [Some(TRUE), Some(FALSE)]
    ensures r == Some(true) <==> kind.selector == "" || jq(kind.selector, o) == Some(TRUE)
  {
    if kind.selector == "" {
      return Some(true);
    }
    var result := jq(kind.selector, o);
    if result.None? || (result.value != TRUE && result.value != FALSE) {
      return None;
    }
    return Some(result.value == TRUE);
  }

  method MapEntities(mappings: seq<Mapping>, o: Value) returns (r: Option<seq<EntityRequest>>)
    ensures r.Some? <==> Mappable(mappings, o)
    ensures r.Some? ==> r.value == Mapped(mappings, o)
  {
    var entities := [];
    for i := 0 to |mappings|
      invariant |entities| == i
      invariant forall k :: 0 <= k < i ==> mappings[k](o) == Some(entities[k])
    {
      var e := mappings[i](o);
      if e.None? {
        return None;
      }
      entities := entities + [e.value];
    }
    return Some(entities);
  }

  /** The copy is the object itself but for the one key under which it holds the item. */
  ghost predicate HoldsItem(copy: Value, o: Value, key: string, item: Value) {
    && o.Object? && copy.Object?
    && (forall k :: k in copy.fields <==> k in o.fields || k == key)
    && (forall k :: k in copy.fields ==> copy.fields[k] == if k == key then item else o.fields[k])
  }

  method ListObjects(jq: Jq, kind: Kind, o: Value) returns (r: Option<seq<Value>>)
    ensures r.Some? <==> Listable(jq, kind, o)
    ensures r.Some? ==> r.value == ObjectsToMap(jq, kind, o)
    // a query that fails or gives no list is an error, and so is an object that cannot be copied
    ensures r.None? <==> kind.itemsToParse != ""
                         && (!o.Object? || jq(kind.itemsToParse, o).None? || !jq(kind.itemsToParse, o).value.List?)
    // nothing to list, or one copy for each listed item, in order
    ensures r.Some? && kind.itemsToParse == "" ==> r.value == [o]
    ensures r.Some? && kind.itemsToParse != "" ==>
              var items := jq(kind.itemsToParse, o).value.items;
              var key := if kind.itemsToParseName == "" then "item" else kind.itemsToParseName;
              |r.value| == |items| && forall i :: 0 <= i < |items| ==> HoldsItem(r.value[i], o, key, items[i])
  {
    if kind.itemsToParse == "" {
      return Some([o]);
    }
    var found := jq(kind.itemsToParse, o);
    if found.None? || !found.value.List? || !o.Object? {
      return None;
    }
    var items := found.value.items;
    var objects := [];
    for i := 0 to |items|
      invariant objects == WithItems(o, ItemName(kind), items[..i])
    {
      objects := objects + [Object(o.fields[ItemName(kind) := items[i]])];
    }
    assert items[..|items|] == items;
    return Some(objects);
  }

  /** One object more. */
  lemma {:induction false} TransformSnoc(jq: Jq, kind: Kind, objects: seq<Value>, n: nat)
    requires n < |objects|
    ensures AllWork(jq, kind, objects[..n + 1])
        <==> AllWork(jq, kind, objects[..n]) && ObjectWorks(jq, kind, objects[n])
    ensures AllWork(jq, kind, objects[..n + 1]) && Selected(jq, kind, objects[n])
        ==> Matched(jq, kind, objects[..n + 1]) == Matched(jq, kind, objects[..n]) + Mapped(kind.mappings, objects[n])
    ensures AllWork(jq, kind, objects[..n + 1]) && !Selected(jq, kind, objects[n])
        ==> Matched(jq, kind, objects[..n + 1]) == Matched(jq, kind, objects[..n])
    ensures !Selected(jq, kind, objects[n]) && Mappable(kind.mappings, objects[n])
        ==> Excluded(jq, kind, objects[..n + 1]) == Excluded(jq, kind, objects[..n]) + Mapped(kind.mappings, objects[n])
    ensures Selected(jq, kind, objects[n]) || !Mappable(kind.mappings, objects[n])
        ==> Excluded(jq, kind, objects[..n + 1]) == Excluded(jq, kind, objects[..n])
  {
    assert objects[..n + 1][..n] == objects[..n];
    assert objects[..n + 1] == objects[..n] + [objects[n]];
  }

  /** No entities at all when the object cannot be listed, a selector fails or a selected object cannot be mapped; a
      mapping that fails on an excluded object is passed over. */
  method GetObjectEntities(jq: Jq, kind: Kind, obj: Option<Value>) returns (r: Option<TransformResult>)
    ensures r.Some? <==> Transformable(jq, kind, obj)
    ensures r.Some? ==> r.value.entities == MatchedEntities(jq, kind, obj)
    ensures r.Some? ==> r.value.excluded == Excluded(jq, kind, ObjectsToMap(jq, kind, obj.value))
  {
    if obj.None? {
      return None;
    }
    var listed := ListObjects(jq, kind, obj.value);
    if listed.None? {
      return None;
    }
    var objects := listed.value;
    var entities, excluded := [], [];
    for i := 0 to |objects|
      invariant AllWork(jq, kind, objects[..i])
      invariant entities == Matched(jq, kind, objects[..i])
      invariant excluded == Excluded(jq, kind, objects[..i])
    {
      TransformSnoc(jq, kind, objects, i);
      var selected := IsPassSelector(jq, kind, objects[i]);
      if selected.None? {
        assert !ObjectWorks(jq, kind, objects[i]);
        return None;
      }
      var current := MapEntities(kind.mappings, objects[i]);
      if !selected.value {
        if current.Some? {
          excluded := excluded + current.value;
        }
        continue;
      }
      if current.None? {
        assert !ObjectWorks(jq, kind, objects[i]);
        return None;
      }
      entities := entities + current.value;
    }
    assert objects[..|objects|] == objects;
    return Some(TransformResult(entities, excluded));
  }

  /** There is no selector, or it gives true. */
  ghost predicate Passes(jq: Jq, kind: Kind, o: Value) {
    kind.selector == "" || (jq(kind.selector, o).Some? && jq(kind.selector, o).value == TRUE)
  }

  ghost predicate MadeFrom(jq: Jq, kind: Kind, objects: seq<Value>, e: EntityRequest, k: nat, i: nat) {
    k < |objects| && i < |kind.mappings| && Passes(jq, kind, objects[k]) && kind.mappings[i](objects[k]) == Some(e)
  }

  /** The k-th object does not pass the selector, but all mappings work on it, and the i-th makes the entity. */
  ghost predicate LeftOut(jq: Jq, kind: Kind, objects: seq<Value>, e: EntityRequest, k: nat, i: nat) {
    && k < |objects| && i < |kind.mappings| && !Passes(jq, kind, objects[k])
    && (forall j :: 0 <= j < |kind.mappings| ==> kind.mappings[j](objects[k]).Some?)
    && kind.mappings[i](objects[k]) == Some(e)
  }

  lemma LastMade(jq: Jq, kind: Kind, objects: seq<Value>, e: EntityRequest)
    requires AllWork(jq, kind, objects) && objects != []
    ensures var n := |objects| - 1;
            e in Matched(jq, kind, objects)
            <==> e in Matched(jq, kind, objects[..n]) || exists i :: MadeFrom(jq, kind, objects, e, n, i)
  {
    var n := |objects| - 1;
    var o := objects[n];
    if Selected(jq, kind, o) && e in Mapped(kind.mappings, o) {
      var i: nat :| i < |kind.mappings| && Mapped(kind.mappings, o)[i] == e;
      assert MadeFrom(jq, kind, objects, e, n, i);
    }
    if i: nat :| MadeFrom(jq, kind, objects, e, n, i) {
      assert Mapped(kind.mappings, o)[i] == e;
    }
  }

  /** An entity is produced exactly when some mapping makes it from some object that passes the selector. */
  lemma {:induction false} MatchedMeaning(jq: Jq, kind: Kind, objects: seq<Value>, e: EntityRequest)
    requires AllWork(jq, kind, objects)
    ensures e in Matched(jq, kind, objects) <==> exists k, i :: MadeFrom(jq, kind, objects, e, k, i)
  {
    hide ObjectWorks, Mapped;
    if objects != [] {
      var n := |objects| - 1;
      MatchedMeaning(jq, kind, objects[..n], e);
      LastMade(jq, kind, objects, e);
      if k: nat, i: nat :| MadeFrom(jq, kind, objects[..n], e, k, i) {
        assert MadeFrom(jq, kind, objects, e, k, i);
      }
      if k: nat, i: nat :| MadeFrom(jq, kind, objects, e, k, i) {
        assert k < n ==> MadeFrom(jq, kind, objects[..n], e, k, i);
      }
    }
  }

  lemma LastLeftOut(jq: Jq, kind: Kind, objects: seq<Value>, e: EntityRequest)
    requires objects != []
    ensures var n := |objects| - 1;
            e in Excluded(jq, kind, objects)
            <==> e in Excluded(jq, kind, objects[..n]) || exists i :: LeftOut(jq, kind, objects, e, n, i)
  {
    var n := |objects| - 1;
    var o := objects[n];
    if !Selected(jq, kind, o) && Mappable(kind.mappings, o) && e in Mapped(kind.mappings, o) {
      var i: nat :| i < |kind.mappings| && Mapped(kind.mappings, o)[i] == e;
      assert LeftOut(jq, kind, objects, e, n, i);
    }
    if i: nat :| LeftOut(jq, kind, objects, e, n, i) {
      assert Mapped(kind.mappings, o)[i] == e;
    }
  }

  /** The entities to clean up are exactly those that the mappings make from objects that do not pass. */
  lemma {:induction false} ExcludedMeaning(jq: Jq, kind: Kind, objects: seq<Value>, e: EntityRequest)
    ensures e in Excluded(jq, kind, objects) <==> exists k, i :: LeftOut(jq, kind, objects, e, k, i)
  {
    if objects != [] {
      var n := |objects| - 1;
      ExcludedMeaning(jq, kind, objects[..n], e);
      LastLeftOut(jq, kind, objects, e);
      if k: nat, i: nat :| LeftOut(jq, kind, objects[..n], e, k, i) {
        assert LeftOut(jq, kind, objects, e, k, i);
      }
      if k: nat, i: nat :| LeftOut(jq, kind, objects, e, k, i) {
        assert k < n ==> LeftOut(jq, kind, objects[..n], e, k, i);
      }
    }
  }

  /** The entities come in the order of the objects, and those of one object in the order of the mappings. */
  lemma {:induction false} MatchedInOrder(jq: Jq, kind: Kind, first: seq<Value>, o: Value, rest: seq<Value>)
    requires AllWork(jq, kind, first + [o] + rest) && Passes(jq, kind, o)
    ensures AllWork(jq, kind, first) && AllWork(jq, kind, rest)
    ensures var before, all := |Matched(jq, kind, first)|, Matched(jq, kind, first + [o] + rest);
            && |all| == before + |kind.mappings| + |Matched(jq, kind, rest)|
            && all[..before] == Matched(jq, kind, first)
            && (forall i :: 0 <= i < |kind.mappings| ==> Some(all[before + i]) == kind.mappings[i](o))
            && all[before + |kind.mappings|..] == Matched(jq, kind, rest)
  {
    Parts(jq, kind, first, o, rest);
    hide ObjectWorks;
    MatchedAppend(jq, kind, first + [o], rest);
    MatchedAppend(jq, kind, first, [o]);
    assert [o][..0] == [];
    assert Matched(jq, kind, [o]) == [] + Mapped(kind.mappings, o);
  }

  lemma Parts(jq: Jq, kind: Kind, first: seq<Value>, o: Value, rest: seq<Value>)
    requires AllWork(jq, kind, first + [o] + rest)
    ensures AllWork(jq, kind, first) && AllWork(jq, kind, [o]) && AllWork(jq, kind, rest)
    ensures AllWork(jq, kind, first + [o])
  {
    var all := first + [o] + rest;
    assert all[|first|] == o;
    assert forall k :: 0 <= k < |first| ==> all[k] == first[k];
    assert forall k :: 0 <= k < |rest| ==> all[|first| + 1 + k] == rest[k];
  }

  lemma {:induction false} MatchedAppend(jq: Jq, kind: Kind, a: seq<Value>, b: seq<Value>)
    requires AllWork(jq, kind, a) && AllWork(jq, kind, b)
    ensures AllWork(jq, kind, a + b)
    ensures Matched(jq, kind, a + b) == Matched(jq, kind, a) + Matched(jq, kind, b)
  {
    hide Mapped;
    if b == [] {
      assert a + b == a;
    } else {
      var n := |b| - 1;
      MatchedAppend(jq, kind, a, b[..n]);
      assert (a + b)[..|a| + n] == a + b[..n] && (a + b)[|a| + n] == b[n];
      var last := if Selected(jq, kind, b[n]) then Mapped(kind.mappings, b[n]) else [];
      Regroup(Matched(jq, kind, a), Matched(jq, kind, b[..n]), last);
    }
  }

  lemma Regroup<T>(a: seq<T>, b: seq<T>, c: seq<T>)
    ensures a + b + c == a + (b + c)
  {
  }

  /** What the mappings do on excluded objects changes neither success nor the entities. */
  lemma {:induction false} ExcludedObjectsHarmless(jq: Jq, kind: Kind, other: seq<Mapping>, objects: seq<Value>)
    requires |other| == |kind.mappings|
    requires forall k, i :: 0 <= k < |objects| && Selected(jq, kind, objects[k]) && 0 <= i < |other|
                            ==> other[i](objects[k]) == kind.mappings[i](objects[k])
    ensures AllWork(jq, kind, objects) <==> AllWork(jq, kind.(mappings := other), objects)
    ensures AllWork(jq, kind, objects) ==> Matched(jq, kind, objects) == Matched(jq, kind.(mappings := other), objects)
  {
    var kind' := kind.(mappings := other);
    forall k | 0 <= k < |objects| ensures ObjectWorks(jq, kind, objects[k]) <==> ObjectWorks(jq, kind', objects[k]) {
      assert Selected(jq, kind, objects[k]) <==> Selected(jq, kind', objects[k]);
    }
    if objects != [] && AllWork(jq, kind, objects) {
      var n := |objects| - 1;
      ExcludedObjectsHarmless(jq, kind, other, objects[..n]);
      if Selected(jq, kind, objects[n]) {
        assert Mapped(kind.mappings, objects[n]) == Mapped(other, objects[n]);
      }
    }
  }
}
