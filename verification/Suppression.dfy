/** Deciding whether an update event is worth sending: the entities before and after are compared by hash. */
module Suppression {
  import opened Basics
  import opened PortApi
  import opened JqMapping
  import opened Transforms

  type Bytes = seq<bv8>

  /** The JSON form of an entity; encoding can fail. */
  type Encode = EntityRequest -> Option<Bytes>

  const OFFSET_64: bv64 := 14695981039346656037

  /** How a running hash takes in one byte. */
  type Mix = (bv64, bv8) -> bv64

  function Mask(h: bv64, b: bv8): bv64 { h ^ (b as bv64) }

  /** The prime of the 64-bit variant is written out: the solver multiplies by literals only. */
  function TimesPrime(h: bv64): bv64 { h * 1099511628211 }

  /** The 64-bit FNV-1a step. */
  function Fnv1a(h: bv64, b: bv8): bv64 { TimesPrime(Mask(h, b)) }

  function HashFrom(mix: Mix, h: bv64, bytes: Bytes): bv64 {
    if bytes == [] then h else mix(HashFrom(mix, h, bytes[..|bytes| - 1]), bytes[|bytes| - 1])
  }

  predicate Encodable(encode: Encode, entities: seq<EntityRequest>) {
    forall i :: 0 <= i < |entities| ==> encode(entities[i]).Some?
  }

  /** The encodings one after the other, without separators. */
  function Stream(encode: Encode, entities: seq<EntityRequest>): Bytes
    requires Encodable(encode, entities)
  {
    if entities == [] then [] else encode(entities[0]).value + Stream(encode, entities[1..])
  }

  lemma {:induction false} StreamSnoc(encode: Encode, entities: seq<EntityRequest>, e: EntityRequest)
    requires Encodable(encode, entities) && encode(e).Some?
    ensures Stream(encode, entities + [e]) == Stream(encode, entities) + encode(e).value
  {
    if entities == [] {
      assert ([] + [e])[1..] == [];
    } else {
      StreamSnoc(encode, entities[1..], e);
      assert (entities + [e])[1..] == entities[1..] + [e];
    }
  }

  lemma {:induction false} HashAppend(mix: Mix, h: bv64, a: Bytes, b: Bytes)
    ensures HashFrom(mix, h, a + b) == HashFrom(mix, HashFrom(mix, h, a), b)
  {
    if b == [] {
      assert a + b == a;
    } else {
      HashAppend(mix, h, a, b[..|b| - 1]);
      assert (a + b)[..|a + b| - 1] == a + b[..|b| - 1];
    }
  }

  // ---- the hash step ----

  function Undone(product: bv64): bv64 { product * 0xce965057aff6957b }

  /** Multiplication by the prime can be undone: it is odd. */
  lemma ProductUndone(h: bv64)
    ensures Undone(h * 1099511628211) == h
  {
  }

  lemma IsProduct(h: bv64)
    ensures TimesPrime(h) == h * 1099511628211
  {
  }

  lemma PrimeUndone(h: bv64)
    ensures Undone(TimesPrime(h)) == h
  {
    hide TimesPrime, Undone;
    IsProduct(h);
    ProductUndone(h);
  }

  lemma MaskSeparatesBytes(h: bv64, b: bv8, c: bv8)
    requires Mask(h, b) == Mask(h, c)
    ensures b == c
  {
  }

  lemma MaskSeparatesStates(h: bv64, g: bv64, b: bv8)
    requires Mask(h, b) == Mask(g, b)
    ensures h == g
  {
  }

  /** The step separates bytes: from one running value it never takes two bytes to the same. */
  lemma StepSeparatesBytes(h: bv64, b: bv8, c: bv8)
    requires Fnv1a(h, b) == Fnv1a(h, c)
    ensures b == c
  {
    hide TimesPrime, Undone, Mask;
    PrimeUndone(Mask(h, b));
    PrimeUndone(Mask(h, c));
    MaskSeparatesBytes(h, b, c);
  }

  /** And with one byte it never takes two running values to the same. */
  lemma StepSeparatesStates(h: bv64, g: bv64, b: bv8)
    requires Fnv1a(h, b) == Fnv1a(g, b)
    ensures h == g
  {
    hide TimesPrime, Undone, Mask;
    PrimeUndone(Mask(h, b));
    PrimeUndone(Mask(g, b));
    MaskSeparatesStates(h, g, b);
  }

  lemma {:induction false} StatesStayApart(h: bv64, g: bv64, bytes: Bytes)
    ensures HashFrom(Fnv1a, h, bytes) == HashFrom(Fnv1a, g, bytes) <==> h == g
  {
    if bytes != [] {
      var k := |bytes| - 1;
      var x, y := HashFrom(Fnv1a, h, bytes[..k]), HashFrom(Fnv1a, g, bytes[..k]);
      StatesStayApart(h, g, bytes[..k]);
      if Fnv1a(x, bytes[k]) == Fnv1a(y, bytes[k]) {
        StepSeparatesStates(x, y, bytes[k]);
      }
    }
  }

  /** Streams that differ in a single byte, at any place, never hash alike. */
  lemma OneByteIsSeen(h: bv64, before: Bytes, b: bv8, c: bv8, after: Bytes)
    requires b != c
    ensures HashFrom(Fnv1a, h, before + [b] + after) != HashFrom(Fnv1a, h, before + [c] + after)
  {
    var mid := HashFrom(Fnv1a, h, before);
    HashAppend(Fnv1a, h, before + [b], after);
    HashAppend(Fnv1a, h, before + [c], after);
    assert (before + [b])[..|before|] == before && (before + [c])[..|before|] == before;
    if Fnv1a(mid, b) == Fnv1a(mid, c) {
      StepSeparatesBytes(mid, b, c);
    }
    StatesStayApart(Fnv1a(mid, b), Fnv1a(mid, c), after);
  }

  /** The published value for the one-letter text "a". */
  lemma HashOfA()
    ensures HashFrom(Fnv1a, OFFSET_64, [0x61]) == 0xaf63dc4c8601ec8c
  {
    assert [0x61 as bv8][..0] == [];
    assert HashFrom(Fnv1a, OFFSET_64, [0x61]) == Fnv1a(OFFSET_64, 0x61);
  }

  /** Feeds bytes to the running hash. */
  method Write(mix: Mix, h: bv64, bytes: Bytes) returns (r: bv64)
    ensures r == HashFrom(mix, h, bytes)
  {
    r := h;
    for i := 0 to |bytes|
      invariant r == HashFrom(mix, h, bytes[..i])
    {
      r := mix(r, bytes[i]);
      assert bytes[..i + 1][..i] == bytes[..i];
    }
    assert bytes[..|bytes|] == bytes;
  }

  method HashAllEntities(mix: Mix, encode: Encode, entities: seq<EntityRequest>) returns (r: Option<bv64>)
    ensures r.Some? <==> Encodable(encode, entities)
    ensures r.Some? ==> r.value == HashFrom(mix, OFFSET_64, Stream(encode, entities))
  {
    var h := OFFSET_64;
    for i := 0 to |entities|
      invariant Encodable(encode, entities[..i])
      invariant h == HashFrom(mix, OFFSET_64, Stream(encode, entities[..i]))
    {
      var bytes := encode(entities[i]);
      if bytes.None? {
        return None;
      }
      h := Write(mix, h, bytes.value);
      HashAppend(mix, OFFSET_64, Stream(encode, entities[..i]), bytes.value);
      StreamSnoc(encode, entities[..i], entities[i]);
      assert entities[..i + 1] == entities[..i] + [entities[i]];
    }
    assert entities[..|entities|] == entities;
    return Some(h);
  }

  /** Both versions of the object can be mapped and encoded for one kind configuration. */
  ghost predicate Comparable(jq: Jq, kind: Kind, encode: Encode, before: Option<Value>, after: Option<Value>) {
    && Transformable(jq, kind, before) && Transformable(jq, kind, after)
    && Encodable(encode, MatchedEntities(jq, kind, before)) && Encodable(encode, MatchedEntities(jq, kind, after))
  }

  ghost predicate LooksSame(jq: Jq, kind: Kind, encode: Encode, before: Option<Value>, after: Option<Value>) {
    && Comparable(jq, kind, encode, before, after)
    && HashFrom(Fnv1a, OFFSET_64, Stream(encode, MatchedEntities(jq, kind, before)))
    == HashFrom(Fnv1a, OFFSET_64, Stream(encode, MatchedEntities(jq, kind, after)))
  }

  method KindDiffers(jq: Jq, kind: Kind, encode: Encode, before: Option<Value>, after: Option<Value>)
    returns (differs: bool)
    ensures differs <==> !LooksSame(jq, kind, encode, before, after)
  {
    var oldResult := GetObjectEntities(jq, kind, before);
    if oldResult.None? {
      return true;
    }
    var newResult := GetObjectEntities(jq, kind, after);
    if newResult.None? {
      return true;
    }
    var oldHash := HashAllEntities(Fnv1a, encode, oldResult.value.entities);
    if oldHash.None? {
      return true;
    }
    var newHash := HashAllEntities(Fnv1a, encode, newResult.value.entities);
    if newHash.None? {
      return true;
    }
    return oldHash.value != newHash.value;
  }

  method ShouldSendUpdateEvent(jq: Jq, kinds: seq<Kind>, encode: Encode, before: Option<Value>, after: Option<Value>,
                               onlyOnDiff: bool)
    returns (send: bool)
    ensures !send <==> onlyOnDiff && forall i :: 0 <= i < |kinds| ==> LooksSame(jq, kinds[i], encode, before, after)
  {
    if !onlyOnDiff {
      return true;
    }
    for i := 0 to |kinds|
      invariant forall k :: 0 <= k < i ==> LooksSame(jq, kinds[k], encode, before, after)
    {
      var differs := KindDiffers(jq, kinds[i], encode, before, after);
      if differs {
        return true;
      }
    }
    return false;
  }

  /** An update that changes one byte of what is encoded is sent, without any assumption about collisions. */
  lemma OneByteIsSent(jq: Jq, kinds: seq<Kind>, encode: Encode, before: Option<Value>, after: Option<Value>, i: nat,
                      first: Bytes, b: bv8, c: bv8, rest: Bytes)
    requires i < |kinds| && Comparable(jq, kinds[i], encode, before, after) && b != c
    requires Stream(encode, MatchedEntities(jq, kinds[i], before)) == first + [b] + rest
    requires Stream(encode, MatchedEntities(jq, kinds[i], after)) == first + [c] + rest
    ensures exists k :: 0 <= k < |kinds| && !LooksSame(jq, kinds[k], encode, before, after)
  {
    OneByteIsSeen(OFFSET_64, first, b, c, rest);
    assert !LooksSame(jq, kinds[i], encode, before, after);
  }

  /** No encoding is empty or begins another entity's encoding, as for JSON objects. */
  ghost predicate SelfDelimiting(encode: Encode) {
    && (forall x :: encode(x).Some? ==> encode(x).value != [])
    && forall x, y :: encode(x).Some? && encode(y).Some? && encode(x).value <= encode(y).value ==> x == y
  }

  /** Of two lists with the same bytes the first entities agree, and so do the bytes of the rest. */
  lemma {:induction false} FirstAgrees(encode: Encode, a: seq<EntityRequest>, b: seq<EntityRequest>)
    requires SelfDelimiting(encode) && Encodable(encode, a) && Encodable(encode, b)
    requires a != [] && b != [] && Stream(encode, a) == Stream(encode, b)
    ensures a[0] == b[0] && Stream(encode, a[1..]) == Stream(encode, b[1..])
  {
    var x, y := encode(a[0]).value, encode(b[0]).value;
    var whole := Stream(encode, a);
    assert whole[..|x|] == x && whole[..|y|] == y;
    assert x <= y || y <= x;
    assert whole[|x|..] == Stream(encode, a[1..]) && whole[|y|..] == Stream(encode, b[1..]);
  }

  /** The bytes of a list of entities determine the list. */
  lemma {:induction false} StreamInjective(encode: Encode, a: seq<EntityRequest>, b: seq<EntityRequest>)
    requires SelfDelimiting(encode) && Encodable(encode, a) && Encodable(encode, b)
    requires Stream(encode, a) == Stream(encode, b)
    ensures a == b
  {
    if a != [] && b != [] {
      FirstAgrees(encode, a, b);
      StreamInjective(encode, a[1..], b[1..]);
    }
  }

  /** The two versions' byte streams for one kind configuration do not happen to hash alike while they differ. */
  ghost predicate NoCollision(jq: Jq, kind: Kind, encode: Encode, before: Option<Value>, after: Option<Value>)
    requires Comparable(jq, kind, encode, before, after)
  {
    var x, y := Stream(encode, MatchedEntities(jq, kind, before)), Stream(encode, MatchedEntities(jq, kind, after));
    HashFrom(Fnv1a, OFFSET_64, x) == HashFrom(Fnv1a, OFFSET_64, y) ==> x == y
  }

  ghost predicate MapsAlike(jq: Jq, kind: Kind, encode: Encode, before: Option<Value>, after: Option<Value>) {
    Comparable(jq, kind, encode, before, after) && MatchedEntities(jq, kind, before) == MatchedEntities(jq, kind, after)
  }

  /** An update is held back exactly when both versions map to the same list of entities, for every kind configuration.
      Whatever fails on the way makes it go out. */
  lemma {:induction false} HeldBackIffEqual(jq: Jq, kinds: seq<Kind>, encode: Encode, before: Option<Value>,
                                            after: Option<Value>)
    requires SelfDelimiting(encode)
    requires forall i :: 0 <= i < |kinds| && Comparable(jq, kinds[i], encode, before, after)
                         ==> NoCollision(jq, kinds[i], encode, before, after)
    ensures (forall i :: 0 <= i < |kinds| ==> LooksSame(jq, kinds[i], encode, before, after))
        <==> forall i :: 0 <= i < |kinds| ==> MapsAlike(jq, kinds[i], encode, before, after)
  {
    forall i | 0 <= i < |kinds|
      ensures LooksSame(jq, kinds[i], encode, before, after) <==> MapsAlike(jq, kinds[i], encode, before, after)
    {
      SameIffEqual(jq, kinds[i], encode, before, after);
    }
  }

  lemma {:induction false} SameIffEqual(jq: Jq, kind: Kind, encode: Encode, before: Option<Value>, after: Option<Value>)
    requires SelfDelimiting(encode)
    requires Comparable(jq, kind, encode, before, after) ==> NoCollision(jq, kind, encode, before, after)
    ensures LooksSame(jq, kind, encode, before, after)
        <==> MapsAlike(jq, kind, encode, before, after)
  {
    if LooksSame(jq, kind, encode, before, after) {
      assert Comparable(jq, kind, encode, before, after);
      StreamInjective(encode, MatchedEntities(jq, kind, before), MatchedEntities(jq, kind, after));
    }
  }

  /** So an object that stops producing an entity is always noticed, and the entity's cleanup is queued. */
  lemma {:induction false} LostEntityIsSent(jq: Jq, kinds: seq<Kind>, encode: Encode, before: Option<Value>,
                                            after: Option<Value>,
                                            i: nat, e: EntityRequest)
    requires i < |kinds| && SelfDelimiting(encode)
    requires Comparable(jq, kinds[i], encode, before, after) ==> NoCollision(jq, kinds[i], encode, before, after)
    requires Transformable(jq, kinds[i], before) && e in MatchedEntities(jq, kinds[i], before)
    requires Transformable(jq, kinds[i], after) ==> e !in MatchedEntities(jq, kinds[i], after)
    ensures exists k :: 0 <= k < |kinds| && !LooksSame(jq, kinds[k], encode, before, after)
  {
    SameIffEqual(jq, kinds[i], encode, before, after);
    assert !LooksSame(jq, kinds[i], encode, before, after);
  }
}
