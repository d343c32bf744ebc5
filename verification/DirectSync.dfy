/** Syncing one object directly, entity by entity, and how the batched sync compares with it. */
module DirectSync {
  import opened Basics
  import opened PortApi
  import opened BatchCollectors
  import opened SyncCoverage
  import opened InitialSync

  /** What mapping an object for one kind configuration gives, and whether deleting the excluded entities fails. */
  datatype Transform = Failed | Produced(entities: seq<EntityRequest>, excluded: seq<EntityRequest>)

  function KeysOf(entities: seq<EntityRequest>): set<string> {
    set e | e in entities :: RequestKey(e)
  }

  /** The keys of everything an object maps to, over all kind configurations. */
  function DirectKeys(kinds: seq<Transform>): set<string> {
    set i, e | 0 <= i < |kinds| && kinds[i].Produced? && e in kinds[i].entities :: RequestKey(e)
  }

  /** How many single upserts the kind configurations ask for. */
  function CallsFor(kinds: seq<Transform>, action: EventAction): nat {
    if kinds == [] then 0
    else
      var last := kinds[|kinds| - 1];
      CallsFor(kinds[..|kinds| - 1], action) + if last.Produced? && !action.DeleteAction? then |last.entities| else 0
  }

  /** The server accepts each of the entities, the requests being the n-th and following ones. */
  predicate AllUpserted(server: Server, n: nat, entities: seq<EntityRequest>) {
    forall i :: 0 <= i < |entities| ==> server.upsert(n + i, entities[i]).Some?
  }

  /** What the i-th kind configuration asks of the server is done: upserts unless the object is gone, and deletions
      unless it is new. */
  predicate Handled(server: Server, n: nat, kind: Transform, i: nat, action: EventAction, deletes: nat -> bool)
    requires kind.Produced?
  {
    (!action.DeleteAction? ==> AllUpserted(server, n, kind.entities)) && (!action.CreateAction? ==> deletes(i))
  }

  predicate Succeeds(server: Server, n: nat, kinds: seq<Transform>, i: nat, action: EventAction, deletes: nat -> bool)
    requires i < |kinds|
  {
    kinds[i].Produced? && Handled(server, n + CallsFor(kinds[..i], action), kinds[i], i, action, deletes)
  }

  predicate Fails(server: Server, n: nat, kinds: seq<Transform>, i: nat, action: EventAction, deletes: nat -> bool)
    requires i < |kinds|
  {
    kinds[i].Produced? && !Handled(server, n + CallsFor(kinds[..i], action), kinds[i], i, action, deletes)
  }

  /** So there is a result exactly when no mapping fails, the entities of a new or changed object are all stored, and
      what a changed or deleted object no longer has is deleted. */
  lemma SucceedsIff(server: Server, n: nat, kinds: seq<Transform>, action: EventAction, deletes: nat -> bool)
    ensures (forall i :: 0 <= i < |kinds| ==> Succeeds(server, n, kinds, i, action, deletes))
        <==> && (forall i :: 0 <= i < |kinds| ==> kinds[i].Produced?)
             && (action != CreateAction ==> forall i :: 0 <= i < |kinds| ==> deletes(i))
             && (action != DeleteAction ==>
                   forall i, k :: 0 <= i < |kinds| && kinds[i].Produced? && 0 <= k < |kinds[i].entities| ==>
                     server.upsert(n + CallsFor(kinds[..i], action) + k, kinds[i].entities[k]).Some?)
  {
    if forall i :: 0 <= i < |kinds| ==> Succeeds(server, n, kinds, i, action, deletes) {
      forall i | 0 <= i < |kinds|
        ensures kinds[i].Produced? && (action != CreateAction ==> deletes(i))
        ensures action != DeleteAction ==> AllUpserted(server, n + CallsFor(kinds[..i], action), kinds[i].entities)
      {
        assert Succeeds(server, n, kinds, i, action, deletes);
      }
    }
  }

  /** Creates, updates or deletes the entities of one object. There is an entity set exactly when no mapping fails and
      every upsert and deletion made succeeds, and an error exactly when one of those requests fails; a failure does not
      keep the others from being made. `deletes` answers the deletion of the i-th kind configuration's entities. */
  method ObjectHandler(port: PortClient, kinds: seq<Transform>, action: EventAction, deletes: nat -> bool)
    returns (entities: Option<set<string>>, failed: bool)
    requires Honest(port.server)
    modifies port
    ensures entities.Some? <==>
              forall i :: 0 <= i < |kinds| ==> Succeeds(port.server, old(port.calls), kinds, i, action, deletes)
    ensures failed <==> exists i :: 0 <= i < |kinds| && Fails(port.server, old(port.calls), kinds, i, action, deletes)
    ensures entities.Some? ==> entities.value == if action.DeleteAction? then {} else DirectKeys(kinds)
    ensures port.calls == old(port.calls) + CallsFor(kinds, action)
  {
    hide Honest, Handled, AllUpserted, KeysOf;
    entities, failed := Some({}), false;
    for i := 0 to |kinds|
      invariant entities.Some? <==>
                  forall j :: 0 <= j < i ==> Succeeds(port.server, old(port.calls), kinds, j, action, deletes)
      invariant failed <==> exists j :: 0 <= j < i && Fails(port.server, old(port.calls), kinds, j, action, deletes)
      invariant entities.Some? ==> entities.value == if action.DeleteAction? then {} else DirectKeys(kinds[..i])
      invariant port.calls == old(port.calls) + CallsFor(kinds[..i], action)
    {
      DirectKeysSnoc(kinds, i);
      assert kinds[..i + 1][..i] == kinds[..i];
      if kinds[i].Failed? {
        assert !Succeeds(port.server, old(port.calls), kinds, i, action, deletes);
        assert !Fails(port.server, old(port.calls), kinds, i, action, deletes);
        entities := None;
        continue;
      }
      var keys, ok := HandleKind(port, kinds[i], i, action, deletes);
      if !ok {
        assert Fails(port.server, old(port.calls), kinds, i, action, deletes);
        assert !Succeeds(port.server, old(port.calls), kinds, i, action, deletes);
        entities, failed := None, true;
        continue;
      }
      assert Succeeds(port.server, old(port.calls), kinds, i, action, deletes);
      assert !Fails(port.server, old(port.calls), kinds, i, action, deletes);
      if entities.Some? {
        entities := Some(entities.value + keys);
      }
    }
    assert kinds[..|kinds|] == kinds;
  }

  /** One kind configuration whose mapping has succeeded. */
  method HandleKind(port: PortClient, kind: Transform, i: nat, action: EventAction, deletes: nat -> bool)
    returns (keys: set<string>, ok: bool)
    requires Honest(port.server) && kind.Produced?
    modifies port
    ensures ok <==> Handled(port.server, old(port.calls), kind, i, action, deletes)
    ensures ok ==> keys == if action.DeleteAction? then {} else KeysOf(kind.entities)
    ensures port.calls == old(port.calls) + if action.DeleteAction? then 0 else |kind.entities|
  {
    if action.DeleteAction? {
      return {}, deletes(i);
    }
    keys, ok := UpsertAll(port, kind.entities);
    if action.UpdateAction? && !deletes(i) {
      ok := false;
    }
  }

  method UpsertAll(port: PortClient, entities: seq<EntityRequest>) returns (stored: set<string>, ok: bool)
    requires Honest(port.server)
    modifies port
    ensures ok <==> AllUpserted(port.server, old(port.calls), entities)
    ensures ok ==> stored == KeysOf(entities)
    ensures port.calls == old(port.calls) + |entities|
  {
    stored, ok := {}, true;
    for i := 0 to |entities|
      invariant ok <==> AllUpserted(port.server, old(port.calls), entities[..i])
      invariant ok ==> stored == KeysOf(entities[..i])
      invariant port.calls == old(port.calls) + i
    {
      KeysSnoc(entities, i);
      var reply := port.CreateEntity(entities[i]);
      assert AllUpserted(port.server, old(port.calls), entities[..i + 1])
        <==> AllUpserted(port.server, old(port.calls), entities[..i]) && reply.Some? by {
        assert entities[..i + 1][i] == entities[i];
        assert forall k :: 0 <= k < i ==> entities[..i + 1][k] == entities[..i][k];
      }
      match reply
      case None => ok := false;
      case Some(e) => stored := stored + {IdentifierKey(e)};
    }
    assert entities[..|entities|] == entities;
  }

  lemma KeysSnoc(entities: seq<EntityRequest>, i: nat)
    requires i < |entities|
    ensures KeysOf(entities[..i + 1]) == KeysOf(entities[..i]) + {RequestKey(entities[i])}
  {
    assert entities[..i + 1] == entities[..i] + [entities[i]];
  }

  lemma DirectKeysSnoc(kinds: seq<Transform>, i: nat)
    requires i < |kinds|
    ensures DirectKeys(kinds[..i + 1])
         == DirectKeys(kinds[..i]) + if kinds[i].Produced? then KeysOf(kinds[i].entities) else {}
  {
    var last := if kinds[i].Produced? then KeysOf(kinds[i].entities) else {};
    forall key | key in DirectKeys(kinds[..i + 1]) ensures key in DirectKeys(kinds[..i]) + last {
      var j, e :| 0 <= j < i + 1 && kinds[j].Produced? && e in kinds[j].entities && key == RequestKey(e);
      if j < i {
        assert kinds[..i][j] == kinds[j];
      }
    }
    forall key | key in DirectKeys(kinds[..i]) + last ensures key in DirectKeys(kinds[..i + 1]) {
      if key in DirectKeys(kinds[..i]) {
        var j, e :| 0 <= j < i && kinds[..i][j].Produced? && e in kinds[..i][j].entities && key == RequestKey(e);
        assert kinds[..i + 1][j] == kinds[j];
      } else {
        var e :| e in kinds[i].entities && key == RequestKey(e);
        assert kinds[..i + 1][i] == kinds[i];
      }
    }
  }

  // ---- the comparison ----

  /** The objects of a cluster at rest: each key maps, per kind configuration, to the same entities at every pull. */
  type Mapping = (string, nat) -> seq<EntityRequest>

  function TransformsOf(mapping: Mapping, kinds: nat, key: string): (ts: seq<Transform>)
    ensures |ts| == kinds && forall i :: 0 <= i < kinds ==> ts[i] == Produced(mapping(key, i), [])
  {
    seq(kinds, i requires 0 <= i < kinds => Produced(mapping(key, i), []))
  }

  function InitialItems(keys: set<string>, kinds: nat): set<WorkItem> {
    set key, i | key in keys && 0 <= i < kinds :: EventItem(key, i, CreateAction)
  }

  /** Over a cluster at rest, a batched sync that pulled every item and reports that deletion is safe has collected
      exactly the union of what direct syncs of the single objects collect, whatever the batch size, the flush points
      and the order in which blueprints were visited. */
  lemma BatchedEqualsDirect(objects: Objects, mapping: Mapping, keys: set<string>, kinds: nat,
                            pulled: seq<WorkItem>, entities: set<string>)
    requires forall n, key, i: nat :: objects(n, EventItem(key, i, CreateAction)) == Mapped(mapping(key, i), false)
    // what `Controller.RunInitialSync` ensures about its result
    requires forall x :: x in pulled <==> x in InitialItems(keys, kinds)
    requires AllStored(objects, pulled, entities)
    requires forall stored :: stored in entities ==> MappedKey(objects, pulled, stored)
    ensures forall stored :: stored in entities <==>
              exists key :: key in keys && stored in DirectKeys(TransformsOf(mapping, kinds, key))
  {
    forall stored | stored in entities
      ensures exists key :: key in keys && stored in DirectKeys(TransformsOf(mapping, kinds, key))
    {
      var i: nat, e :| i < |pulled| && e in EntitiesAt(objects, pulled, i) && stored == RequestKey(e);
      assert pulled[i] in pulled;
      var key, kind :| key in keys && 0 <= kind < kinds && pulled[i] == EventItem(key, kind, CreateAction);
      assert TransformsOf(mapping, kinds, key)[kind] == Produced(mapping(key, kind), []);
      assert stored in DirectKeys(TransformsOf(mapping, kinds, key));
    }
    forall key, stored | key in keys && stored in DirectKeys(TransformsOf(mapping, kinds, key))
      ensures stored in entities
    {
      var ts := TransformsOf(mapping, kinds, key);
      var kind, e :| 0 <= kind < kinds && ts[kind].Produced? && e in ts[kind].entities && stored == RequestKey(e);
      var x := EventItem(key, kind, CreateAction);
      assert x in InitialItems(keys, kinds);
      var i :| 0 <= i < |pulled| && pulled[i] == x;
      assert e in EntitiesAt(objects, pulled, i);
    }
  }

  /** The union of what direct syncs collect over a cluster at rest, against a server that accepts everything. */
  ghost predicate IsDirectUnion(union: set<string>, mapping: Mapping, keys: set<string>, kinds: nat) {
    forall stored :: stored in union <==>
      exists key :: key in keys && stored in DirectKeys(TransformsOf(mapping, kinds, key))
  }

  method SyncAllDirectly(port: PortClient, mapping: Mapping, keys: set<string>, kinds: nat) returns (union: set<string>)
    requires Honest(port.server) && FaultFree(port.server)
    modifies port
    ensures IsDirectUnion(union, mapping, keys, kinds)
  {
    union := {};
    var remaining := keys;
    while remaining != {}
      invariant remaining <= keys && IsDirectUnion(union, mapping, keys - remaining, kinds)
      decreases remaining
    {
      var key :| key in remaining;
      var entities, failed := ObjectHandler(port, TransformsOf(mapping, kinds, key), CreateAction, i => true);
      assert keys - (remaining - {key}) == keys - remaining + {key};
      remaining := remaining - {key};
      union := union + entities.value;
    }
    assert keys - remaining == keys;
  }

  /** The batched sync of a controller and the direct sync of every object, side by side: over a cluster at rest and
      against servers that accept everything, a batched sync that ends idle with nothing in the poller's hand and
      nothing late calls deletion safe, and has collected what the direct syncs collect. */
  method SyncBothWays(c: Controller, port: PortClient, mapping: Mapping, keys: set<string>, kinds: nat)
    returns (r: SyncResult, exit: Exit, ghost late: set<WorkItem>, union: set<string>)
    requires c.Fresh(InitialItems(keys, kinds)) && c.limits.maxEntities > 0
    requires Honest(c.port.server) && FaultFree(c.port.server) && Honest(port.server) && FaultFree(port.server)
    requires port != c.port
    requires forall n, key, i: nat :: c.objects(n, EventItem(key, i, CreateAction)) == Mapped(mapping(key, i), false)
    modifies c, c.cluster, c.cluster.wq, c.port, port
    ensures IsDirectUnion(union, mapping, keys, kinds)
    ensures !exit.Clashed? && (exit.Blocked? || r.shouldDelete)
    ensures c.cluster.prompt && !c.cluster.mayShutDown ==> exit.Idle? && !c.cluster.wq.st.shuttingDown
    ensures exit.Idle? && !c.cluster.wq.st.shuttingDown && c.cluster.hand.None? && late == {} ==> r.entities == union
    ensures exit.Idle? && !c.cluster.wq.st.shuttingDown && c.cluster.hand.None? && old(c.cluster.unarrived) == {}
        ==> r.entities == union
  {
    ghost var items := InitialItems(keys, kinds);
    union := SyncAllDirectly(port, mapping, keys, kinds);
    r, exit, late := c.RunInitialSync(items);
    if exit.Idle? && !c.cluster.wq.st.shuttingDown && c.cluster.hand.None? && late == {} {
      BatchedEqualsDirect(c.objects, mapping, keys, kinds, c.pulled, r.entities);
    }
  }
}
