/** A resync over all resource kinds: every controller is synced, and only if all of them say that it is safe are the
    entities deleted that none of them has seen. */
module Handlers {
  import opened Basics
  import opened PortApi
  import opened SyncStates
  import opened SyncCoverage
  import opened InitialSync
  import opened Deletion

  function MergeMaps(sets: seq<set<string>>): set<string> {
    set i, key | 0 <= i < |sets| && key in sets[i] :: key
  }

  ghost predicate Apart(a: Controller, b: Controller)
  {
    a != b && a.cluster != b.cluster && a.cluster.wq != b.cluster.wq && a.port != b.port
  }

  /** Each controller has its own queue, informer and client. */
  ghost predicate Separate(controllers: seq<Controller>) {
    forall i, j :: 0 <= i < j < |controllers| ==> Apart(controllers[i], controllers[j])
  }

  ghost predicate Ready(c: Controller, items: set<WorkItem>)
    reads c, c.cluster, c.cluster.wq
  {
    c.Fresh(items) && Honest(c.port.server) && c.limits.maxEntities > 0
  }

  /** Some entity mapped from an object that a controller has processed. */
  ghost predicate Processed(objects: Objects, pulled: seq<WorkItem>, e: EntityRequest) {
    exists i: nat :: i < |pulled| && e in EntitiesAt(objects, pulled, i)
  }

  ghost predicate Keeps(objects: Objects, pulled: seq<WorkItem>, stored: set<string>) {
    forall e :: Processed(objects, pulled, e) ==> RequestKey(e) in stored
  }

  /** Nothing but keys of mapped entities. */
  ghost predicate OnlyOwn(objects: Objects, pulled: seq<WorkItem>, stored: set<string>) {
    forall key :: key in stored ==> MappedKey(objects, pulled, key)
  }

  /** What a controller has collected is its own, and everything it has processed if that is called safe. */
  ghost predicate Collected(objects: Objects, pulled: seq<WorkItem>, stored: set<string>, safe: bool) {
    OnlyOwn(objects, pulled, stored) && (safe ==> Keeps(objects, pulled, stored))
  }

  ghost predicate Smooth(c: Controller, items: set<WorkItem>) {
    FaultFree(c.port.server) && Harmless(c.objects, items) && c.cluster.prompt
  }

  /** The sync has ended idle, with nothing in the poller's hand and nothing late. */
  ghost predicate Complete(w: World, exit: Exit, late: set<WorkItem>) {
    exit.Idle? && !w.q.shuttingDown && w.hand.None? && late == {}
  }

  /** Whenever the object behind the item is found, it maps to this entity, too. */
  ghost predicate Produces(objects: Objects, x: WorkItem, e: EntityRequest) {
    && x.EventItem?
    && forall n :: objects(n, x).LookupFailed? || (objects(n, x).Mapped? && e in objects(n, x).entities)
  }

  /** Whatever the items produce has been processed, unless all five lookups failed. */
  ghost predicate NoneMissed(objects: Objects, pulled: seq<WorkItem>, items: set<WorkItem>) {
    forall x, e :: x in items && Produces(objects, x, e) && !GivenUp(objects, pulled, x) ==>
      Processed(objects, pulled, e)
  }

  lemma KnownIsProcessed(objects: Objects, pulled: seq<WorkItem>, items: set<WorkItem>)
    requires KnownUnlessGivenUp(objects, pulled) && forall x :: x in items ==> x in pulled
    ensures NoneMissed(objects, pulled, items)
  {
    forall x, e | x in items && Produces(objects, x, e) && !GivenUp(objects, pulled, x)
      ensures Processed(objects, pulled, e)
    {
      assert Conclusive(objects, pulled, x);
      var i: nat :| i < |pulled| && ConclusiveAt(objects, pulled, i, x);
      assert e in EntitiesAt(objects, pulled, i);
    }
  }

  /** What one sync gives: see `Collected`; and if it is complete and safe, nothing of its items has been missed. */
  ghost predicate Synced(c: Controller, items: set<WorkItem>, stored: set<string>, safe: bool, exit: Exit,
                         late: set<WorkItem>)
    reads c, c.cluster, c.cluster.wq
  {
    && Collected(c.objects, c.pulled, stored, safe)
    && (safe && Complete(c.cluster.W(), exit, late) ==> NoneMissed(c.objects, c.pulled, items))
  }

  /** The controllers other than the i-th are untouched. */
  twostate predicate Untouched(controllers: seq<Controller>, items: seq<set<WorkItem>>, i: nat)
    requires |items| == |controllers|
    reads controllers, set c | c in controllers :: c.cluster, set c | c in controllers :: c.cluster.wq
  {
    forall j :: 0 <= j < |controllers| && j != i ==>
      && controllers[j].pulled == old(controllers[j].pulled)
      && controllers[j].cluster.W() == old(controllers[j].cluster.W())
      && (old(Ready(controllers[j], items[j])) ==> Ready(controllers[j], items[j]))
  }

  method SyncController(c: Controller, ghost items: set<WorkItem>)
    returns (stored: set<string>, shouldDelete: bool, exit: Exit, ghost late: set<WorkItem>)
    requires Ready(c, items)
    modifies c, c.cluster, c.cluster.wq, c.port
    ensures Synced(c, items, stored, shouldDelete, exit, late)
    ensures Smooth(c, items) ==> shouldDelete
  {
    var r;
    r, exit, late := c.RunInitialSync(items);
    stored, shouldDelete := r.entities, r.shouldDelete;
    if shouldDelete && Complete(c.cluster.W(), exit, late) {
      KnownIsProcessed(c.objects, c.pulled, items);
    }
  }

  method SyncOne(controllers: seq<Controller>, ghost items: seq<set<WorkItem>>, i: nat)
    returns (stored: set<string>, shouldDelete: bool, exit: Exit, ghost late: set<WorkItem>)
    requires |items| == |controllers| && Separate(controllers) && i < |controllers| && Ready(controllers[i], items[i])
    modifies controllers[i], controllers[i].cluster, controllers[i].cluster.wq, controllers[i].port
    ensures Untouched(controllers, items, i)
    ensures Synced(controllers[i], items[i], stored, shouldDelete, exit, late)
    ensures Smooth(controllers[i], items[i]) ==> shouldDelete
  {
    stored, shouldDelete, exit, late := SyncController(controllers[i], items[i]);
    forall j | 0 <= j < |controllers| && j != i
      ensures controllers[j].pulled == old(controllers[j].pulled)
           && controllers[j].cluster.W() == old(controllers[j].cluster.W())
           && (old(Ready(controllers[j], items[j])) ==> Ready(controllers[j], items[j]))
    {
      assert Apart(controllers[i], controllers[j]) || Apart(controllers[j], controllers[i]);
    }
  }

  /** Syncs the controllers one after the other. */
  method SyncAllControllers(controllers: seq<Controller>, ghost items: seq<set<WorkItem>>)
    returns (sets: seq<set<string>>, shouldDelete: bool, exits: seq<Exit>, ghost late: seq<set<WorkItem>>)
    requires |items| == |controllers| && Separate(controllers)
    requires forall i :: 0 <= i < |controllers| ==> Ready(controllers[i], items[i])
    modifies (set i | 0 <= i < |controllers| :: controllers[i])
    modifies (set i | 0 <= i < |controllers| :: controllers[i].cluster)
    modifies (set i | 0 <= i < |controllers| :: controllers[i].cluster.wq)
    modifies (set i | 0 <= i < |controllers| :: controllers[i].port)
    ensures |sets| == |exits| == |late| == |controllers|
    ensures forall i :: 0 <= i < |controllers| ==>
              Synced(controllers[i], items[i], sets[i], shouldDelete, exits[i], late[i])
    ensures (forall i :: 0 <= i < |controllers| ==> Smooth(controllers[i], items[i])) ==> shouldDelete
  {
    sets, shouldDelete, exits, late := [], true, [], [];
    for i := 0 to |controllers|
      invariant |sets| == |exits| == |late| == i
      invariant forall j :: i <= j < |controllers| ==> Ready(controllers[j], items[j])
      invariant forall j :: 0 <= j < i ==>
                  Synced(controllers[j], items[j], sets[j], shouldDelete, exits[j], late[j])
      invariant (forall j :: 0 <= j < i ==> Smooth(controllers[j], items[j])) ==> shouldDelete
    {
      var stored, safe, exit;
      ghost var after;
      stored, safe, exit, after := SyncOne(controllers, items, i);
      sets, exits, late := sets + [stored], exits + [exit], late + [after];
      shouldDelete := shouldDelete && safe;
    }
  }

  lemma MergedIsMapped(controllers: seq<Controller>, sets: seq<set<string>>, key: string)
    requires |sets| == |controllers| && key in MergeMaps(sets)
    requires forall i :: 0 <= i < |controllers| ==> OnlyOwn(controllers[i].objects, controllers[i].pulled, sets[i])
    ensures exists i :: 0 <= i < |controllers| && MappedKey(controllers[i].objects, controllers[i].pulled, key)
  {
    var i :| 0 <= i < |sets| && key in sets[i];
    assert OnlyOwn(controllers[i].objects, controllers[i].pulled, sets[i]);
  }

  lemma ProcessedIsMerged(controllers: seq<Controller>, sets: seq<set<string>>, i: nat, e: EntityRequest)
    requires |sets| == |controllers| && i < |controllers|
    requires Keeps(controllers[i].objects, controllers[i].pulled, sets[i])
    requires Processed(controllers[i].objects, controllers[i].pulled, e)
    ensures RequestKey(e) in MergeMaps(sets)
  {
  }

  /** A whole resync. If it deletes at all, the deletion requests sent are for exactly what the search found and no
      controller has stored; and whatever the servers answered and however the syncs were scheduled, no entity mapped
      from a processed object is in any of them. */
  method Handle(controllers: seq<Controller>, ghost items: seq<set<WorkItem>>, client: DeleteClient,
                search: Option<seq<Entity>>)
    returns (deletes: bool, stored: set<string>, exits: seq<Exit>, ghost late: seq<set<WorkItem>>)
    requires |items| == |controllers| && Separate(controllers)
    requires forall i :: 0 <= i < |controllers| ==> Ready(controllers[i], items[i])
    modifies (set i | 0 <= i < |controllers| :: controllers[i])
    modifies (set i | 0 <= i < |controllers| :: controllers[i].cluster)
    modifies (set i | 0 <= i < |controllers| :: controllers[i].cluster.wq)
    modifies (set i | 0 <= i < |controllers| :: controllers[i].port)
    modifies client
    ensures old(client.requests) <= client.requests
    ensures !deletes || search.None? ==> client.requests == old(client.requests)
    ensures deletes && search.Some? ==> forall bp, id ::
              Requested(Since(client, |old(client.requests)|), bp, id)
              <==> Entity(id, bp) in search.value && IdentifierKey(Entity(id, bp)) !in stored
    // what counts as stored was mapped by one of the controllers
    ensures forall key :: key in stored ==>
              exists i :: 0 <= i < |controllers| && MappedKey(controllers[i].objects, controllers[i].pulled, key)
    ensures (forall i :: 0 <= i < |controllers| ==> Smooth(controllers[i], items[i])) ==> deletes
    ensures forall i, e :: 0 <= i < |controllers| && Processed(controllers[i].objects, controllers[i].pulled, e)
              ==> !Requested(Since(client, |old(client.requests)|), e.blueprint, e.identifier)
    // and after a complete sync this holds for everything its items produce, unless all lookups of an item failed
    ensures |exits| == |late| == |controllers|
    ensures forall i, x, e ::
              && 0 <= i < |controllers| && Complete(controllers[i].cluster.W(), exits[i], late[i])
              && x in items[i] && Produces(controllers[i].objects, x, e)
              && !GivenUp(controllers[i].objects, controllers[i].pulled, x)
              ==> !Requested(Since(client, |old(client.requests)|), e.blueprint, e.identifier)
  {
    hide Ready, Smooth, Complete, Produces, GivenUp, Separate;
    var sets;
    sets, deletes, exits, late := SyncAllControllers(controllers, items);
    stored := MergeMaps(sets);
    forall key | key in stored
      ensures exists i :: 0 <= i < |controllers| && MappedKey(controllers[i].objects, controllers[i].pulled, key)
    {
      MergedIsMapped(controllers, sets, key);
    }
    if deletes {
      var ok := DeleteStaleEntities(client, search, stored);
      forall i, e | 0 <= i < |controllers| && Processed(controllers[i].objects, controllers[i].pulled, e)
        ensures !Requested(Since(client, |old(client.requests)|), e.blueprint, e.identifier)
      {
        ProcessedIsMerged(controllers, sets, i, e);
      }
    }
  }
}
