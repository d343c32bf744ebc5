/** Deleting catalog entities: which ones are stale, which ones this exporter owns, and how the deletions are sent in
    batches by concurrent goroutines. */
module Deletion {
  import opened Basics
  import opened PortApi

  const MAX_BULK_DELETE_BATCH: nat := 100
  const MAX_CONCURRENT_BULK_DELETES: nat := 10
  const OWNERSHIP_SEARCH_BATCH: nat := 50

  // ---- cutting a list into batches ----

  function ChunksOf<T>(s: seq<T>, size: nat): seq<seq<T>>
    requires size > 0
  {
    if |s| == 0 then []
    else if |s| <= size then [s]
    else [s[..size]] + ChunksOf(s[size..], size)
  }

  lemma {:induction false} ChunksConcat<T>(s: seq<T>, size: nat)
    requires size > 0
    ensures Concat(ChunksOf(s, size)) == s
  {
    if |s| > size {
      ChunksConcat(s[size..], size);
      ConcatFirst(s[..size], ChunksOf(s[size..], size));
      TakeDrop(s, size);
    } else if |s| > 0 {
      ConcatFirst(s, []);
      assert [s] + [] == [s] && s + [] == s;
    }
  }

  lemma {:induction false} ChunksSizes<T>(s: seq<T>, size: nat)
    requires size > 0
    ensures forall c :: c in ChunksOf(s, size) ==> 1 <= |c| <= size
  {
    if |s| > size {
      ChunksSizes(s[size..], size);
    }
  }

  lemma {:induction false} ChunksFull<T>(s: seq<T>, size: nat)
    requires size > 0
    ensures forall i :: 0 <= i < |ChunksOf(s, size)| - 1 ==> |ChunksOf(s, size)[i]| == size
  {
    if |s| > size {
      var rest := ChunksOf(s[size..], size);
      ChunksFull(s[size..], size);
      forall i | 0 < i < |rest| ensures |([s[..size]] + rest)[i]| == size {
        assert ([s[..size]] + rest)[i] == rest[i - 1];
      }
    }
  }

  /** Batches put together give the list back in order; none is empty or too long, and only the last may be shorter. */
  lemma ChunksPartition<T>(s: seq<T>, size: nat)
    requires size > 0
    ensures Concat(ChunksOf(s, size)) == s
    ensures forall c :: c in ChunksOf(s, size) ==> 1 <= |c| <= size
    ensures forall i :: 0 <= i < |ChunksOf(s, size)| - 1 ==> |ChunksOf(s, size)[i]| == size
  {
    ChunksConcat(s, size);
    ChunksSizes(s, size);
    ChunksFull(s, size);
  }

  // ---- concurrent bulk deletion ----

  datatype Task = Task(blueprint: string, ids: seq<string>)

  /** A request and its answer: how many entities it deleted, or that it failed. */
  datatype Sent = Sent(task: Task, reply: Option<nat>)

  /** What Port answers to the n-th request, if that is for this batch. */
  type DeleteReplies = (nat, Task) -> Option<nat>

  /** The client with the requests it has sent, in order. */
  class DeleteClient {
    const replies: DeleteReplies
    var requests: seq<Sent>

    constructor (replies: DeleteReplies)
      ensures this.replies == replies && requests == []
    {
      this.replies, requests := replies, [];
    }

    method BulkDeleteBatch(t: Task) returns (reply: Option<nat>)
      modifies this
      ensures requests == old(requests) + [Sent(t, reply)]
      ensures reply == replies(|old(requests)|, t)
    {
      reply := replies(|requests|, t);
      requests := requests + [Sent(t, reply)];
    }
  }

  /** How many deletions an answer reports. */
  function Worth(reply: Option<nat>): nat { if reply.Some? then reply.value else 0 }

  function TasksIn(log: seq<Sent>): seq<Task> {
    if log == [] then [] else TasksIn(log[..|log| - 1]) + [log[|log| - 1].task]
  }

  /** The sum of the answers. */
  function DeletedIn(log: seq<Sent>): nat {
    if log == [] then 0
    else DeletedIn(log[..|log| - 1]) + Worth(log[|log| - 1].reply)
  }

  ghost predicate SomeFailed(log: seq<Sent>) { exists s :: s in log && s.reply.None? }

  /** The answers are those to the n-th and following requests. */
  ghost predicate AnsweredBy(replies: DeleteReplies, n: nat, log: seq<Sent>) {
    forall i :: 0 <= i < |log| ==> log[i].reply == replies(n + i, log[i].task)
  }

  lemma LogSnoc(log: seq<Sent>, s: Sent)
    ensures TasksIn(log + [s]) == TasksIn(log) + [s.task]
    ensures DeletedIn(log + [s]) == DeletedIn(log) + Worth(s.reply)
    ensures SomeFailed(log + [s]) <==> SomeFailed(log) || s.reply.None?
  {
    assert (log + [s])[..|log|] == log;
    if s.reply.None? {
      assert s in log + [s];
    }
    if x :| x in log && x.reply.None? {
      assert x in log + [s];
    }
  }

  lemma {:induction false} TasksInAt(log: seq<Sent>)
    ensures |TasksIn(log)| == |log| && forall i :: 0 <= i < |log| ==> TasksIn(log)[i] == log[i].task
  {
    if log != [] {
      TasksInAt(log[..|log| - 1]);
    }
  }

  /** Every answer counts for what it reports, wherever it is in the log; a failed request counts nothing. */
  lemma {:induction false} EveryAnswerCounts(before: seq<Sent>, s: Sent, after: seq<Sent>)
    ensures DeletedIn(before + [s] + after)
         == DeletedIn(before) + (match s.reply case Some(k) => k case None => 0) + DeletedIn(after)
  {
    var log := before + [s] + after;
    if after == [] {
      assert log == before + [s];
      LogSnoc(before, s);
    } else {
      var k := |after| - 1;
      EveryAnswerCounts(before, s, after[..k]);
      assert log == before + [s] + after[..k] + [after[k]];
      LogSnoc(before + [s] + after[..k], after[k]);
    }
  }

  function TasksFor(blueprint: string, chunks: seq<seq<string>>): seq<Task> {
    if chunks == [] then [] else TasksFor(blueprint, chunks[..|chunks| - 1]) + [Task(blueprint, chunks[|chunks| - 1])]
  }

  function TasksOf(order: seq<string>, byBlueprint: map<string, seq<string>>): seq<Task>
    requires forall bp :: bp in order ==> bp in byBlueprint
  {
    if order == [] then []
    else
      var bp := order[|order| - 1];
      TasksOf(order[..|order| - 1], byBlueprint) + TasksFor(bp, ChunksOf(byBlueprint[bp], MAX_BULK_DELETE_BATCH))
  }

  lemma {:induction false} TasksForBlueprint(blueprint: string, chunks: seq<seq<string>>)
    ensures forall t :: t in TasksFor(blueprint, chunks) <==> t.blueprint == blueprint && t.ids in chunks
  {
    if chunks != [] {
      TasksForBlueprint(blueprint, chunks[..|chunks| - 1]);
      assert chunks == chunks[..|chunks| - 1] + [chunks[|chunks| - 1]];
    }
  }

  /** The batches that are sent do not depend on the order in which the map of blueprints is iterated. */
  lemma {:induction false} TasksCount(order: seq<string>, byBlueprint: map<string, seq<string>>, t: Task)
    requires Distinct(order) && forall bp :: bp in order ==> bp in byBlueprint
    ensures multiset(TasksOf(order, byBlueprint))[t]
         == if t.blueprint in order
            then multiset(TasksFor(t.blueprint, ChunksOf(byBlueprint[t.blueprint], MAX_BULK_DELETE_BATCH)))[t] else 0
  {
    if order != [] {
      var k := |order| - 1;
      assert order == order[..k] + [order[k]];
      TasksCount(order[..k], byBlueprint, t);
      var last := ChunksOf(byBlueprint[order[k]], MAX_BULK_DELETE_BATCH);
      TasksForBlueprint(order[k], last);
    }
  }

  lemma SameBatches(byBlueprint: map<string, seq<string>>, order1: seq<string>, order2: seq<string>)
    requires IsOrderOf(order1, byBlueprint.Keys) && IsOrderOf(order2, byBlueprint.Keys)
    ensures multiset(TasksOf(order1, byBlueprint)) == multiset(TasksOf(order2, byBlueprint))
  {
    forall t ensures multiset(TasksOf(order1, byBlueprint))[t] == multiset(TasksOf(order2, byBlueprint))[t] {
      TasksCount(order1, byBlueprint, t);
      TasksCount(order2, byBlueprint, t);
    }
  }

  // ---- when the schedule does not matter ----

  ghost function Total(replies: DeleteReplies, tasks: multiset<Task>): nat
    decreases |tasks|
  {
    if tasks == multiset{} then 0 else
    var t :| t in tasks;
    Worth(replies(0, t)) + Total(replies, tasks - multiset{t})
  }

  lemma {:induction false} TotalRemove(replies: DeleteReplies, tasks: multiset<Task>, t: Task)
    requires t in tasks
    ensures Total(replies, tasks) == Worth(replies(0, t)) + Total(replies, tasks - multiset{t})
    decreases |tasks|
  {
    var u :| u in tasks && Total(replies, tasks) == Worth(replies(0, u)) + Total(replies, tasks - multiset{u});
    if u != t {
      assert t in tasks - multiset{u} && u in tasks - multiset{t};
      TotalRemove(replies, tasks - multiset{u}, t);
      TotalRemove(replies, tasks - multiset{t}, u);
      assert tasks - multiset{u} - multiset{t} == tasks - multiset{t} - multiset{u};
    }
  }

  /** The answer to a batch does not depend on what was sent before it. */
  ghost predicate Steady(replies: DeleteReplies) {
    forall n, m, t :: replies(n, t) == replies(m, t)
  }

  lemma LastTask(log: seq<Sent>)
    requires log != []
    ensures TasksIn(log) == TasksIn(log[..|log| - 1]) + [log[|log| - 1].task]
    ensures log[|log| - 1].task in multiset(TasksIn(log))
    ensures multiset(TasksIn(log)) - multiset{log[|log| - 1].task} == multiset(TasksIn(log[..|log| - 1]))
  {
    var rest, t := TasksIn(log[..|log| - 1]), log[|log| - 1].task;
    assert multiset(rest + [t]) == multiset(rest) + multiset{t};
  }

  lemma {:induction false} DeletedIsTotal(replies: DeleteReplies, n: nat, log: seq<Sent>)
    requires Steady(replies) && AnsweredBy(replies, n, log)
    ensures DeletedIn(log) == Total(replies, multiset(TasksIn(log)))
  {
    if log != [] {
      var k := |log| - 1;
      assert AnsweredBy(replies, n, log[..k]);
      DeletedIsTotal(replies, n, log[..k]);
      assert log[k].reply == replies(n + k, log[k].task) == replies(0, log[k].task);
      LastTask(log);
      TotalRemove(replies, multiset(TasksIn(log)), log[k].task);
    }
  }

  lemma {:induction false} FailedIsSome(replies: DeleteReplies, n: nat, log: seq<Sent>)
    requires Steady(replies) && AnsweredBy(replies, n, log)
    ensures SomeFailed(log) <==> exists t :: t in TasksIn(log) && replies(0, t).None?
  {
    if log != [] {
      var k := |log| - 1;
      assert AnsweredBy(replies, n, log[..k]);
      FailedIsSome(replies, n, log[..k]);
      assert log[k].reply == replies(n + k, log[k].task) == replies(0, log[k].task);
      assert log == log[..k] + [log[k]];
      LogSnoc(log[..k], log[k]);
    }
  }

  /** With steady answers, two runs that send the same batches in any two orders return the same. */
  lemma ScheduleIndependent(replies: DeleteReplies, n: nat, m: nat, log1: seq<Sent>, log2: seq<Sent>)
    requires Steady(replies) && AnsweredBy(replies, n, log1) && AnsweredBy(replies, m, log2)
    requires multiset(TasksIn(log1)) == multiset(TasksIn(log2))
    ensures DeletedIn(log1) == DeletedIn(log2) && (SomeFailed(log1) <==> SomeFailed(log2))
  {
    DeletedIsTotal(replies, n, log1);
    DeletedIsTotal(replies, m, log2);
    FailedIsSome(replies, n, log1);
    FailedIsSome(replies, m, log2);
    SameMembers(TasksIn(log1), TasksIn(log2));
  }

  lemma SameMembers<T>(a: seq<T>, b: seq<T>)
    requires multiset(a) == multiset(b)
    ensures forall x :: x in a <==> x in b
  {
    forall x ensures x in a <==> x in b {
      assert x in a <==> x in multiset(a);
      assert x in b <==> x in multiset(b);
    }
  }

  // ---- the goroutines ----

  /** What the goroutines share: those still running, and the answers counted so far. */
  datatype Pool = Pool(running: multiset<Task>, deleted: nat, failed: bool)

  /** The answers in the log are counted, and its batches and the running ones are those that were started. */
  ghost predicate Tallied(pool: Pool, log: seq<Sent>, started: seq<Task>) {
    && pool.deleted == DeletedIn(log) && pool.failed == SomeFailed(log)
    && multiset(TasksIn(log)) + pool.running == multiset(started)
  }

  lemma TalliedOneMore(pool: Pool, log: seq<Sent>, started: seq<Task>, s: Sent)
    requires Tallied(pool, log, started) && s.task in pool.running
    ensures Tallied(Pool(pool.running - multiset{s.task}, pool.deleted + Worth(s.reply), pool.failed || s.reply.None?),
                    log + [s], started)
  {
    LogSnoc(log, s);
    assert multiset(TasksIn(log) + [s.task]) == multiset(TasksIn(log)) + multiset{s.task};
    assert pool.running - multiset{s.task} + multiset{s.task} == pool.running;
  }

  /** One of the running goroutines sends its batch, counts the answer and finishes. */
  method FinishOne(client: DeleteClient, pool: Pool, ghost n: nat, ghost started: seq<Task>) returns (pool': Pool)
    requires n <= |client.requests| && pool.running != multiset{} && Tallied(pool, client.requests[n..], started)
    modifies client
    ensures old(client.requests) <= client.requests && |pool'.running| == |pool.running| - 1
    ensures Tallied(pool', client.requests[n..], started)
  {
    var t :| t in pool.running;
    ghost var before := client.requests;
    var reply := client.BulkDeleteBatch(t);
    assert client.requests[n..] == before[n..] + [Sent(t, reply)];
    TalliedOneMore(pool, before[n..], started, Sent(t, reply));
    pool' := Pool(pool.running - multiset{t}, pool.deleted + Worth(reply), pool.failed || reply.None?);
  }

  /** Some running goroutines finish, at least so many that another one may start. */
  method MakeRoom(client: DeleteClient, pool: Pool, ghost n: nat, ghost started: seq<Task>) returns (pool': Pool)
    requires n <= |client.requests| && Tallied(pool, client.requests[n..], started)
    modifies client
    ensures old(client.requests) <= client.requests && |pool'.running| < MAX_CONCURRENT_BULK_DELETES
    ensures Tallied(pool', client.requests[n..], started)
  {
    pool' := pool;
    var more: bool := *;
    while pool'.running != multiset{} && (more || |pool'.running| >= MAX_CONCURRENT_BULK_DELETES)
      invariant old(client.requests) <= client.requests && Tallied(pool', client.requests[n..], started)
      decreases |pool'.running|
    {
      pool' := FinishOne(client, pool', n, started);
      more := *;
    }
  }

  method Start(client: DeleteClient, t: Task, pool: Pool, ghost n: nat, ghost started: seq<Task>) returns (pool': Pool)
    requires n <= |client.requests| && Tallied(pool, client.requests[n..], started)
    modifies client
    ensures old(client.requests) <= client.requests && |pool'.running| <= MAX_CONCURRENT_BULK_DELETES
    ensures Tallied(pool', client.requests[n..], started + [t])
  {
    pool' := MakeRoom(client, pool, n, started);
    pool' := pool'.(running := pool'.running + multiset{t});
  }

  /** Starts the goroutines for one blueprint. */
  method Launch(client: DeleteClient, blueprint: string, chunks: seq<seq<string>>, pool: Pool, ghost n: nat,
                ghost started: seq<Task>)
    returns (pool': Pool)
    requires n <= |client.requests| && Tallied(pool, client.requests[n..], started)
    modifies client
    ensures old(client.requests) <= client.requests
    ensures Tallied(pool', client.requests[n..], started + TasksFor(blueprint, chunks))
  {
    pool' := pool;
    assert started + [] == started;
    for i := 0 to |chunks|
      invariant old(client.requests) <= client.requests
      invariant Tallied(pool', client.requests[n..], started + TasksFor(blueprint, chunks[..i]))
    {
      TasksForSnoc(started, blueprint, chunks, i);
      pool' := Start(client, Task(blueprint, chunks[i]), pool', n, started + TasksFor(blueprint, chunks[..i]));
    }
    assert chunks[..|chunks|] == chunks;
  }

  lemma TasksForSnoc(started: seq<Task>, blueprint: string, chunks: seq<seq<string>>, i: nat)
    requires i < |chunks|
    ensures started + TasksFor(blueprint, chunks[..i + 1])
         == started + TasksFor(blueprint, chunks[..i]) + [Task(blueprint, chunks[i])]
  {
    assert chunks[..i + 1][..i] == chunks[..i];
  }

  method LaunchAll(client: DeleteClient, byBlueprint: map<string, seq<string>>)
    returns (pool: Pool, ghost order: seq<string>)
    modifies client
    ensures old(client.requests) <= client.requests && IsOrderOf(order, byBlueprint.Keys)
    ensures Tallied(pool, client.requests[|old(client.requests)|..], TasksOf(order, byBlueprint))
  {
    pool, order := Pool(multiset{}, 0, false), [];
    var remaining := byBlueprint.Keys;
    ghost var n := |client.requests|;
    ghost var visited: set<string> := {};
    assert client.requests[n..] == [];
    while remaining != {}
      invariant old(client.requests) <= client.requests
      invariant remaining == byBlueprint.Keys - visited && visited <= byBlueprint.Keys
      invariant IsOrderOf(order, visited)
      invariant Tallied(pool, client.requests[n..], TasksOf(order, byBlueprint))
      decreases remaining
    {
      var blueprint :| blueprint in remaining;
      remaining := remaining - {blueprint};
      ghost var started := TasksOf(order, byBlueprint);
      TasksSnoc(order, byBlueprint, blueprint);
      OrderOneMore(order, visited, blueprint);
      order, visited := order + [blueprint], visited + {blueprint};
      pool := Launch(client, blueprint, ChunksOf(byBlueprint[blueprint], MAX_BULK_DELETE_BATCH), pool, n, started);
    }
    assert visited == byBlueprint.Keys;
  }

  lemma TasksSnoc(order: seq<string>, byBlueprint: map<string, seq<string>>, bp: string)
    requires bp in byBlueprint && forall b :: b in order ==> b in byBlueprint
    ensures TasksOf(order + [bp], byBlueprint)
         == TasksOf(order, byBlueprint) + TasksFor(bp, ChunksOf(byBlueprint[bp], MAX_BULK_DELETE_BATCH))
  {
    assert (order + [bp])[..|order|] == order;
  }

  /** One of the batches into which the identifiers are cut. */
  predicate IsBatch(byBlueprint: map<string, seq<string>>, t: Task) {
    t.blueprint in byBlueprint && t.ids in ChunksOf(byBlueprint[t.blueprint], MAX_BULK_DELETE_BATCH)
  }

  lemma {:induction false} TasksAreBatches(order: seq<string>, byBlueprint: map<string, seq<string>>, t: Task)
    requires Distinct(order) && forall bp :: bp in order ==> bp in byBlueprint
    ensures t in TasksOf(order, byBlueprint) <==> t.blueprint in order && IsBatch(byBlueprint, t)
  {
    TasksCount(order, byBlueprint, t);
    assert t in TasksOf(order, byBlueprint) <==> multiset(TasksOf(order, byBlueprint))[t] > 0;
    if t.blueprint in order {
      var chunks := ChunksOf(byBlueprint[t.blueprint], MAX_BULK_DELETE_BATCH);
      TasksForBlueprint(t.blueprint, chunks);
      assert t in TasksFor(t.blueprint, chunks) <==> multiset(TasksFor(t.blueprint, chunks))[t] > 0;
    }
  }

  /** The requests that a client has sent since it had sent `n`. */
  function Since(client: DeleteClient, n: nat): seq<Sent>
    reads client
  {
    if n <= |client.requests| then client.requests[n..] else []
  }

  /** Sends one request per batch. Up to ten goroutines run at a time and finish in any order; a new one starts as soon
      as there is room, or later. Whatever fails, the requests sent are the batches, once each. What is returned is the
      sum of the answers received and whether one of them was a failure. */
  method BulkDeleteEntities(client: DeleteClient, byBlueprint: map<string, seq<string>>)
    returns (deleted: nat, failed: bool)
    modifies client
    ensures old(client.requests) <= client.requests
    ensures forall order :: IsOrderOf(order, byBlueprint.Keys) ==>
              multiset(TasksIn(Since(client, |old(client.requests)|))) == multiset(TasksOf(order, byBlueprint))
    ensures forall t :: t in TasksIn(Since(client, |old(client.requests)|)) <==> IsBatch(byBlueprint, t)
    ensures deleted == DeletedIn(Since(client, |old(client.requests)|))
    ensures failed == SomeFailed(Since(client, |old(client.requests)|))
  {
    ghost var n := |client.requests|;
    var pool;
    ghost var first;
    pool, first := LaunchAll(client, byBlueprint);
    ghost var started := TasksOf(first, byBlueprint);
    while pool.running != multiset{}
      invariant old(client.requests) <= client.requests && Tallied(pool, client.requests[n..], started)
      decreases |pool.running|
    {
      pool := FinishOne(client, pool, n, started);
    }
    deleted, failed := pool.deleted, pool.failed;
    AllBatchesSent(byBlueprint, first, TasksIn(client.requests[n..]));
  }

  lemma AllBatchesSent(byBlueprint: map<string, seq<string>>, first: seq<string>, done: seq<Task>)
    requires IsOrderOf(first, byBlueprint.Keys) && multiset(done) == multiset(TasksOf(first, byBlueprint))
    ensures forall order :: IsOrderOf(order, byBlueprint.Keys) ==>
              multiset(done) == multiset(TasksOf(order, byBlueprint))
    ensures forall t :: t in done <==> IsBatch(byBlueprint, t)
  {
    forall order | IsOrderOf(order, byBlueprint.Keys) ensures multiset(done) == multiset(TasksOf(order, byBlueprint)) {
      SameBatches(byBlueprint, first, order);
    }
    SameMembers(done, TasksOf(first, byBlueprint));
    forall t ensures t in done <==> IsBatch(byBlueprint, t) {
      TasksAreBatches(first, byBlueprint, t);
    }
  }

  // ---- stale entities ----

  /** The identifiers of a blueprint's stale entities, in the order the search returned them. */
  function StaleIds(found: seq<Entity>, existing: set<string>, blueprint: string): seq<string> {
    if found == [] then []
    else
      var e := found[|found| - 1];
      StaleIds(found[..|found| - 1], existing, blueprint)
      + if e.blueprint == blueprint && IdentifierKey(e) !in existing then [e.identifier] else []
  }

  /** An entity is deleted exactly when it was found and its key is not among those to keep. */
  lemma {:induction false} StaleIdsMeaning(found: seq<Entity>, existing: set<string>, blueprint: string, id: string)
    ensures id in StaleIds(found, existing, blueprint)
        <==> Entity(id, blueprint) in found && IdentifierKey(Entity(id, blueprint)) !in existing
  {
    if found != [] {
      var k := |found| - 1;
      assert found == found[..k] + [found[k]];
      StaleIdsMeaning(found[..k], existing, blueprint, id);
    }
  }

  /** The stale lists of all blueprints that have one. */
  ghost predicate IsStaleMap(stale: map<string, seq<string>>, found: seq<Entity>, existing: set<string>) {
    forall bp :: if bp in stale then stale[bp] != [] && stale[bp] == StaleIds(found, existing, bp)
                 else StaleIds(found, existing, bp) == []
  }

  method CollectStale(found: seq<Entity>, existing: set<string>) returns (stale: map<string, seq<string>>)
    ensures IsStaleMap(stale, found, existing)
  {
    stale := map[];
    for i := 0 to |found|
      invariant IsStaleMap(stale, found[..i], existing)
    {
      var e := found[i];
      assert found[..i + 1][..i] == found[..i];
      if IdentifierKey(e) !in existing {
        stale := stale[e.blueprint := (if e.blueprint in stale then stale[e.blueprint] else []) + [e.identifier]];
      }
    }
    assert found[..|found|] == found;
  }

  /** Deletes what the search finds and the sync did not. A failed deletion is only logged. */
  method DeleteStaleEntities(client: DeleteClient, search: Option<seq<Entity>>, existing: set<string>)
    returns (ok: bool)
    modifies client
    ensures old(client.requests) <= client.requests
    ensures ok <==> search.Some?
    ensures search.None? ==> client.requests == old(client.requests)
    ensures search.Some? ==> forall bp, id ::
              Requested(Since(client, |old(client.requests)|), bp, id)
              <==> Entity(id, bp) in search.value && IdentifierKey(Entity(id, bp)) !in existing
  {
    if search.None? {
      return false;
    }
    var stale := CollectStale(search.value, existing);
    var deleted, failed := BulkDeleteEntities(client, stale);
    ok := true;
    ghost var log := Since(client, |old(client.requests)|);
    forall bp, id ensures Requested(log, bp, id)
                     <==> Entity(id, bp) in search.value && IdentifierKey(Entity(id, bp)) !in existing {
      BatchesCoverIds(stale, log, bp, id);
      StaleIdsMeaning(search.value, existing, bp, id);
    }
  }

  /** One of the requests asks for the deletion of this entity. */
  ghost predicate Requested(log: seq<Sent>, bp: string, id: string) {
    exists i :: 0 <= i < |log| && log[i].task.blueprint == bp && id in log[i].task.ids
  }

  /** The batches ask for the deletion of exactly the identifiers listed. */
  lemma BatchesCoverIds(byBlueprint: map<string, seq<string>>, log: seq<Sent>, bp: string, id: string)
    requires forall t :: t in TasksIn(log) <==> IsBatch(byBlueprint, t)
    ensures Requested(log, bp, id) <==> bp in byBlueprint && id in byBlueprint[bp]
  {
    TasksInAt(log);
    if Requested(log, bp, id) {
      var i :| 0 <= i < |log| && log[i].task.blueprint == bp && id in log[i].task.ids;
      assert TasksIn(log)[i] in TasksIn(log);
    }
    if bp in byBlueprint {
      var chunks := ChunksOf(byBlueprint[bp], MAX_BULK_DELETE_BATCH);
      ChunksPartition(byBlueprint[bp], MAX_BULK_DELETE_BATCH);
      ConcatMembers(chunks, id);
      if id in byBlueprint[bp] {
        var c :| c in chunks && id in c;
        assert IsBatch(byBlueprint, Task(bp, c));
        var i :| 0 <= i < |TasksIn(log)| && TasksIn(log)[i] == Task(bp, c);
        assert log[i].task == Task(bp, c);
      }
    }
  }

  // ---- keys ----

  ghost predicate NoSeparator(blueprint: string) { ';' !in blueprint }

  /** Keys of entities whose blueprints contain no semicolon determine the entity. */
  lemma KeyInjective(a: Entity, b: Entity)
    requires NoSeparator(a.blueprint) && NoSeparator(b.blueprint)
    requires IdentifierKey(a) == IdentifierKey(b)
    ensures a == b
  {
    var key := IdentifierKey(a);
    var m, n := |a.blueprint|, |b.blueprint|;
    assert key[m] == ';' && key[n] == ';';
    assert forall i :: 0 <= i < m ==> key[i] == a.blueprint[i] && a.blueprint[i] in a.blueprint;
    assert forall i :: 0 <= i < n ==> key[i] == b.blueprint[i] && b.blueprint[i] in b.blueprint;
    assert m == n;
    assert key[..m] == a.blueprint && key[..m] == b.blueprint;
    assert key[m + 1..] == a.identifier && key[m + 1..] == b.identifier;
  }

  function KeysOfEntities(kept: set<Entity>): set<string> {
    set e | e in kept :: IdentifierKey(e)
  }

  /** Stale deletion against the keys of the kept entities never removes a kept one, and finds every other entity
      exactly when no kept entity shares its key; with semicolon-free blueprint names that is always so. */
  lemma StaleAgainstKept(found: seq<Entity>, kept: set<Entity>, e: Entity)
    requires e in found
    ensures e in kept ==> e.identifier !in StaleIds(found, KeysOfEntities(kept), e.blueprint)
    ensures e !in kept ==>
              (e.identifier in StaleIds(found, KeysOfEntities(kept), e.blueprint)
               <==> forall k :: k in kept ==> IdentifierKey(k) != IdentifierKey(e))
    ensures NoSeparator(e.blueprint) && (forall k :: k in kept ==> NoSeparator(k.blueprint)) ==>
              (e.identifier in StaleIds(found, KeysOfEntities(kept), e.blueprint) <==> e !in kept)
  {
    StaleIdsMeaning(found, KeysOfEntities(kept), e.blueprint, e.identifier);
    if NoSeparator(e.blueprint) && (forall k :: k in kept ==> NoSeparator(k.blueprint)) {
      forall k | k in kept && IdentifierKey(k) == IdentifierKey(e) ensures k == e {
        KeyInjective(k, e);
      }
    }
  }

  /** A semicolon in a blueprint name can hide a stale entity behind a kept one. */
  lemma SeparatorHidesStale()
    ensures var kept, stale := Entity("c;d", "b"), Entity("d", "b;c");
            stale != kept && StaleIds([stale], KeysOfEntities({kept}), stale.blueprint) == []
  {
    var kept, stale := Entity("c;d", "b"), Entity("d", "b;c");
    assert IdentifierKey(stale) == "b;c;d" && IdentifierKey(kept) == "b;c;d";
    assert IdentifierKey(kept) in KeysOfEntities({kept});
    assert [stale][..0] == [];
  }

  // ---- ownership ----

  /** An entity named for deletion; identifiers that are search queries are not strings. */
  datatype Target = Target(blueprint: string, identifier: Option<string>)

  const DATASOURCE := "port-k8s-exporter"
  const AUTO_DATASOURCE := "port-auto-k8s-exporter"

  /** Searches for entities of a blueprint, by datasource prefix, among a batch of identifiers. A search can fail. */
  type Search = (string, string, seq<string>) -> Option<set<string>>

  /** What a search answers about the identifiers it was asked for is decided by who owns them. */
  ghost predicate Consistent(search: Search, owns: (string, string, string) -> bool) {
    forall prefix, bp, ids :: search(prefix, bp, ids).Some? ==>
      forall id :: id in ids ==> (id in search(prefix, bp, ids).value <==> owns(prefix, bp, id))
  }

  ghost predicate SearchFails(search: Search, live: bool, bp: string, ids: seq<string>) {
    search(DATASOURCE, bp, ids).None? || (live && search(AUTO_DATASOURCE, bp, ids).None?)
  }

  ghost predicate Owned(owns: (string, string, string) -> bool, live: bool, bp: string, id: string) {
    owns(DATASOURCE, bp, id) || (live && owns(AUTO_DATASOURCE, bp, id))
  }

  function IdsOf(targets: seq<Target>, bp: string): seq<string> {
    if targets == [] then []
    else
      var t := targets[|targets| - 1];
      IdsOf(targets[..|targets| - 1], bp)
      + if t.blueprint == bp && t.identifier.Some? && t.identifier.value != "" then [t.identifier.value] else []
  }

  lemma {:induction false} IdsOfMeaning(targets: seq<Target>, bp: string, id: string)
    ensures id in IdsOf(targets, bp) <==> Target(bp, Some(id)) in targets && id != ""
  {
    if targets != [] {
      IdsOfMeaning(targets[..|targets| - 1], bp, id);
      assert targets == targets[..|targets| - 1] + [targets[|targets| - 1]];
    }
  }

  /** The entity is among those named, and one of this exporter's datasources owns it: the one for objects it was
      configured for, or, for live events, also the one for those it found by itself. */
  ghost predicate IsOwnTarget(owns: (string, string, string) -> bool, targets: seq<Target>, live: bool, bp: string,
                              id: string)
  {
    && Target(bp, Some(id)) in targets && id != ""
    && (owns("port-k8s-exporter", bp, id) || (live && owns("port-auto-k8s-exporter", bp, id)))
  }

  ghost function OwnedIds(owns: (string, string, string) -> bool, live: bool, bp: string,
                          ids: seq<string>): seq<string> {
    if ids == [] then []
    else
      OwnedIds(owns, live, bp, ids[..|ids| - 1])
      + if Owned(owns, live, bp, ids[|ids| - 1]) then [ids[|ids| - 1]] else []
  }

  lemma {:induction false} OwnedIdsAppend(owns: (string, string, string) -> bool, live: bool, bp: string,
                                          a: seq<string>, b: seq<string>)
    ensures OwnedIds(owns, live, bp, a + b) == OwnedIds(owns, live, bp, a) + OwnedIds(owns, live, bp, b)
  {
    if b == [] {
      assert a + b == a;
    } else {
      OwnedIdsAppend(owns, live, bp, a, b[..|b| - 1]);
      assert (a + b)[..|a + b| - 1] == a + b[..|b| - 1];
    }
  }

  lemma {:induction false} OwnedIdsMembers(owns: (string, string, string) -> bool, live: bool, bp: string,
                                           ids: seq<string>)
    ensures forall id :: id in OwnedIds(owns, live, bp, ids) <==> id in ids && Owned(owns, live, bp, id)
  {
    if ids != [] {
      OwnedIdsMembers(owns, live, bp, ids[..|ids| - 1]);
      assert ids == ids[..|ids| - 1] + [ids[|ids| - 1]];
    }
  }

  /** The identifiers of each blueprint that has some, in request order. */
  ghost predicate IsGrouping(grouped: map<string, seq<string>>, targets: seq<Target>) {
    forall bp ::
      if bp in grouped then grouped[bp] != [] && grouped[bp] == IdsOf(targets, bp) else IdsOf(targets, bp) == []
  }

  function Grouped(grouped: map<string, seq<string>>, bp: string, id: string): map<string, seq<string>> {
    grouped[bp := (if bp in grouped then grouped[bp] else []) + [id]]
  }

  lemma GroupedOneMore(grouped: map<string, seq<string>>, targets: seq<Target>, i: nat)
    requires i < |targets| && IsGrouping(grouped, targets[..i])
    ensures var t := targets[i];
            IsGrouping(if t.identifier.Some? && t.identifier.value != ""
                       then Grouped(grouped, t.blueprint, t.identifier.value) else grouped, targets[..i + 1])
  {
    assert targets[..i + 1][..i] == targets[..i] && targets[..i + 1][i] == targets[i];
    var t := targets[i];
    forall bp
      ensures IdsOf(targets[..i + 1], bp)
           == IdsOf(targets[..i], bp)
              + if t.blueprint == bp && t.identifier.Some? && t.identifier.value != "" then [t.identifier.value] else []
    {
    }
  }

  method GroupByBlueprint(targets: seq<Target>) returns (grouped: map<string, seq<string>>)
    ensures IsGrouping(grouped, targets)
  {
    grouped := map[];
    for i := 0 to |targets|
      invariant IsGrouping(grouped, targets[..i])
    {
      var t := targets[i];
      GroupedOneMore(grouped, targets, i);
      if t.identifier.None? || t.identifier.value == "" {
        continue;
      }
      grouped := Grouped(grouped, t.blueprint, t.identifier.value);
    }
    assert targets[..|targets|] == targets;
  }

  method FilterBatch(search: Search, ghost owns: (string, string, string) -> bool, live: bool, bp: string,
                     ids: seq<string>)
    returns (r: Option<seq<string>>)
    requires Consistent(search, owns)
    ensures r.None? <==> SearchFails(search, live, bp, ids)
    ensures r.Some? ==> r.value == OwnedIds(owns, live, bp, ids)
  {
    var plain := search(DATASOURCE, bp, ids);
    if plain.None? {
      return None;
    }
    var found := plain.value;
    if live {
      var auto := search(AUTO_DATASOURCE, bp, ids);
      if auto.None? {
        return None;
      }
      found := found + auto.value;
    }
    var owned := [];
    for i := 0 to |ids|
      invariant owned == OwnedIds(owns, live, bp, ids[..i])
    {
      assert ids[..i + 1][..i] == ids[..i];
      assert ids[i] in ids;
      if ids[i] in found {
        owned := owned + [ids[i]];
      }
    }
    assert ids[..|ids|] == ids;
    return Some(owned);
  }

  ghost predicate AnySearchFails(search: Search, live: bool, bp: string, chunks: seq<seq<string>>) {
    exists c :: c in chunks && SearchFails(search, live, bp, c)
  }

  /** One of the searches needed to decide who owns the requested entities of a blueprint fails. */
  ghost predicate OwnershipUnknown(search: Search, live: bool, targets: seq<Target>, bp: string) {
    AnySearchFails(search, live, bp, ChunksOf(IdsOf(targets, bp), OWNERSHIP_SEARCH_BATCH))
  }

  method FilterBlueprint(search: Search, ghost owns: (string, string, string) -> bool, live: bool, bp: string,
                         chunks: seq<seq<string>>)
    returns (r: Option<seq<string>>)
    requires Consistent(search, owns)
    ensures r.None? <==> AnySearchFails(search, live, bp, chunks)
    ensures r.Some? ==> r.value == OwnedIds(owns, live, bp, Concat(chunks))
  {
    var owned := [];
    for i := 0 to |chunks|
      invariant owned == OwnedIds(owns, live, bp, Concat(chunks[..i]))
      invariant forall j :: 0 <= j < i ==> !SearchFails(search, live, bp, chunks[j])
    {
      assert chunks[..i + 1][..i] == chunks[..i];
      var part := FilterBatch(search, owns, live, bp, chunks[i]);
      if part.None? {
        assert chunks[i] in chunks;
        return None;
      }
      OwnedIdsAppend(owns, live, bp, Concat(chunks[..i]), chunks[i]);
      owned := owned + part.value;
    }
    assert chunks[..|chunks|] == chunks;
    return Some(owned);
  }

  /** The requested identifiers this exporter owns, per blueprint and in request order; fails exactly when one of the
      batched searches fails. */
  method FilterOwnedIdentifiers(search: Search, ghost owns: (string, string, string) -> bool, targets: seq<Target>,
                                live: bool)
    returns (r: Option<map<string, seq<string>>>)
    requires Consistent(search, owns)
    ensures r.None? <==> exists bp :: OwnershipUnknown(search, live, targets, bp)
    ensures r.Some? ==> forall bp ::
              var ids := OwnedIds(owns, live, bp, IdsOf(targets, bp));
              if bp in r.value then ids != [] && r.value[bp] == ids else ids == []
  {
    var grouped := GroupByBlueprint(targets);
    var owned: map<string, seq<string>> := map[];
    var remaining := grouped.Keys;
    while remaining != {}
      invariant remaining <= grouped.Keys
      invariant owned.Keys <= grouped.Keys - remaining
      invariant forall bp :: bp in grouped.Keys - remaining ==>
                  && !AnySearchFails(search, live, bp, ChunksOf(grouped[bp], OWNERSHIP_SEARCH_BATCH))
                  && (if bp in owned then owned[bp] != [] && owned[bp] == OwnedIds(owns, live, bp, grouped[bp])
                      else OwnedIds(owns, live, bp, grouped[bp]) == [])
      decreases remaining
    {
      var bp :| bp in remaining;
      var chunks := ChunksOf(grouped[bp], OWNERSHIP_SEARCH_BATCH);
      ChunksPartition(grouped[bp], OWNERSHIP_SEARCH_BATCH);
      var ids := FilterBlueprint(search, owns, live, bp, chunks);
      if ids.None? {
        assert OwnershipUnknown(search, live, targets, bp);
        return None;
      }
      remaining := remaining - {bp};
      if ids.value != [] {
        owned := owned[bp := ids.value];
      }
    }
    forall bp ensures !OwnershipUnknown(search, live, targets, bp) {
      assert bp !in grouped ==> IdsOf(targets, bp) == [];
    }
    return Some(owned);
  }

  /** Deletes the given entities as far as this exporter owns them: nothing else is ever requested. Nothing is requested
      when an ownership search fails; otherwise everything is, and the call fails exactly when a deletion request
      does. */
  method DeleteEntities(client: DeleteClient, search: Search, ghost owns: (string, string, string) -> bool,
                        targets: seq<Target>, live: bool)
    returns (ok: bool)
    requires Consistent(search, owns)
    modifies client
    ensures old(client.requests) <= client.requests
    ensures ok <==> && (forall bp :: !OwnershipUnknown(search, live, targets, bp))
                    && !SomeFailed(Since(client, |old(client.requests)|))
    ensures (exists bp :: OwnershipUnknown(search, live, targets, bp)) ==> client.requests == old(client.requests)
    ensures (forall bp :: !OwnershipUnknown(search, live, targets, bp)) ==>
              forall bp, id :: Requested(Since(client, |old(client.requests)|), bp, id)
                          <==> IsOwnTarget(owns, targets, live, bp, id)
  {
    var owned := FilterOwnedIdentifiers(search, owns, targets, live);
    if owned.None? {
      return false;
    }
    if |owned.value| == 0 {
      assert Since(client, |old(client.requests)|) == [];
      NothingOwned(owns, live, targets, owned.value);
      return true;
    }
    var deleted, failed := BulkDeleteEntities(client, owned.value);
    ok := !failed;
    ghost var log := Since(client, |old(client.requests)|);
    forall bp, id ensures Requested(log, bp, id) <==> IsOwnTarget(owns, targets, live, bp, id) {
      BatchesCoverIds(owned.value, log, bp, id);
      OwnedIdsMembers(owns, live, bp, IdsOf(targets, bp));
      IdsOfMeaning(targets, bp, id);
    }
  }

  lemma NothingOwned(owns: (string, string, string) -> bool, live: bool, targets: seq<Target>,
                     owned: map<string, seq<string>>)
    requires owned == map[]
    requires forall bp :: bp in owned || OwnedIds(owns, live, bp, IdsOf(targets, bp)) == []
    ensures forall bp, id :: !IsOwnTarget(owns, targets, live, bp, id)
  {
    forall bp, id ensures !IsOwnTarget(owns, targets, live, bp, id) {
      OwnedIdsMembers(owns, live, bp, IdsOf(targets, bp));
      IdsOfMeaning(targets, bp, id);
    }
  }
}
