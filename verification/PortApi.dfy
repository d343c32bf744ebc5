/** The catalog's HTTP interface as the exporter sees it: entities, bulk and single upserts, and the classification of
    failures. What the server answers is an unknown function of the request and of how many requests came before. */
module PortApi {
  import opened Basics

  datatype EntityRequest = EntityRequest(identifier: string, blueprint: string, body: nat)

  datatype Entity = Entity(identifier: string, blueprint: string)

  /** The name under which an entity is remembered between the sync and the deletion of stale entities. */
  function IdentifierKey(e: Entity): string { e.blueprint + ";" + e.identifier }

  function RequestKey(e: EntityRequest): string { IdentifierKey(Entity(e.identifier, e.blueprint)) }

  datatype BulkError = BulkError(identifier: string, statusCode: int)

  datatype HttpBulk =
    | NoResponse
    | Response(statusCode: int, entities: seq<string>, errors: seq<BulkError>)

  datatype Server = Server(
    bulk: (nat, string, seq<EntityRequest>) -> HttpBulk,
    upsert: (nat, EntityRequest) -> Option<Entity>)

  const MAX_BULK_ENTITIES: nat := 20

  predicate IsNonRetryableStatusCode(statusCode: int) {
    statusCode == 401 || statusCode == 403 || statusCode == 404 || statusCode == 422
  }

  /** A bulk upsert as its caller sees it. `TooMany` and `Unreachable` are errors without a status code. */
  datatype BulkResult =
    | TooMany
    | Unreachable
    | Refused(statusCode: int)
    | Replied(entities: seq<string>, errors: seq<BulkError>)
  {
    predicate NonRetryable() { Refused? && IsNonRetryableStatusCode(statusCode) }
  }

  function BulkUpsert(server: Server, n: nat, blueprint: string, entities: seq<EntityRequest>): BulkResult {
    if |entities| == 0 then Replied([], [])
    else if |entities| > MAX_BULK_ENTITIES then TooMany
    else match server.bulk(n, blueprint, entities)
      case NoResponse => Unreachable
      case Response(code, ids, errors) =>
        if !Accepts(code) then Refused(code) else Replied(ids, errors)
  }

  /** Only a call that reaches the network counts as a request. */
  function CallsAfterBulk(n: nat, entities: seq<EntityRequest>): nat {
    if |entities| == 0 || |entities| > MAX_BULK_ENTITIES then n else n + 1
  }

  ghost predicate NamedIn(e: EntityRequest, ids: seq<string>, errors: seq<BulkError>) {
    e.identifier in ids || exists j :: 0 <= j < |errors| && errors[j].identifier == e.identifier
  }

  predicate Accepts(statusCode: int) { statusCode == 200 || statusCode == 207 }

  /** The response contract: an accepted bulk request names each requested entity among its entities or its errors, and
      nothing else among its entities; a successful single upsert returns the entity it was asked for. */
  ghost predicate Honest(server: Server) {
    && (forall n, bp, es :: server.bulk(n, bp, es).Response? && Accepts(server.bulk(n, bp, es).statusCode) ==>
          && (forall e :: e in es ==> NamedIn(e, server.bulk(n, bp, es).entities, server.bulk(n, bp, es).errors))
          && (forall id :: id in server.bulk(n, bp, es).entities ==>
                exists e: EntityRequest :: e in es && e.identifier == id))
    && (forall n, e :: server.upsert(n, e).Some? ==> server.upsert(n, e).value == Entity(e.identifier, e.blueprint))
  }

  /** A server that accepts everything it is sent. */
  ghost predicate FaultFree(server: Server) {
    && (forall n, bp, es :: server.bulk(n, bp, es).Response?
          && server.bulk(n, bp, es).statusCode == 200 && server.bulk(n, bp, es).errors == [])
    && (forall n, e :: server.upsert(n, e).Some?)
  }

  /** A server that never refuses for good: it may fail in any other way, or not answer at all. */
  ghost predicate NeverRefuses(server: Server) {
    forall n, bp, es :: server.bulk(n, bp, es).Response? ==>
      && !IsNonRetryableStatusCode(server.bulk(n, bp, es).statusCode)
      && forall j :: 0 <= j < |server.bulk(n, bp, es).errors| ==>
           !IsNonRetryableStatusCode(server.bulk(n, bp, es).errors[j].statusCode)
  }

  /** A server that never fails a single upsert. */
  ghost predicate UpsertsSucceed(server: Server) {
    forall n, e :: server.upsert(n, e).Some?
  }

  /** Servers that do not give both kinds of failure: those that refuse for good, and those that may be retried. */
  ghost predicate OneKindOfFailure(server: Server) {
    NeverRefuses(server) || UpsertsSucceed(server)
  }

  class PortClient {
    const server: Server
    var calls: nat

    constructor (server: Server)
      ensures this.server == server && calls == 0
    {
      this.server := server;
      calls := 0;
    }

    method BulkUpsertEntities(blueprint: string, entities: seq<EntityRequest>) returns (r: BulkResult)
      modifies this
      ensures r == BulkUpsert(server, old(calls), blueprint, entities)
      ensures calls == CallsAfterBulk(old(calls), entities)
      // nothing is sent for a list that is empty or too long
      ensures |entities| == 0 || r.TooMany? ==> calls == old(calls)
      ensures r.TooMany? <==> |entities| > MAX_BULK_ENTITIES
      // a refusal keeps its status; a status of 200 or 207 never is one
      ensures r.Refused? ==> !Accepts(r.statusCode)
      ensures r.Replied? && entities != [] ==> Accepts(server.bulk(old(calls), blueprint, entities).statusCode)
      // an accepted request accounts for everything it was about
      ensures Honest(server) && r.Replied? ==> forall e :: e in entities ==> NamedIn(e, r.entities, r.errors)
    {
      if |entities| == 0 {
        return Replied([], []);
      }
      if |entities| > MAX_BULK_ENTITIES {
        return TooMany;
      }
      var response := server.bulk(calls, blueprint, entities);
      calls := calls + 1;
      match response
      case NoResponse =>
        return Unreachable;
      case Response(code, ids, errors) =>
        if !Accepts(code) {
          return Refused(code);
        }
        return Replied(ids, errors);
    }

    method CreateEntity(e: EntityRequest) returns (r: Option<Entity>)
      modifies this
      ensures r == server.upsert(old(calls), e) && calls == old(calls) + 1
      ensures Honest(server) && r.Some? ==> IdentifierKey(r.value) == RequestKey(e)
    {
      r := server.upsert(calls, e);
      calls := calls + 1;
    }
  }
}
