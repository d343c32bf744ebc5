/** Creating the default blueprints in stages, by concurrent goroutines, with a rollback when something fails. */
module Defaults {
  import opened Basics

  /** A blueprint. `other` stands for its metadata, changelog destination and ownership; 0 for a part that is absent. */
  datatype Blueprint = Blueprint(
    identifier: string,
    schema: nat,
    relations: map<string, string>,
    aggregation: nat,
    calculation: nat,
    mirror: nat,
    other: nat)

  /** The stages in which a blueprint comes into being. */
  datatype Stage = BareStage | RelationStage | FullStage

  /** Nothing in it refers to another property: these three kinds of properties do. */
  predicate HasNoDerived(bp: Blueprint) { bp.aggregation == 0 && bp.calculation == 0 && bp.mirror == 0 }

  /** What a default blueprint is at each stage: with its schema only, with its relations, or with everything that the
      stages carry over at all. */
  predicate IsStageOf(bp: Blueprint, stage: Stage, raw: Blueprint) {
    && bp.identifier == raw.identifier && bp.schema == raw.schema && bp.other == 0
    && match stage
       case BareStage => bp.relations == map[] && HasNoDerived(bp)
       case RelationStage => bp.relations == raw.relations && HasNoDerived(bp)
       case FullStage =>
         && bp.relations == raw.relations
         && bp.aggregation == raw.aggregation && bp.calculation == raw.calculation && bp.mirror == raw.mirror
  }

  /** One blueprint for each default, in order, as it is at this stage. */
  predicate AreStageOf(bps: seq<Blueprint>, stage: Stage, raw: seq<Blueprint>) {
    |bps| == |raw| && forall i :: 0 <= i < |raw| ==> IsStageOf(bps[i], stage, raw[i])
  }

  /** The steps in which blueprints are created: bare, then with relations, then with everything else. The last one is
      the original up to what the steps drop. */
  method DeconstructBlueprintsToCreationSteps(raw: seq<Blueprint>)
    returns (bare: seq<Blueprint>, withRelations: seq<Blueprint>, full: seq<Blueprint>)
    ensures AreStageOf(bare, BareStage, raw) && AreStageOf(withRelations, RelationStage, raw)
    ensures AreStageOf(full, FullStage, raw)
    // the bare blueprint has no relation that could dangle, the next one has them, and the last one everything
    ensures forall i :: 0 <= i < |raw| ==> bare[i].relations == map[] && bare[i].schema == raw[i].schema
    ensures forall i :: 0 <= i < |raw| ==> withRelations[i] == bare[i].(relations := raw[i].relations)
    ensures forall i :: 0 <= i < |raw| ==> (full[i] == raw[i] <==> raw[i].other == 0)
  {
    bare, withRelations, full := [], [], [];
    for i := 0 to |raw|
      invariant AreStageOf(bare, BareStage, raw[..i]) && AreStageOf(withRelations, RelationStage, raw[..i])
      invariant AreStageOf(full, FullStage, raw[..i])
    {
      var bp := raw[i];
      var b := Blueprint(bp.identifier, bp.schema, map[], 0, 0, 0, 0);
      var w := b.(relations := bp.relations);
      var f := w.(aggregation := bp.aggregation, calculation := bp.calculation, mirror := bp.mirror);
      bare, withRelations, full := bare + [b], withRelations + [w], full + [f];
    }
  }

  function Ids(bps: seq<Blueprint>): set<string> { set bp | bp in bps :: bp.identifier }

  function SeqSet(s: seq<string>): set<string> { set x | x in s }

  /** A patch request, the blueprints that existed when it was made, and its answer. */
  datatype PatchCall = PatchCall(bp: Blueprint, existing: set<string>, ok: bool)

  /** A request about one blueprint, and whether it succeeded. */
  datatype Call = Call(id: string, ok: bool)

  function IdsWith(calls: seq<Call>, ok: bool): set<string> { set c | c in calls && c.ok == ok :: c.id }

  function IdsIn(calls: seq<Call>): seq<string> { seq(|calls|, i requires 0 <= i < |calls| => calls[i].id) }

  /** The remote catalog, and the requests made to it so far. Requests can fail at any time; one that fails changes
      nothing. */
  class Catalog {
    var blueprints: set<string>
    ghost var lookups: seq<Call>
    ghost var creations: seq<Call>
    // what each of these asked to create
    ghost var bodies: seq<Blueprint>
    ghost var patches: seq<PatchCall>
    ghost var deletions: seq<Call>

    constructor (blueprints: set<string>)
      ensures this.blueprints == blueprints
      ensures lookups == [] && creations == [] && bodies == [] && patches == [] && deletions == []
    {
      this.blueprints := blueprints;
      lookups, creations, bodies, patches, deletions := [], [], [], [], [];
    }

    method Get(id: string) returns (found: bool)
      modifies this`lookups
      ensures found ==> id in blueprints
      ensures lookups == old(lookups) + [Call(id, found)]
    {
      var reachable: bool := *;
      found := reachable && id in blueprints;
      lookups := lookups + [Call(id, found)];
    }

    method Create(bp: Blueprint) returns (ok: bool)
      modifies this`blueprints, this`creations, this`bodies
      ensures ok ==> bp.identifier !in old(blueprints) && bp.relations.Values <= old(blueprints)
      ensures blueprints == if ok then old(blueprints) + {bp.identifier} else old(blueprints)
      ensures creations == old(creations) + [Call(bp.identifier, ok)] && bodies == old(bodies) + [bp]
    {
      var accepted: bool := *;
      ok := accepted && bp.identifier !in blueprints && bp.relations.Values <= blueprints;
      if ok {
        blueprints := blueprints + {bp.identifier};
      }
      creations, bodies := creations + [Call(bp.identifier, ok)], bodies + [bp];
    }

    method Patch(bp: Blueprint) returns (ok: bool)
      modifies this`patches
      ensures ok ==> bp.identifier in blueprints && bp.relations.Values <= blueprints
      ensures patches == old(patches) + [PatchCall(bp, blueprints, ok)]
    {
      var accepted: bool := *;
      ok := accepted && bp.identifier in blueprints && bp.relations.Values <= blueprints;
      patches := patches + [PatchCall(bp, blueprints, ok)];
    }

    method Delete(id: string) returns (ok: bool)
      modifies this`blueprints, this`deletions
      ensures blueprints == if ok then old(blueprints) - {id} else old(blueprints)
      ensures deletions == old(deletions) + [Call(id, ok)]
    {
      ok := *;
      if ok {
        blueprints := blueprints - {id};
      }
      deletions := deletions + [Call(id, ok)];
    }
  }

  /** The goroutines that create blueprints, by index: those whose request is still to be made, and those whose answer
      is still to be recorded under the mutex. */
  datatype Goroutines = Goroutines(waiting: set<nat>, accepted: set<nat>, refused: set<nat>) {
    function All(): set<nat> { waiting + accepted + refused }
  }

  function Upto(n: nat): (s: set<nat>)
    ensures forall i: nat :: i in s <==> i < n
  {
    if n == 0 then {} else Upto(n - 1) + {n - 1}
  }

  function IdsAt(bps: seq<Blueprint>, at: set<nat>): set<string> { set i | i in at && i < |bps| :: bps[i].identifier }

  lemma IdsAtAdd(bps: seq<Blueprint>, at: set<nat>, i: nat)
    requires i < |bps|
    ensures IdsAt(bps, at + {i}) == IdsAt(bps, at) + {bps[i].identifier}
  {
    assert i in at + {i};
    forall id | id in IdsAt(bps, at) + {bps[i].identifier} ensures id in IdsAt(bps, at + {i}) {
      if id in IdsAt(bps, at) {
        var j :| j in at && j < |bps| && bps[j].identifier == id;
        assert j in at + {i};
      }
    }
  }

  /** `recorded` are the goroutines that have recorded a success, and `created` the list they share; `asked` are the
      requests made so far. */
  ghost predicate Consistent(bare: seq<Blueprint>, initial: set<string>, remote: set<string>, asked: seq<Call>,
                             g: Goroutines, recorded: set<nat>, created: seq<string>, failures: nat) {
    && (forall i :: i in g.All() ==> i < |bare|)
    && remote == initial + IdsAt(bare, g.accepted + recorded)
    && IdsAt(bare, g.accepted + recorded) !! initial
    && IdsWith(asked, true) == IdsAt(bare, g.accepted + recorded)
    && (failures > 0 || g.refused != {} <==> IdsWith(asked, false) != {})
    && Apart(bare, g.accepted + recorded)
    && g.accepted !! recorded
    && SeqSet(created) == IdsAt(bare, recorded) && Distinct(created)
    && (failures == 0 ==> forall i: nat :: i < |bare| ==> i in g.All() || i in recorded)
  }

  /** No two of these goroutines have created the same blueprint. */
  ghost predicate Apart(bare: seq<Blueprint>, at: set<nat>) {
    forall i, j :: i in at && j in at && i < |bare| && j < |bare| && bare[i].identifier == bare[j].identifier ==> i == j
  }

  lemma IdsWithSnoc(calls: seq<Call>, c: Call, ok: bool)
    ensures IdsWith(calls + [c], ok) == IdsWith(calls, ok) + if c.ok == ok then {c.id} else {}
  {
    forall id ensures id in IdsWith(calls + [c], ok) <==> id in IdsWith(calls, ok) + if c.ok == ok then {c.id} else {} {
      if id in IdsWith(calls, ok) {
        var d :| d in calls && d.ok == ok && d.id == id;
        assert d in calls + [c];
      }
      assert c in calls + [c];
    }
  }

  /** A goroutine's request is made and answered. */
  method MakeRequest(catalog: Catalog, bare: seq<Blueprint>, i: nat, g: Goroutines, ghost initial: set<string>,
                     ghost n: nat, ghost recorded: set<nat>, ghost created: seq<string>, ghost failures: nat)
    returns (g': Goroutines)
    requires i in g.waiting && i < |bare| && n <= |catalog.creations|
    requires Consistent(bare, initial, catalog.blueprints, catalog.creations[n..], g, recorded, created, failures)
    modifies catalog`blueprints, catalog`creations, catalog`bodies
    ensures catalog.bodies == old(catalog.bodies) + [bare[i]]
    ensures n <= |catalog.creations| && catalog.creations[..n] == old(catalog.creations)[..n]
    ensures Consistent(bare, initial, catalog.blueprints, catalog.creations[n..], g', recorded, created, failures)
    ensures g'.waiting == g.waiting - {i}
  {
    assert i in g.All();
    var ok := catalog.Create(bare[i]);
    assert catalog.creations[n..] == old(catalog.creations)[n..] + [Call(bare[i].identifier, ok)];
    IdsWithSnoc(old(catalog.creations)[n..], Call(bare[i].identifier, ok), true);
    IdsWithSnoc(old(catalog.creations)[n..], Call(bare[i].identifier, ok), false);
    if ok {
      AcceptedIsNew(bare, g.accepted + recorded, i);
      g' := Goroutines(g.waiting - {i}, g.accepted + {i}, g.refused);
      IdsAtAdd(bare, g.accepted + recorded, i);
      assert g.accepted + {i} + recorded == g.accepted + recorded + {i};
    } else {
      g' := Goroutines(g.waiting - {i}, g.accepted, g.refused + {i});
    }
    assert g'.All() == g.All();
  }

  lemma AcceptedIsNew(bare: seq<Blueprint>, at: set<nat>, i: nat)
    requires i < |bare| && Apart(bare, at) && bare[i].identifier !in IdsAt(bare, at)
    ensures i !in at && Apart(bare, at + {i})
  {
    assert forall j :: j in at && j < |bare| ==> bare[j].identifier in IdsAt(bare, at);
  }

  /** A goroutine records its answer under the mutex. */
  method RecordAnswer(bare: seq<Blueprint>, i: nat, g: Goroutines, created: seq<string>, failures: nat,
                      ghost initial: set<string>, ghost remote: set<string>, ghost asked: seq<Call>,
                      ghost recorded: set<nat>)
    returns (g': Goroutines, created': seq<string>, failures': nat, ghost recorded': set<nat>)
    requires i in g.accepted + g.refused && Consistent(bare, initial, remote, asked, g, recorded, created, failures)
    ensures Consistent(bare, initial, remote, asked, g', recorded', created', failures')
    ensures g'.waiting == g.waiting
    ensures g'.accepted + g'.refused <= g.accepted + g.refused
    ensures |g'.accepted| + |g'.refused| < |g.accepted| + |g.refused|
  {
    assert i in g.All();
    created', failures', recorded' := created, failures, recorded;
    if i in g.accepted {
      SuccessRecorded(bare, i, g, created, failures, initial, remote, asked, recorded);
      created', recorded' := created + [bare[i].identifier], recorded + {i};
      g' := g.(accepted := g.accepted - {i});
    } else {
      FailureRecorded(bare, i, g, created, failures, initial, remote, asked, recorded);
      failures' := failures + 1;
      g' := g.(refused := g.refused - {i});
    }
  }

  lemma SuccessRecorded(bare: seq<Blueprint>, i: nat, g: Goroutines, created: seq<string>, failures: nat,
                        initial: set<string>, remote: set<string>, asked: seq<Call>, recorded: set<nat>)
    requires i in g.accepted && i < |bare| && Consistent(bare, initial, remote, asked, g, recorded, created, failures)
    ensures Consistent(bare, initial, remote, asked, g.(accepted := g.accepted - {i}), recorded + {i},
                       created + [bare[i].identifier], failures)
  {
    var g', recorded', created' := g.(accepted := g.accepted - {i}), recorded + {i}, created + [bare[i].identifier];
    assert g'.accepted + recorded' == g.accepted + recorded;
    assert g'.accepted !! recorded';
    RecordedIsNew(bare, g.accepted + recorded, recorded, i);
    RecordedList(bare, created, recorded, i);
    forall j: nat | j < |bare| && failures == 0 ensures j in g'.All() || j in recorded' {
      assert j in g.All() || j in recorded;
    }
    forall j | j in g'.All() ensures j < |bare| {
      assert j in g.All();
    }
  }

  lemma RecordedList(bare: seq<Blueprint>, created: seq<string>, recorded: set<nat>, i: nat)
    requires i < |bare| && bare[i].identifier !in IdsAt(bare, recorded)
    requires SeqSet(created) == IdsAt(bare, recorded) && Distinct(created)
    ensures var created' := created + [bare[i].identifier];
            SeqSet(created') == IdsAt(bare, recorded + {i}) && Distinct(created')
  {
    IdsAtAdd(bare, recorded, i);
    SeqSetSnoc(created, bare[i].identifier);
    assert bare[i].identifier !in SeqSet(created);
    assert forall x :: x in created ==> x in SeqSet(created);
  }

  lemma FailureRecorded(bare: seq<Blueprint>, i: nat, g: Goroutines, created: seq<string>, failures: nat,
                        initial: set<string>, remote: set<string>, asked: seq<Call>, recorded: set<nat>)
    requires i in g.refused && Consistent(bare, initial, remote, asked, g, recorded, created, failures)
    ensures Consistent(bare, initial, remote, asked, g.(refused := g.refused - {i}), recorded, created, failures + 1)
  {
    assert forall j :: j in g.(refused := g.refused - {i}).All() ==> j in g.All();
  }

  lemma RecordedIsNew(bare: seq<Blueprint>, at: set<nat>, recorded: set<nat>, i: nat)
    requires i < |bare| && Apart(bare, at) && i in at && recorded <= at && i !in recorded
    ensures bare[i].identifier !in IdsAt(bare, recorded)
  {
  }

  /** Creates the bare blueprints, one goroutine each; requests and recordings of different goroutines interleave in any
      way. `created` ends up with exactly the blueprints that this run created, once each, whatever failed. */
  method CreateBare(catalog: Catalog, bare: seq<Blueprint>) returns (created: seq<string>, failures: nat)
    modifies catalog`blueprints, catalog`creations, catalog`bodies
    ensures old(catalog.bodies) <= catalog.bodies
    ensures forall i :: |old(catalog.bodies)| <= i < |catalog.bodies| ==> catalog.bodies[i] in bare
    ensures |old(catalog.creations)| <= |catalog.creations|
    ensures Distinct(created) && SeqSet(created) == IdsWith(catalog.creations[|old(catalog.creations)|..], true)
    ensures SeqSet(created) !! old(catalog.blueprints)
    ensures catalog.blueprints == old(catalog.blueprints) + SeqSet(created)
    ensures SeqSet(created) <= Ids(bare) && (failures == 0 ==> SeqSet(created) == Ids(bare))
    ensures failures > 0 <==> IdsWith(catalog.creations[|old(catalog.creations)|..], false) != {}
  {
    created, failures := [], 0;
    var g := Goroutines(Upto(|bare|), {}, {});
    ghost var recorded: set<nat> := {};
    ghost var n := |catalog.creations|;
    assert catalog.creations[n..] == [];
    while g.All() != {}
      invariant n <= |catalog.creations| && old(catalog.bodies) <= catalog.bodies
      invariant forall i :: |old(catalog.bodies)| <= i < |catalog.bodies| ==> catalog.bodies[i] in bare
      invariant Consistent(bare, old(catalog.blueprints), catalog.blueprints, catalog.creations[n..], g, recorded,
                           created, failures)
      decreases |g.waiting|, |g.accepted| + |g.refused|
    {
      var i :| i in g.All();
      if i in g.waiting {
        assert i < |bare|;
        g := MakeRequest(catalog, bare, i, g, old(catalog.blueprints), n, recorded, created, failures);
      } else {
        g, created, failures, recorded := RecordAnswer(bare, i, g, created, failures, old(catalog.blueprints),
                                                       catalog.blueprints, catalog.creations[n..], recorded);
      }
    }
    AllRecorded(bare, old(catalog.blueprints), catalog.blueprints, catalog.creations[n..], g, recorded, created,
                failures);
  }

  lemma AllRecorded(bare: seq<Blueprint>, initial: set<string>, remote: set<string>, asked: seq<Call>, g: Goroutines,
                    recorded: set<nat>, created: seq<string>, failures: nat)
    requires Consistent(bare, initial, remote, asked, g, recorded, created, failures) && g.All() == {}
    ensures SeqSet(created) !! initial && remote == initial + SeqSet(created) && SeqSet(created) == IdsWith(asked, true)
    ensures SeqSet(created) <= Ids(bare) && (failures == 0 ==> SeqSet(created) == Ids(bare))
  {
    assert g.accepted + recorded == recorded by {
      assert g.accepted <= g.All();
    }
    forall id | id in IdsAt(bare, recorded) ensures id in Ids(bare) {
      var i :| i in recorded && i < |bare| && bare[i].identifier == id;
      assert bare[i] in bare;
    }
    forall id | id in Ids(bare) && failures == 0 ensures id in SeqSet(created) {
      var bp :| bp in bare && bp.identifier == id;
      var i :| 0 <= i < |bare| && bare[i] == bp;
      assert i in g.All() || i in recorded;
    }
  }

  lemma SeqSetSnoc(s: seq<string>, x: string)
    ensures SeqSet(s + [x]) == SeqSet(s) + {x}
  {
  }

  ghost predicate PatchFailed(patches: seq<PatchCall>, n: nat) {
    exists i :: n <= i < |patches| && !patches[i].ok
  }

  /** Patches the blueprints of one stage, one goroutine each, in any order. */
  method PatchAll(catalog: Catalog, stage: seq<Blueprint>) returns (failures: nat)
    modifies catalog`patches
    ensures old(catalog.patches) <= catalog.patches
    ensures forall i :: |old(catalog.patches)| <= i < |catalog.patches| ==>
              catalog.patches[i].existing == catalog.blueprints && catalog.patches[i].bp in stage
    ensures failures == 0 ==> forall bp :: bp in stage ==>
              PatchCall(bp, catalog.blueprints, true) in catalog.patches[|old(catalog.patches)|..]
    ensures failures > 0 ==> PatchFailed(catalog.patches, |old(catalog.patches)|)
  {
    failures := 0;
    var waiting := Upto(|stage|);
    ghost var n := |catalog.patches|;
    while waiting != {}
      invariant forall i :: i in waiting ==> i < |stage|
      invariant |catalog.patches| >= n && catalog.patches[..n] == old(catalog.patches)
      invariant forall i :: n <= i < |catalog.patches| ==>
                  catalog.patches[i].existing == catalog.blueprints && catalog.patches[i].bp in stage
      invariant failures == 0 ==> forall i: nat :: i < |stage| ==>
                  i in waiting || PatchCall(stage[i], catalog.blueprints, true) in catalog.patches[n..]
      invariant failures > 0 ==> PatchFailed(catalog.patches, n)
      decreases waiting
    {
      var i :| i in waiting;
      waiting := waiting - {i};
      ghost var before := catalog.patches;
      var ok := catalog.Patch(stage[i]);
      assert catalog.patches[n..] == before[n..] + [PatchCall(stage[i], catalog.blueprints, ok)];
      if !ok {
        assert !catalog.patches[|before|].ok;
        failures := failures + 1;
      } else if PatchFailed(before, n) {
        var j :| n <= j < |before| && !before[j].ok;
        assert !catalog.patches[j].ok;
      }
    }
  }

  datatype Outcome = Skipped | Created | Aborted(rollback: seq<string>)

  /** Every patch request since the first `n` was made when all of `ids` existed. */
  ghost predicate PatchedAfterCreation(patches: seq<PatchCall>, n: nat, ids: set<string>) {
    forall i :: n <= i < |patches| ==> ids <= patches[i].existing
  }

  ghost predicate IsStageOfSome(bp: Blueprint, stage: Stage, defaults: seq<Blueprint>) {
    exists raw :: raw in defaults && IsStageOf(bp, stage, raw)
  }

  /** The default has been patched, to what it is at this stage, by one of the requests from the n-th to before the
      m-th. */
  ghost predicate Patched(patches: seq<PatchCall>, n: nat, m: nat, stage: Stage, raw: Blueprint) {
    exists i :: n <= i < m <= |patches| && patches[i].ok && IsStageOf(patches[i].bp, stage, raw)
  }

  /** Of the patch requests since the first `n`, those before the m-th give defaults their relations and the others
      complete them; none is completed before every default has its relations. */
  ghost predicate StagedAt(patches: seq<PatchCall>, n: nat, m: nat, defaults: seq<Blueprint>) {
    && n <= m <= |patches|
    && (forall i :: n <= i < m ==> IsStageOfSome(patches[i].bp, RelationStage, defaults))
    && (forall i :: m <= i < |patches| ==> IsStageOfSome(patches[i].bp, FullStage, defaults))
    && (m < |patches| ==> forall raw :: raw in defaults ==> Patched(patches, n, m, RelationStage, raw))
  }

  ghost predicate CarriesRelations(bp: Blueprint, defaults: seq<Blueprint>) {
    exists raw :: raw in defaults && bp.identifier == raw.identifier && bp.relations == raw.relations
  }

  /** Every patch since the n-th carries the relations of the default it is for. */
  ghost predicate CarryRelations(patches: seq<PatchCall>, n: nat, defaults: seq<Blueprint>) {
    forall i :: n <= i < |patches| ==> CarriesRelations(patches[i].bp, defaults)
  }

  lemma StagedCarryRelations(patches: seq<PatchCall>, n: nat, m: nat, defaults: seq<Blueprint>)
    requires StagedAt(patches, n, m, defaults)
    ensures CarryRelations(patches, n, defaults)
  {
    forall i | n <= i < |patches| ensures CarriesRelations(patches[i].bp, defaults) {
      var stage := if i < m then RelationStage else FullStage;
      assert IsStageOfSome(patches[i].bp, stage, defaults);
      var raw :| raw in defaults && IsStageOf(patches[i].bp, stage, raw);
    }
  }

  ghost predicate RelationsFirst(patches: seq<PatchCall>, n: nat, defaults: seq<Blueprint>) {
    exists m: nat :: StagedAt(patches, n, m, defaults)
  }

  lemma StageOf(bp: Blueprint, bps: seq<Blueprint>, stage: Stage, defaults: seq<Blueprint>)
    requires bp in bps && AreStageOf(bps, stage, defaults)
    ensures IsStageOfSome(bp, stage, defaults)
  {
    var j :| 0 <= j < |bps| && bps[j] == bp;
    assert defaults[j] in defaults;
  }

  lemma StageDone(patches: seq<PatchCall>, n: nat, m: nat, existing: set<string>, bps: seq<Blueprint>, stage: Stage,
                  defaults: seq<Blueprint>)
    requires n <= m <= |patches| && AreStageOf(bps, stage, defaults)
    requires forall bp :: bp in bps ==> PatchCall(bp, existing, true) in patches[n..m]
    ensures forall raw :: raw in defaults ==> Patched(patches, n, m, stage, raw)
  {
    forall raw | raw in defaults ensures Patched(patches, n, m, stage, raw) {
      var j :| 0 <= j < |defaults| && defaults[j] == raw;
      assert bps[j] in bps;
      var i :| 0 <= i < |patches[n..m]| && patches[n..m][i] == PatchCall(bps[j], existing, true);
      assert patches[n + i] == patches[n..m][i];
    }
  }

  /** Looks the defaults up one by one. */
  method FindExisting(catalog: Catalog, defaults: seq<Blueprint>) returns (existing: seq<string>)
    modifies catalog`lookups
    ensures |old(catalog.lookups)| <= |catalog.lookups|
    ensures IdsIn(catalog.lookups[|old(catalog.lookups)|..]) == IdList(defaults)
    ensures SeqSet(existing) == IdsWith(catalog.lookups[|old(catalog.lookups)|..], true)
    ensures SeqSet(existing) <= Ids(defaults) * catalog.blueprints
  {
    existing := [];
    ghost var n := |catalog.lookups|;
    for i := 0 to |defaults|
      invariant n <= |catalog.lookups| && IdsIn(catalog.lookups[n..]) == IdList(defaults[..i])
      invariant SeqSet(existing) == IdsWith(catalog.lookups[n..], true)
      invariant SeqSet(existing) <= Ids(defaults) * catalog.blueprints
    {
      ghost var before := catalog.lookups;
      var found := catalog.Get(defaults[i].identifier);
      assert catalog.lookups[n..] == before[n..] + [Call(defaults[i].identifier, found)];
      IdsWithSnoc(before[n..], Call(defaults[i].identifier, found), true);
      assert IdsIn(catalog.lookups[n..]) == IdsIn(before[n..]) + [defaults[i].identifier];
      assert IdList(defaults[..i + 1]) == IdList(defaults[..i]) + [defaults[i].identifier];
      if found {
        assert defaults[i] in defaults;
        SeqSetSnoc(existing, defaults[i].identifier);
        existing := existing + [defaults[i].identifier];
      }
    }
    assert defaults[..|defaults|] == defaults;
  }

  function IdList(bps: seq<Blueprint>): seq<string> { seq(|bps|, i requires 0 <= i < |bps| => bps[i].identifier) }

  method CreateResources(catalog: Catalog, defaults: seq<Blueprint>) returns (r: Outcome)
    modifies catalog`blueprints, catalog`lookups, catalog`creations, catalog`bodies, catalog`patches
    ensures |old(catalog.lookups)| <= |catalog.lookups| && |old(catalog.creations)| <= |catalog.creations|
    ensures |old(catalog.patches)| <= |catalog.patches|
    // a run is skipped exactly when a lookup finds one of the defaults, and then asks for nothing else
    ensures IdsIn(catalog.lookups[|old(catalog.lookups)|..]) == IdList(defaults)
    ensures r.Skipped? <==> IdsWith(catalog.lookups[|old(catalog.lookups)|..], true) != {}
    ensures r.Skipped? ==> catalog.blueprints == old(catalog.blueprints)
    ensures r.Skipped? ==> catalog.creations == old(catalog.creations) && catalog.patches == old(catalog.patches)
    // no patch before every default blueprint exists
    ensures PatchedAfterCreation(catalog.patches, |old(catalog.patches)|, Ids(defaults))
    ensures r.Created? ==> catalog.blueprints == old(catalog.blueprints) + Ids(defaults)
    // relations come first: no default is completed before each of them has been given its relations
    ensures RelationsFirst(catalog.patches, |old(catalog.patches)|, defaults)
    ensures CarryRelations(catalog.patches, |old(catalog.patches)|, defaults)
    ensures r.Created? ==> forall bp :: bp in defaults ==>
              Patched(catalog.patches, |old(catalog.patches)|, |catalog.patches|, FullStage, bp)
    // what is created is bare
    ensures |old(catalog.bodies)| <= |catalog.bodies|
    ensures forall i :: |old(catalog.bodies)| <= i < |catalog.bodies| ==>
              IsStageOfSome(catalog.bodies[i], BareStage, defaults) && catalog.bodies[i].relations == map[]
    // an abort has a failed request
    ensures r.Aborted? ==> || IdsWith(catalog.creations[|old(catalog.creations)|..], false) != {}
                           || PatchFailed(catalog.patches, |old(catalog.patches)|)
    // the rollback list is exactly what this run created, once each
    ensures r.Aborted? ==> Distinct(r.rollback)
    ensures r.Aborted? ==> SeqSet(r.rollback) == IdsWith(catalog.creations[|old(catalog.creations)|..], true)
    ensures r.Aborted? ==> SeqSet(r.rollback) !! old(catalog.blueprints)
    ensures r.Aborted? ==> catalog.blueprints == old(catalog.blueprints) + SeqSet(r.rollback)
  {
    ghost var n := |catalog.patches|;
    assert StagedAt(catalog.patches, n, n, defaults);
    var existing := FindExisting(catalog, defaults);
    if |existing| > 0 {
      assert existing[0] in SeqSet(existing);
      return Skipped;
    }
    var bare, withRelations, full := DeconstructBlueprintsToCreationSteps(defaults);
    SameIds(defaults, bare);
    var created, failures := CreateBare(catalog, bare);
    forall i | |old(catalog.bodies)| <= i < |catalog.bodies|
      ensures IsStageOfSome(catalog.bodies[i], BareStage, defaults)
    {
      StageOf(catalog.bodies[i], bare, BareStage, defaults);
    }
    if failures > 0 {
      return Aborted(created);
    }
    failures := PatchAll(catalog, withRelations);
    ghost var m := |catalog.patches|;
    forall i | n <= i < m ensures IsStageOfSome(catalog.patches[i].bp, RelationStage, defaults) {
      StageOf(catalog.patches[i].bp, withRelations, RelationStage, defaults);
    }
    assert StagedAt(catalog.patches, n, m, defaults);
    StagedCarryRelations(catalog.patches, n, m, defaults);
    if failures > 0 {
      return Aborted(created);
    }
    failures := CompleteAll(catalog, withRelations, full, defaults, n);
    if failures > 0 {
      return Aborted(created);
    }
    return Created;
  }

  /** The last stage, after the relations have all been patched since the n-th request. */
  method CompleteAll(catalog: Catalog, ghost withRelations: seq<Blueprint>, full: seq<Blueprint>,
                     ghost defaults: seq<Blueprint>, ghost n: nat)
    returns (failures: nat)
    requires AreStageOf(withRelations, RelationStage, defaults) && AreStageOf(full, FullStage, defaults)
    requires n <= |catalog.patches|
    requires forall i :: n <= i < |catalog.patches| ==>
               catalog.patches[i].existing == catalog.blueprints && catalog.patches[i].bp in withRelations
    requires forall bp :: bp in withRelations ==> PatchCall(bp, catalog.blueprints, true) in catalog.patches[n..]
    modifies catalog`patches
    ensures n <= |catalog.patches| && catalog.patches[..n] == old(catalog.patches)[..n]
    ensures forall i :: n <= i < |catalog.patches| ==> catalog.patches[i].existing == catalog.blueprints
    ensures RelationsFirst(catalog.patches, n, defaults) && CarryRelations(catalog.patches, n, defaults)
    ensures failures == 0 ==> forall bp :: bp in defaults ==>
              Patched(catalog.patches, n, |catalog.patches|, FullStage, bp)
    ensures failures > 0 ==> PatchFailed(catalog.patches, n)
  {
    hide StagedAt, Patched, CarryRelations, AreStageOf;
    ghost var m := |catalog.patches|;
    failures := PatchAll(catalog, full);
    ghost var patches := catalog.patches;
    assert patches[n..m] == old(catalog.patches)[n..];
    BothStages(patches, n, m, catalog.blueprints, withRelations, full, defaults);
    assert patches[m..|patches|] == patches[m..];
    if failures == 0 {
      AllCompleted(patches, n, m, catalog.blueprints, full, defaults);
    }
  }

  lemma BothStages(patches: seq<PatchCall>, n: nat, m: nat, existing: set<string>, withRelations: seq<Blueprint>,
                   full: seq<Blueprint>, defaults: seq<Blueprint>)
    requires AreStageOf(withRelations, RelationStage, defaults) && AreStageOf(full, FullStage, defaults)
    requires n <= m <= |patches|
    requires forall i :: n <= i < m ==> patches[i].bp in withRelations
    requires forall i :: m <= i < |patches| ==> patches[i].bp in full
    requires forall bp :: bp in withRelations ==> PatchCall(bp, existing, true) in patches[n..m]
    ensures RelationsFirst(patches, n, defaults) && CarryRelations(patches, n, defaults)
  {
    hide IsStageOf, AreStageOf;
    forall i | n <= i < m ensures IsStageOfSome(patches[i].bp, RelationStage, defaults) {
      StageOf(patches[i].bp, withRelations, RelationStage, defaults);
    }
    forall i | m <= i < |patches| ensures IsStageOfSome(patches[i].bp, FullStage, defaults) {
      StageOf(patches[i].bp, full, FullStage, defaults);
    }
    StageDone(patches, n, m, existing, withRelations, RelationStage, defaults);
    assert StagedAt(patches, n, m, defaults);
    StagedCarryRelations(patches, n, m, defaults);
  }

  lemma AllCompleted(patches: seq<PatchCall>, n: nat, m: nat, existing: set<string>, full: seq<Blueprint>,
                     defaults: seq<Blueprint>)
    requires AreStageOf(full, FullStage, defaults) && n <= m <= |patches|
    requires forall bp :: bp in full ==> PatchCall(bp, existing, true) in patches[m..|patches|]
    ensures forall raw :: raw in defaults ==> Patched(patches, n, |patches|, FullStage, raw)
  {
    hide IsStageOf, AreStageOf;
    StageDone(patches, m, |patches|, existing, full, FullStage, defaults);
    forall raw | raw in defaults ensures Patched(patches, n, |patches|, FullStage, raw) {
      assert Patched(patches, m, |patches|, FullStage, raw);
    }
  }

  lemma SameIds(raw: seq<Blueprint>, bare: seq<Blueprint>)
    requires |raw| == |bare| && forall i :: 0 <= i < |raw| ==> bare[i].identifier == raw[i].identifier
    ensures Ids(bare) == Ids(raw)
  {
    forall id ensures id in Ids(bare) <==> id in Ids(raw) {
      if id in Ids(bare) {
        var i :| 0 <= i < |bare| && bare[i].identifier == id;
        assert raw[i] in raw;
      }
      if id in Ids(raw) {
        var i :| 0 <= i < |raw| && raw[i].identifier == id;
        assert bare[i] in bare;
      }
    }
  }

  /** Deletes the listed blueprints, each once. `undeleted` are those whose deletion failed. */
  method RollBack(catalog: Catalog, rollback: seq<string>) returns (undeleted: set<string>)
    requires Distinct(rollback) && SeqSet(rollback) <= catalog.blueprints
    modifies catalog`blueprints, catalog`deletions
    ensures |old(catalog.deletions)| <= |catalog.deletions|
    ensures IdsIn(catalog.deletions[|old(catalog.deletions)|..]) == rollback
    ensures undeleted == IdsWith(catalog.deletions[|old(catalog.deletions)|..], false)
    ensures catalog.blueprints == old(catalog.blueprints) - SeqSet(rollback) + undeleted
  {
    undeleted := {};
    ghost var n := |catalog.deletions|;
    for i := 0 to |rollback|
      invariant n <= |catalog.deletions| && IdsIn(catalog.deletions[n..]) == rollback[..i]
      invariant undeleted == IdsWith(catalog.deletions[n..], false) && undeleted <= SeqSet(rollback[..i])
      invariant catalog.blueprints == old(catalog.blueprints) - SeqSet(rollback[..i]) + undeleted
    {
      ghost var before := catalog.deletions;
      var id := rollback[i];
      var deleted := catalog.Delete(id);
      assert catalog.deletions[n..] == before[n..] + [Call(id, deleted)];
      IdsWithSnoc(before[n..], Call(id, deleted), false);
      assert rollback[..i + 1] == rollback[..i] + [id];
      SeqSetSnoc(rollback[..i], id);
      assert id !in SeqSet(rollback[..i]) && id in SeqSet(rollback);
      if !deleted {
        undeleted := undeleted + {id};
      }
    }
    assert rollback[..|rollback|] == rollback;
  }

  /** Creates the defaults and undoes an aborted creation: every blueprint whose creation this run got accepted is
      deleted once, and nothing else is. When each deletion succeeds the catalog is as it was, otherwise it holds
      besides exactly the blueprints whose deletion failed. */
  method InitializeDefaults(catalog: Catalog, defaults: seq<Blueprint>) returns (ok: bool, undeleted: set<string>)
    modifies catalog
    ensures |old(catalog.lookups)| <= |catalog.lookups| && |old(catalog.creations)| <= |catalog.creations|
    ensures |old(catalog.patches)| <= |catalog.patches| && |old(catalog.deletions)| <= |catalog.deletions|
    ensures PatchedAfterCreation(catalog.patches, |old(catalog.patches)|, Ids(defaults))
    ensures RelationsFirst(catalog.patches, |old(catalog.patches)|, defaults)
    ensures |old(catalog.bodies)| <= |catalog.bodies|
    ensures forall i :: |old(catalog.bodies)| <= i < |catalog.bodies| ==>
              IsStageOfSome(catalog.bodies[i], BareStage, defaults)
    ensures ok ==> catalog.deletions == old(catalog.deletions)
    ensures ok ==> catalog.blueprints == if IdsWith(catalog.lookups[|old(catalog.lookups)|..], true) != {}
                                         then old(catalog.blueprints) else old(catalog.blueprints) + Ids(defaults)
    // a run fails only if a creation or a patch does
    ensures !ok ==> || IdsWith(catalog.creations[|old(catalog.creations)|..], false) != {}
                    || PatchFailed(catalog.patches, |old(catalog.patches)|)
    // a failed run attempts to delete exactly what it created, once each
    ensures !ok ==> var deletions := catalog.deletions[|old(catalog.deletions)|..];
                    && Distinct(IdsIn(deletions))
                    && SeqSet(IdsIn(deletions)) == IdsWith(catalog.creations[|old(catalog.creations)|..], true)
                    && SeqSet(IdsIn(deletions)) !! old(catalog.blueprints)
    // and leaves behind exactly what it could not delete
    ensures undeleted == IdsWith(catalog.deletions[|old(catalog.deletions)|..], false)
    ensures !ok ==> catalog.blueprints == old(catalog.blueprints) + undeleted
  {
    undeleted := {};
    var r := CreateResources(catalog, defaults);
    if !r.Aborted? {
      return true, undeleted;
    }
    undeleted := RollBack(catalog, r.rollback);
    ok := false;
  }
}
