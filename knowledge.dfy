/** The shared knowledge base (orchestrator/multi_agent_orchestrator.py,
    `KnowledgeBase`): resources with a secondary index by type, an
    append-only list of deployments, the history of finished plans and
    per-agent scratch memory. Calls run one at a time, so the lock is not
    modelled; `save` is modelled as the snapshot it would write and `load` as
    what it does with a snapshot already read. */
module Knowledge {
  import opened Values
  import opened Plans

  /** The record `register_resource` stores: `{"type", "id", "metadata",
      "created_at"}`. */
  datatype Resource = Resource(rtype: string, id: string, metadata: Record, createdAt: int)

  /** `resources_by_type`: type -> resource id -> resource. */
  type Index = map<string, map<string, Resource>>

  /** What the index may hold next to `resources`: every resource is filed
      under its own type and id; every entry sits under the type it records,
      belongs to an id that is still a resource, and no bucket is empty. An
      entry need not be the resource's current record: one left behind when
      the id was registered again under another type stays. */
  ghost predicate Consistent(resources: map<string, Resource>, index: Index) {
    && (forall id :: id in resources ==>
          && resources[id].rtype in index
          && id in index[resources[id].rtype]
          && index[resources[id].rtype][id] == resources[id])
    && (forall t :: t in index ==> index[t] != map[])
    && (forall t, id :: t in index && id in index[t] ==> index[t][id].rtype == t)
    && (forall t, id :: t in index && id in index[t] ==> id in resources)
  }

  /** The resources of one type, keyed by id. */
  function OfType(resources: map<string, Resource>, t: string): (r: map<string, Resource>)
    ensures forall id :: id in r <==> id in resources && resources[id].rtype == t
    ensures forall id :: id in r ==> r[id] == resources[id]
  {
    map id | id in resources && resources[id].rtype == t :: resources[id]
  }

  /** The index rebuilt from scratch, as `load` does: a type only when some
      resource has it, and under it exactly the resources of that type. */
  function IndexOf(resources: map<string, Resource>): (index: Index)
    ensures forall t :: t in index <==> exists id :: id in resources && resources[id].rtype == t
    ensures forall t :: t in index ==> index[t] == OfType(resources, t)
  {
    var types := set id | id in resources :: resources[id].rtype;
    map t | t in types :: OfType(resources, t)
  }

  /** `resources_by_type[t][id] = record`, creating the bucket when `t` is new. */
  function FileUnder(index: Index, t: string, id: string, record: Resource): Index {
    index[t := (if t in index then index[t] else map[])[id := record]]
  }

  /** A rebuilt index is consistent with the resources it came from. */
  lemma IndexOfConsistent(resources: map<string, Resource>)
    ensures Consistent(resources, IndexOf(resources))
  {
    var index := IndexOf(resources);
    forall t | t in index ensures index[t] != map[] {
      var id :| id in resources && resources[id].rtype == t;
      assert id in OfType(resources, t);
    }
  }

  /** Adding a resource adds it to its own type's resources and changes no
      other type's. */
  lemma OfTypeAdd(resources: map<string, Resource>, id: string, r: Resource, t: string)
    ensures OfType(resources[id := r], t) ==
            if t == r.rtype then OfType(resources, t)[id := r] else OfType(resources, t) - {id}
  {
    var after := OfType(resources[id := r], t);
    var expected := if t == r.rtype then OfType(resources, t)[id := r] else OfType(resources, t) - {id};
    assert after.Keys == expected.Keys;
  }

  /** `register_resource` keeps the index consistent with the resources. */
  lemma RegisterKeepsConsistent(resources: map<string, Resource>, index: Index, id: string, r: Resource)
    requires Consistent(resources, index)
    ensures Consistent(resources[id := r], FileUnder(index, r.rtype, id, r))
  {
    var more := resources[id := r];
    var filed := FileUnder(index, r.rtype, id, r);
    forall x | x in more
      ensures more[x].rtype in filed && x in filed[more[x].rtype] && filed[more[x].rtype][x] == more[x]
    {
      if x != id {
        assert more[x] == resources[x];
        var t := resources[x].rtype;
        assert x in index[t] && index[t][x] == resources[x];
        if t == r.rtype {
          assert filed[t] == index[t][id := r];
        } else {
          assert filed[t] == index[t];
        }
      }
    }
    forall t | t in filed ensures filed[t] != map[] {
      if t == r.rtype {
        assert id in filed[t];
      } else {
        assert filed[t] == index[t];
      }
    }
    forall t, x | t in filed && x in filed[t] ensures filed[t][x].rtype == t && x in more {
      if t != r.rtype || x != id {
        assert t in index && x in index[t] && filed[t][x] == index[t][x];
      }
    }
  }

  /** The index equals the one `load` would rebuild from the same resources
      exactly when no entry is left behind by a change of type. */
  lemma IndexMatchesRebuild(resources: map<string, Resource>, index: Index)
    requires Consistent(resources, index)
    ensures index == IndexOf(resources) <==> NoStaleEntry(resources, index)
  {
    if NoStaleEntry(resources, index) {
      NoStaleEntryIsRebuilt(resources, index);
    } else {
      var t, x :| t in index && x in index[t] && index[t][x] != resources[x];
      assert resources[x].rtype != t;
      if t in IndexOf(resources) {
        assert x !in IndexOf(resources)[t];
      }
    }
  }

  /** Every entry of the index is its resource's current record. */
  predicate NoStaleEntry(resources: map<string, Resource>, index: Index) {
    forall t, id :: t in index && id in index[t] ==> id in resources && index[t][id] == resources[id]
  }

  lemma NoStaleEntryIsRebuilt(resources: map<string, Resource>, index: Index)
    requires Consistent(resources, index) && NoStaleEntry(resources, index)
    ensures index == IndexOf(resources)
  {
    var rebuilt := IndexOf(resources);
    NoStaleTypes(resources, index);
    forall t | t in index ensures index[t] == rebuilt[t] {
      NoStaleBucket(resources, index, t);
    }
  }

  lemma NoStaleTypes(resources: map<string, Resource>, index: Index)
    requires Consistent(resources, index) && NoStaleEntry(resources, index)
    ensures index.Keys == IndexOf(resources).Keys
  {
    forall t ensures t in index <==> t in IndexOf(resources) {
      if t in index {
        var x :| x in index[t];
        assert resources[x].rtype == t;
      }
    }
  }

  lemma NoStaleBucket(resources: map<string, Resource>, index: Index, t: string)
    requires Consistent(resources, index) && NoStaleEntry(resources, index)
    requires t in index
    ensures index[t] == OfType(resources, t)
  {
    forall x ensures x in index[t] <==> x in OfType(resources, t) {
      if x in resources && resources[x].rtype == t {
        assert x in index[resources[x].rtype];
      }
    }
    assert index[t].Keys == OfType(resources, t).Keys;
  }

  /** Registering a new id, or an id again under the same type, leaves an
      exactly rebuilt index exactly rebuilt: this is also the step of the
      loop in `load`. */
  lemma RegisterKeepsExact(resources: map<string, Resource>, id: string, r: Resource)
    requires id in resources ==> resources[id].rtype == r.rtype
    ensures FileUnder(IndexOf(resources), r.rtype, id, r) == IndexOf(resources[id := r])
  {
    var after := IndexOf(resources[id := r]);
    var filed := FileUnder(IndexOf(resources), r.rtype, id, r);
    RegisterKeepsTypes(resources, id, r);
    forall t | t in after ensures after[t] == filed[t] {
      RegisterKeepsBucket(resources, id, r, t);
    }
  }

  lemma RegisterKeepsTypes(resources: map<string, Resource>, id: string, r: Resource)
    requires id in resources ==> resources[id].rtype == r.rtype
    ensures IndexOf(resources[id := r]).Keys == FileUnder(IndexOf(resources), r.rtype, id, r).Keys
  {
    var more := resources[id := r];
    var after := IndexOf(more);
    var filed := FileUnder(IndexOf(resources), r.rtype, id, r);
    forall t ensures t in after <==> t in filed {
      if t in filed && t != r.rtype {
        var x :| x in resources && resources[x].rtype == t;
        assert more[x].rtype == t;
      }
      if t in after && t != r.rtype {
        var x :| x in more && more[x].rtype == t;
        assert resources[x].rtype == t;
      }
      assert more[id].rtype == r.rtype;
    }
  }

  lemma RegisterKeepsBucket(resources: map<string, Resource>, id: string, r: Resource, t: string)
    requires id in resources ==> resources[id].rtype == r.rtype
    requires t in IndexOf(resources[id := r]) && t in FileUnder(IndexOf(resources), r.rtype, id, r)
    ensures IndexOf(resources[id := r])[t] == FileUnder(IndexOf(resources), r.rtype, id, r)[t]
  {
    OfTypeAdd(resources, id, r, t);
    if t == r.rtype && t !in IndexOf(resources) {
      assert OfType(resources, t) == map[];
    }
    if t != r.rtype {
      assert OfType(resources, t) - {id} == OfType(resources, t);
    }
  }

  /** The loop of `load` that files every resource under its type, one at a
      time, into an index that starts empty. */
  method RebuildIndex(loaded: map<string, Resource>) returns (index: Index)
    ensures index == IndexOf(loaded)
  {
    index := map[];
    var remaining := loaded.Keys;
    ghost var done: map<string, Resource> := map[];
    assert IndexOf(done) == map[];
    while remaining != {}
      invariant remaining <= loaded.Keys
      invariant done.Keys == loaded.Keys - remaining
      invariant forall id :: id in done ==> done[id] == loaded[id]
      invariant index == IndexOf(done)
      decreases remaining
    {
      var resourceId :| resourceId in remaining;
      var resource := loaded[resourceId];
      var resourceType := resource.rtype;
      var bucket := if resourceType in index then index[resourceType] else map[];
      index := index[resourceType := bucket[resourceId := resource]];
      RegisterKeepsExact(done, resourceId, resource);
      done := done[resourceId := resource];
      remaining := remaining - {resourceId};
    }
    assert done == loaded;
  }

  /** Registering a known id under a different type than its current record
      has keeps the old entry in the index (next to the new one), whereas an
      index rebuilt from the updated resources files the id only under its
      new type. */
  lemma TypeChangeLeavesStaleEntry(resources: map<string, Resource>, index: Index, r: Resource)
    requires Consistent(resources, index)
    requires r.id in resources && r.rtype != resources[r.id].rtype
    ensures var first := resources[r.id];
            var after := FileUnder(index, r.rtype, r.id, r);
            && first.rtype in after && r.id in after[first.rtype]
            && after[first.rtype][r.id] == first
            && after != IndexOf(resources[r.id := r])
  {
    var t := resources[r.id].rtype;
    var rebuilt := IndexOf(resources[r.id := r]);
    assert t in rebuilt ==> r.id !in rebuilt[t];
  }

  /** `{**info, "created_at": now}`: the deployment info with its creation
      time set, every other key kept. */
  function Stamped(info: Record, now: int): (r: Record)
    ensures r.Keys == info.Keys + {"created_at"}
    ensures r["created_at"] == JNum(now)
    ensures forall k :: k in info && k != "created_at" ==> r[k] == info[k]
  {
    info["created_at" := JNum(now)]
  }

  /** `agent_memories[t][k] = v`, creating the agent's store when absent. */
  function Remember(mems: map<AgentType, map<string, Json>>, t: AgentType, k: string, v: Json)
    : map<AgentType, map<string, Json>>
  {
    mems[t := (if t in mems then mems[t] else map[])[k := v]]
  }

  /** `get_agent_memory(t, k, default)`. */
  function Recall(mems: map<AgentType, map<string, Json>>, t: AgentType, k: string, default: Json): Json {
    if t !in mems then default else if k in mems[t] then mems[t][k] else default
  }

  /** Reading a key gives the last value written under it, and writing one
      key of one agent leaves every other key of every agent as it was. */
  lemma {:induction false} RecallAfterRemember(mems: map<AgentType, map<string, Json>>,
                                               t: AgentType, k: string, v: Json,
                                               t': AgentType, k': string, default: Json)
    ensures Recall(Remember(mems, t, k, v), t', k', default) ==
            if t == t' && k == k' then v else Recall(mems, t', k', default)
  {
  }

  /** Nothing was written: every read gives the default. */
  lemma RecallEmpty(t: AgentType, k: string, default: Json)
    ensures Recall(map[], t, k, default) == default
  {
  }

  /** The document `save` writes and `load` reads. A missing top-level key
      reads as empty. Plans are never saved. */
  datatype Snapshot = Snapshot(
    resources: Option<map<string, Resource>>,
    deployments: Option<seq<Record>>,
    agentMemories: Option<map<AgentType, map<string, Json>>>)

  /** Everything a knowledge base holds, at one moment. */
  datatype KbState = KbState(
    resources: map<string, Resource>,
    resourcesByType: Index,
    deployments: seq<Record>,
    executionHistory: seq<ExecutionPlan>,
    agentMemories: map<AgentType, map<string, Json>>)

  /** What `save` writes from a state: resources, deployments and agent
      memories, but neither the index nor the plan history. */
  function SnapshotOf(st: KbState): Snapshot {
    Snapshot(Some(st.resources), Some(st.deployments), Some(st.agentMemories))
  }

  /** The state `load` leaves: the snapshot's resources, deployments and
      memories (empty where a key is missing), the index rebuilt from the
      resources alone and the plan history as it was. */
  function Loaded(snapshot: Snapshot, history: seq<ExecutionPlan>): (st: KbState)
    ensures Consistent(st.resources, st.resourcesByType) && NoStaleEntry(st.resources, st.resourcesByType)
    ensures st.executionHistory == history
  {
    var resources := snapshot.resources.GetOr(map[]);
    IndexOfConsistent(resources);
    KbState(resources, IndexOf(resources), snapshot.deployments.GetOr([]), history,
            snapshot.agentMemories.GetOr(map[]))
  }

  /** Saving and loading again restores the resources, deployments and
      memories; it restores the whole state exactly when no index entry is
      stale, since an entry left behind by a change of type is not rebuilt. */
  lemma SaveLoadRoundTrip(st: KbState)
    requires Consistent(st.resources, st.resourcesByType)
    ensures var back := Loaded(SnapshotOf(st), st.executionHistory);
            && back.resources == st.resources && back.deployments == st.deployments
            && back.agentMemories == st.agentMemories
            && (back == st <==> NoStaleEntry(st.resources, st.resourcesByType))
  {
    IndexMatchesRebuild(st.resources, st.resourcesByType);
  }

  class KnowledgeBase {
    var resources: map<string, Resource>
    var resourcesByType: Index
    var deployments: seq<Record>
    var executionHistory: seq<ExecutionPlan>
    var agentMemories: map<AgentType, map<string, Json>>

    ghost predicate Valid()
      reads this
    {
      Consistent(resources, resourcesByType)
    }

    function State(): KbState
      reads this
    {
      KbState(resources, resourcesByType, deployments, executionHistory, agentMemories)
    }

    constructor ()
      ensures Valid()
      ensures resources == map[] && resourcesByType == map[] && deployments == []
      ensures executionHistory == [] && agentMemories == map[]
    {
      resources := map[];
      resourcesByType := map[];
      deployments := [];
      executionHistory := [];
      agentMemories := map[];
    }

    /** `register_resource`: the id now maps to the new record, in
        `resources` and in its type's bucket; nothing else changes. */
    method RegisterResource(resourceType: string, resourceId: string, metadata: Record, now: int)
      requires Valid()
      modifies this
      ensures Valid()
      ensures resources == old(resources)[resourceId := Resource(resourceType, resourceId, metadata, now)]
      ensures resourcesByType ==
              FileUnder(old(resourcesByType), resourceType, resourceId, Resource(resourceType, resourceId, metadata, now))
      ensures deployments == old(deployments) && executionHistory == old(executionHistory)
      ensures agentMemories == old(agentMemories)
    {
      var record := Resource(resourceType, resourceId, metadata, now);
      RegisterKeepsConsistent(resources, resourcesByType, resourceId, record);
      resources := resources[resourceId := record];
      var bucket := if resourceType in resourcesByType then resourcesByType[resourceType] else map[];
      resourcesByType := resourcesByType[resourceType := bucket[resourceId := record]];
    }

    /** `get_resource`: the record, or None for an unknown id. */
    function GetResource(resourceId: string): (r: Option<Resource>)
      reads this
      ensures r.Some? <==> resourceId in resources
      ensures r.Some? ==> r.value == resources[resourceId]
    {
      if resourceId in resources then Some(resources[resourceId]) else None
    }

    /** `get_resources_by_type`: the type's bucket, or `{}` for an unknown
        type. Every record in it has that type, and every resource of that
        type is in it. */
    function GetResourcesByType(resourceType: string): (r: map<string, Resource>)
      reads this
      requires Valid()
      ensures resourceType !in resourcesByType ==> r == map[]
      ensures resourceType in resourcesByType ==> r == resourcesByType[resourceType]
      ensures forall id :: id in r ==> r[id].rtype == resourceType && id in resources
      ensures forall id :: id in resources && resources[id].rtype == resourceType ==>
                id in r && r[id] == resources[id]
    {
      if resourceType in resourcesByType then resourcesByType[resourceType] else map[]
    }

    /** `register_deployment`: appends the stamped record at the end and
        returns it; earlier records are unchanged. */
    method RegisterDeployment(info: Record, now: int) returns (record: Record)
      modifies this
      ensures record == Stamped(info, now)
      ensures deployments == old(deployments) + [record]
      ensures resources == old(resources) && resourcesByType == old(resourcesByType)
      ensures executionHistory == old(executionHistory) && agentMemories == old(agentMemories)
    {
      record := Stamped(info, now);
      deployments := deployments + [record];
    }

    /** `get_deployments`: a copy of the list. */
    function GetDeployments(): seq<Record>
      reads this
    {
      deployments
    }

    /** `add_execution_plan`: appends the plan to the history. */
    method AddExecutionPlan(plan: ExecutionPlan)
      modifies this
      ensures executionHistory == old(executionHistory) + [plan]
      ensures resources == old(resources) && resourcesByType == old(resourcesByType)
      ensures deployments == old(deployments) && agentMemories == old(agentMemories)
    {
      executionHistory := executionHistory + [plan];
    }

    /** `update_agent_memory`. */
    method UpdateAgentMemory(agentType: AgentType, key: string, value: Json)
      modifies this
      ensures agentMemories == Remember(old(agentMemories), agentType, key, value)
      ensures resources == old(resources) && resourcesByType == old(resourcesByType)
      ensures deployments == old(deployments) && executionHistory == old(executionHistory)
    {
      if agentType !in agentMemories {
        agentMemories := agentMemories[agentType := map[]];
      }
      agentMemories := agentMemories[agentType := agentMemories[agentType][key := value]];
    }

    /** `get_agent_memory`. */
    function GetAgentMemory(agentType: AgentType, key: string, default: Json): Json
      reads this
    {
      Recall(agentMemories, agentType, key, default)
    }

    /** `save`, as the document it writes. */
    function Save(): Snapshot
      reads this
    {
      SnapshotOf(State())
    }

    /** `load` once the file is read: takes the snapshot's resources,
        deployments and memories (empty where a key is missing) and rebuilds
        the index from the resources alone. The plan history is kept. */
    method Load(snapshot: Snapshot)
      modifies this
      ensures Valid()
      ensures State() == Loaded(snapshot, old(executionHistory))
    {
      var loaded := snapshot.resources.GetOr(map[]);
      var index := RebuildIndex(loaded);
      IndexOfConsistent(loaded);
      resources := loaded;
      resourcesByType := index;
      deployments := snapshot.deployments.GetOr([]);
      agentMemories := snapshot.agentMemories.GetOr(map[]);
    }
  }
}
