/** The orchestrator (orchestrator/multi_agent_orchestrator.py,
    `Orchestrator`): routing a request to agents, building a linear plan,
    running one task, and the scheduling loop of `_execute_plan`, run by a
    single caller (no threads). `env.now` is `int(time.time())` for the whole
    run and stamps every id and timestamp; `env.raises` lists the tasks whose
    agent raises, with the exception's message, which stands for the
    agent step the model cannot see into. */
module Orchestration {
  import opened Values
  import opened Text
  import opened Plans
  import opened Knowledge
  import opened Agents

  datatype Env = Env(now: nat, raises: map<string, string>)

  // ---------------------------------------------------------------------
  // Routing and plan creation.

  /** Position of a type in the registry; the unregistered types come last. */
  function Rank(t: AgentType): nat {
    match t
    case Infrastructure => 0
    case Deployment => 1
    case Monitoring => 2
    case Security => 3
    case Cost => 4
  }

  /** `analyze_request`: the types of the registered agents that claim the
      request, in registry order, or just infrastructure when none does. */
  function AnalyzeRequest(request: string): (r: seq<AgentType>)
    ensures r != []
    ensures forall t :: t in r ==> AgentFor(t).Some?
    ensures forall i, j :: 0 <= i < j < |r| ==> Rank(r[i]) < Rank(r[j])
    ensures Deployment in r <==> DeploymentAgent.CanHandle(request)
    ensures Monitoring in r <==> MonitoringAgent.CanHandle(request)
    ensures Infrastructure in r <==>
              InfrastructureAgent.CanHandle(request) ||
              (!DeploymentAgent.CanHandle(request) && !MonitoringAgent.CanHandle(request))
    ensures (!InfrastructureAgent.CanHandle(request) && !DeploymentAgent.CanHandle(request) &&
             !MonitoringAgent.CanHandle(request)) ==> r == [Infrastructure]
  {
    Route(InfrastructureAgent.CanHandle(request), DeploymentAgent.CanHandle(request),
          MonitoringAgent.CanHandle(request))
  }

  /** The types routed to, given which of the three agents claim the
      request: the claiming ones in registry order, or infrastructure when
      none does. */
  function Route(infra: bool, deploy: bool, monitor: bool): (r: seq<AgentType>)
    ensures r != []
    ensures forall t :: t in r ==> AgentFor(t).Some?
    ensures forall i, j :: 0 <= i < j < |r| ==> Rank(r[i]) < Rank(r[j])
    ensures Deployment in r <==> deploy
    ensures Monitoring in r <==> monitor
    ensures Infrastructure in r <==> infra || (!deploy && !monitor)
  {
    var matched :=
      (if infra then [Infrastructure] else []) +
      (if deploy then [Deployment] else []) +
      (if monitor then [Monitoring] else []);
    if matched == [] then [Infrastructure] else matched
  }

  function PlanId(now: nat): string {
    "plan-" + Decimal(now)
  }

  /** `f"{plan_id}-task-{i}"`. */
  function TaskId(planId: string, i: nat): string {
    planId + "-task-" + Decimal(i)
  }

  /** Task ids of one plan differ when their positions do. */
  lemma TaskIdInjective(planId: string, i: nat, j: nat)
    requires TaskId(planId, i) == TaskId(planId, j)
    ensures i == j
  {
    var n := |planId| + 6;
    assert TaskId(planId, i)[n..] == Decimal(i);
    assert TaskId(planId, j)[n..] == Decimal(j);
    DecimalInjective(i, j);
  }

  /** `agent_type.value.capitalize()`. */
  function Label(t: AgentType): string {
    Capitalized(t.Value())
  }

  function TaskDescription(t: AgentType, request: string): string {
    Label(t) + " task for: " + request
  }

  /** `plan_name`, or `f"Plan for: {request[:50]}..."` when it is None or
      empty. */
  function PlanName(request: string, planName: Option<string>): (name: string)
    ensures planName.Some? && planName.value != [] ==> name == planName.value
    ensures planName.None? || planName.value == [] ==>
              var kept := |name| - 13;
              && 0 <= kept <= 50 && kept <= |request| && (kept < 50 ==> kept == |request|)
              && name == "Plan for: " + request[..kept] + "..."
  {
    if planName.Some? && planName.value != [] then planName.value
    else "Plan for: " + request[..if |request| < 50 then |request| else 50] + "..."
  }

  /** Task `i` of the plan built for `types`. */
  function PlannedTask(types: seq<AgentType>, planId: string, request: string, i: nat): TaskView
    requires i < |types|
  {
    TaskView(TaskId(planId, i), types[i], TaskDescription(types[i], request), map[],
             if i == 0 then [] else [TaskId(planId, i - 1)], Pending, None)
  }

  /** A linear chain: every task is pending, the first depends on nothing,
      every other one on exactly the task before it, and no two tasks share
      an id. */
  ghost predicate IsChain(vs: seq<TaskView>) {
    && (forall i :: 0 <= i < |vs| ==> vs[i].status == Pending)
    && (forall i :: 0 <= i < |vs| ==> DependsOnPrevious(vs, i))
    && (forall i, j :: 0 <= i < j < |vs| ==> vs[i].id != vs[j].id)
  }

  /** Task `i` depends on nothing when it is first, and otherwise exactly on
      the task before it. */
  ghost predicate DependsOnPrevious(vs: seq<TaskView>, i: nat)
    requires i < |vs|
  {
    vs[i].dependsOn == if i == 0 then [] else [vs[i - 1].id]
  }

  /** The tasks `create_plan` builds: one per type, in order, as a chain. */
  function PlannedViews(types: seq<AgentType>, planId: string, request: string): (vs: seq<TaskView>)
    ensures |vs| == |types|
    ensures IsChain(vs)
    ensures forall i :: 0 <= i < |vs| ==>
              vs[i].id == TaskId(planId, i) && vs[i].agentType == types[i] &&
              vs[i].parameters == map[] && vs[i].result == None
  {
    var vs := seq(|types|, i requires 0 <= i < |types| => PlannedTask(types, planId, request, i));
    forall i | 0 <= i < |vs| ensures DependsOnPrevious(vs, i) {
      if i > 0 {
        assert vs[i - 1].id == TaskId(planId, i - 1);
      }
    }
    forall i, j | 0 <= i < j < |vs| ensures vs[i].id != vs[j].id {
      if vs[i].id == vs[j].id {
        TaskIdInjective(planId, i, j);
      }
    }
    vs
  }

  // ---------------------------------------------------------------------
  // Running one task.

  function NoAgentMessage(t: AgentType): string {
    "No agent available for type: " + t.Value()
  }

  /** The task's type has an agent and that agent does not raise. */
  predicate Succeeds(v: TaskView, env: Env) {
    AgentFor(v.agentType).Some? && v.id !in env.raises
  }

  /** What `_execute_task` records for a task: the agent's response, or the
      message of the exception raised when no agent is registered for the
      type or the agent raises. */
  function Outcome(v: TaskView, env: Env): (r: Result<Record, string>)
    ensures r.Success? <==> Succeeds(v, env)
  {
    match AgentFor(v.agentType)
    case None => Failure(NoAgentMessage(v.agentType))
    case Some(a) =>
      if v.id in env.raises then Failure(env.raises[v.id])
      else Success(Response(a, v.description, v.parameters, env.now))
  }

  /** The knowledge-base write of the task's agent, if one runs. */
  function TaskEffect(v: TaskView, now: nat): Effect {
    match AgentFor(v.agentType)
    case None => NoEffect
    case Some(a) => EffectOf(a, v.description, v.parameters, now)
  }

  /** The task once `_execute_task` has run it: terminal, with the outcome
      as its result, and everything else as it was. */
  function Settled(v: TaskView, env: Env): (s: TaskView)
    ensures s.status.IsTerminal()
    ensures s.id == v.id && s.agentType == v.agentType && s.description == v.description
    ensures s.parameters == v.parameters && s.dependsOn == v.dependsOn
    ensures s.status == Completed <==> Outcome(v, env).Success?
    ensures s.status == (if Succeeds(v, env) then Completed else Failed)
    ensures Outcome(v, env).Success? ==> s.result == Some(Outcome(v, env).value)
    ensures Outcome(v, env).Failure? ==> s.result == Some(ErrorRecord(Outcome(v, env).error))
  {
    match Outcome(v, env)
    case Success(r) => v.(status := Completed, result := Some(r))
    case Failure(e) => v.(status := Failed, result := Some(ErrorRecord(e)))
  }

  /** A task fails exactly when its type has no agent or its agent raises;
      a failed task's result holds the error and nothing else. */
  lemma FailsExactly(v: TaskView, env: Env)
    ensures Settled(v, env).status == Failed <==> AgentFor(v.agentType).None? || v.id in env.raises
    ensures Settled(v, env).status == Failed ==> Settled(v, env).result.value.Keys == {"error"}
    ensures Settled(v, env).status == Completed ==> "error" !in Settled(v, env).result.value
  {
    if Outcome(v, env).Success? {
      ResponseHasNoError(AgentFor(v.agentType).value, v.description, v.parameters, env.now);
    }
  }

  // ---------------------------------------------------------------------
  // What the scheduling loop guarantees, stated on task views.

  /** A task either was not touched, or was pending and has been run. */
  predicate Progress(v0: TaskView, v: TaskView, env: Env) {
    v == v0 || (v0.status == Pending && v == Settled(v0, env))
  }

  /** Every dependency of `v` is the id of a completed task. */
  predicate DepsDone(v: TaskView, vs: seq<TaskView>) {
    forall d :: d in v.dependsOn ==> d in CompletedIds(vs)
  }

  /** Each of the first `n` tasks either was not touched, or was pending
      and has been run after its prerequisites completed. */
  predicate OnTrackUpTo(initial: seq<TaskView>, vs: seq<TaskView>, env: Env, n: nat)
    requires |vs| == |initial| && n <= |initial|
    decreases n
  {
    n == 0 ||
    (&& OnTrackUpTo(initial, vs, env, n - 1)
     && Progress(initial[n - 1], vs[n - 1], env)
     && (vs[n - 1] != initial[n - 1] ==> DepsDone(initial[n - 1], vs)))
  }

  /** So far only pending tasks were run, each settled by its agent, and
      the prerequisites of every task run are completed now (`InOrder` says
      when). */
  predicate OnTrack(initial: seq<TaskView>, vs: seq<TaskView>, env: Env) {
    |vs| == |initial| && OnTrackUpTo(initial, vs, env, |initial|)
  }

  lemma {:induction false} OnTrackUpToIff(initial: seq<TaskView>, vs: seq<TaskView>, env: Env, n: nat)
    requires |vs| == |initial| && n <= |initial|
    ensures OnTrackUpTo(initial, vs, env, n) <==>
              && (forall i :: 0 <= i < n ==> Progress(initial[i], vs[i], env))
              && (forall i :: 0 <= i < n && vs[i] != initial[i] ==> DepsDone(initial[i], vs))
    decreases n
  {
    if n > 0 {
      OnTrackUpToIff(initial, vs, env, n - 1);
    }
  }

  /** Before the loop, no task has been run. */
  lemma OnTrackAtStart(initial: seq<TaskView>, env: Env)
    ensures OnTrack(initial, initial, env)
  {
    OnTrackIff(initial, initial, env);
  }

  /** Being on track, task by task. */
  lemma OnTrackIff(initial: seq<TaskView>, vs: seq<TaskView>, env: Env)
    ensures OnTrack(initial, vs, env) <==>
              && |vs| == |initial|
              && (forall i :: 0 <= i < |initial| ==> Progress(initial[i], vs[i], env))
              && (forall i :: 0 <= i < |initial| && vs[i] != initial[i] ==> DepsDone(initial[i], vs))
  {
    if |vs| == |initial| {
      OnTrackUpToIff(initial, vs, env, |initial|);
    }
  }

  /** The ids of the tasks that are completed and ran before round `r`,
      where `rank[k]` is the round in which task `k` ran (a task completed
      from the start counts as round 0). */
  ghost function CompletedBefore(vs: seq<TaskView>, rank: seq<nat>, r: nat): set<string>
    requires |rank| == |vs|
  {
    set k | 0 <= k < |vs| && vs[k].status == Completed && rank[k] < r :: vs[k].id
  }

  /** The order in which the loop ran the tasks: every prerequisite of a
      task that has been run is the id of a task that was completed in an
      earlier round. */
  ghost predicate InOrder(initial: seq<TaskView>, vs: seq<TaskView>, rank: seq<nat>) {
    && |vs| == |initial| && |rank| == |initial|
    && forall i, d :: 0 <= i < |initial| && vs[i] != initial[i] && d in initial[i].dependsOn ==>
         d in CompletedBefore(vs, rank, rank[i])
  }

  /** Every round number handed out so far is below `round`. */
  predicate RanksBelow(rank: seq<nat>, round: nat) {
    forall i :: 0 <= i < |rank| ==> rank[i] < round
  }

  /** The rounds after round `round` has run the tasks at `idx`. */
  ghost function Reranked(rank: seq<nat>, idx: seq<nat>, round: nat): (r: seq<nat>)
    ensures |r| == |rank|
    ensures forall i :: 0 <= i < |rank| ==> r[i] == if i in idx then round else rank[i]
  {
    seq(|rank|, i requires 0 <= i < |rank| => if i in idx then round else rank[i])
  }

  /** The loop has ended: it stayed on track, ran every task only after the
      tasks it depends on had completed, and nothing is runnable any more. */
  ghost predicate Finished(initial: seq<TaskView>, final: seq<TaskView>, env: Env) {
    && OnTrack(initial, final, env)
    && (exists rank :: InOrder(initial, final, rank))
    && RunnableIndices(final) == []
  }

  /** A completed task stays completed, so completed ids only accumulate. */
  lemma CompletedIdsGrow(before: seq<TaskView>, after: seq<TaskView>)
    requires |before| == |after|
    requires forall i :: 0 <= i < |before| && before[i].status == Completed ==> after[i] == before[i]
    ensures CompletedIds(before) <= CompletedIds(after)
  {
    forall d | d in CompletedIds(before) ensures d in CompletedIds(after) {
      CompletedIdsIff(before, d);
      var i :| 0 <= i < |before| && before[i].status == Completed && before[i].id == d;
      CompletedIdOf(after, i);
    }
  }

  /** One round of the loop: every runnable task is run, so the guarantees
      carry over and the number of pending tasks drops. */
  lemma RoundKeepsProgress(initial: seq<TaskView>, before: seq<TaskView>, after: seq<TaskView>, env: Env)
    requires OnTrack(initial, before, env) && |after| == |initial|
    requires RunnableIndices(before) != []
    requires forall i :: 0 <= i < |initial| ==>
               after[i] == if i in RunnableIndices(before) then Settled(before[i], env) else before[i]
    ensures OnTrack(initial, after, env)
    ensures PendingCount(after) < PendingCount(before)
  {
    OnTrackIff(initial, before, env);
    OnTrackIff(initial, after, env);
    var idx := RunnableIndices(before);
    CompletedIdsGrow(before, after);
    forall i | 0 <= i < |initial| && i in idx
      ensures before[i] == initial[i] && DepsDone(initial[i], before)
    {
      assert before[i].status == Pending;
    }
    assert idx[0] in idx;
    PendingCountDrops(before, after, idx[0]);
  }

  /** One round keeps the order: a task run in round `round` found each of
      its prerequisites completed by a task of an earlier round, and a
      completed task is not run again, so what held before still holds. */
  lemma RoundKeepsOrder(initial: seq<TaskView>, before: seq<TaskView>, after: seq<TaskView>, env: Env,
                        rank: seq<nat>, round: nat)
    requires OnTrack(initial, before, env) && InOrder(initial, before, rank) && RanksBelow(rank, round)
    requires |after| == |initial|
    requires forall i :: 0 <= i < |initial| ==>
               after[i] == if i in RunnableIndices(before) then Settled(before[i], env) else before[i]
    ensures InOrder(initial, after, Reranked(rank, RunnableIndices(before), round))
  {
    var idx := RunnableIndices(before);
    var next := Reranked(rank, idx, round);
    OnTrackIff(initial, before, env);
    forall i, d | 0 <= i < |initial| && after[i] != initial[i] && d in initial[i].dependsOn
      ensures d in CompletedBefore(after, next, next[i])
    {
      var k: nat;
      if i in idx {
        assert before[i].status == Pending;
        assert before[i] == initial[i];
        CompletedIdsIff(before, d);
        k :| 0 <= k < |before| && before[k].status == Completed && before[k].id == d;
      } else {
        assert d in CompletedBefore(before, rank, rank[i]);
        k :| 0 <= k < |before| && before[k].status == Completed && rank[k] < rank[i] && before[k].id == d;
      }
      assert k !in idx;
      assert after[k] == before[k] && next[k] == rank[k];
    }
  }

  /** A task that has been run depends on no task of `s` that ran in a
      round below `m`: the tasks of a closed set `s` stay untouched round
      after round. */
  lemma {:induction false} ClosedSetBelow(initial: seq<TaskView>, final: seq<TaskView>, rank: seq<nat>,
                                          s: set<nat>, m: nat)
    requires InOrder(initial, final, rank)
    requires forall k :: 0 <= k < |initial| ==> final[k].id == initial[k].id
    requires forall i :: i in s ==> i < |initial| && initial[i].status == Pending && DependsWithin(initial, s, i)
    ensures forall i :: i in s && rank[i] < m ==> final[i] == initial[i]
    decreases m
  {
    if m > 0 {
      ClosedSetBelow(initial, final, rank, s, m - 1);
      forall i | i in s && rank[i] == m - 1 ensures final[i] == initial[i] {
        var d :| d in initial[i].dependsOn && forall k :: 0 <= k < |initial| && initial[k].id == d ==> k in s;
        assert d !in CompletedBefore(final, rank, rank[i]);
      }
    }
  }

  /** Task `i` depends on an id that no task outside `s` carries (possibly
      none at all). */
  ghost predicate DependsWithin(initial: seq<TaskView>, s: set<nat>, i: nat)
    requires i < |initial|
  {
    exists d :: d in initial[i].dependsOn && forall k :: 0 <= k < |initial| && initial[k].id == d ==> k in s
  }

  /** A set of pending tasks each of which waits on a task of the same set
      (a task depending on itself, two tasks depending on each other, a
      longer cycle, or a prerequisite no task provides) is never run: its
      tasks are still pending at the end and the plan is not complete. */
  lemma ClosedSetStaysPending(initial: seq<TaskView>, final: seq<TaskView>, env: Env, s: set<nat>)
    requires Finished(initial, final, env)
    requires forall i :: i in s ==> i < |initial| && initial[i].status == Pending && DependsWithin(initial, s, i)
    ensures forall i :: i in s ==> final[i] == initial[i]
    ensures s != {} ==> !AllTerminal(final)
  {
    var rank :| InOrder(initial, final, rank);
    OnTrackIff(initial, final, env);
    forall k | 0 <= k < |initial| ensures final[k].id == initial[k].id {
      assert Progress(initial[k], final[k], env);
    }
    forall i | i in s ensures final[i] == initial[i] {
      ClosedSetBelow(initial, final, rank, s, rank[i] + 1);
    }
    if s != {} {
      var i :| i in s;
      assert final[i].status == Pending;
    }
  }

  /** A pending task that depends on itself, and on no other task carrying
      its id, is never run. */
  lemma SelfDependencyBlocks(initial: seq<TaskView>, final: seq<TaskView>, env: Env, i: nat)
    requires Finished(initial, final, env)
    requires i < |initial| && initial[i].status == Pending && initial[i].id in initial[i].dependsOn
    requires forall k :: 0 <= k < |initial| && initial[k].id == initial[i].id ==> k == i
    ensures final[i] == initial[i] && !AllTerminal(final)
  {
    assert DependsWithin(initial, {i}, i);
    ClosedSetStaysPending(initial, final, env, {i});
  }

  /** Two pending tasks that depend on each other: neither is run, so a
      plan made of them ends failed rather than completed. */
  lemma MutualDependencyBlocks(initial: seq<TaskView>, final: seq<TaskView>, env: Env)
    requires Finished(initial, final, env) && |initial| == 2
    requires initial[0].status == Pending && initial[1].status == Pending
    requires initial[1].id in initial[0].dependsOn && initial[0].id in initial[1].dependsOn
    ensures final == initial && !AllTerminal(final)
  {
    assert DependsWithin(initial, {0, 1}, 0);
    assert DependsWithin(initial, {0, 1}, 1);
    ClosedSetStaysPending(initial, final, env, {0, 1});
  }

  /** A task with a prerequisite that never completed is still pending at
      the end, and the plan is therefore not complete. */
  lemma UnfinishedPrerequisiteBlocks(initial: seq<TaskView>, final: seq<TaskView>, env: Env, i: nat, d: string)
    requires Finished(initial, final, env)
    requires i < |initial| && initial[i].status == Pending
    requires d in initial[i].dependsOn && d !in CompletedIds(final)
    ensures final[i] == initial[i] && !AllTerminal(final)
  {
    OnTrackIff(initial, final, env);
    assert !DepsDone(initial[i], final);
    assert final[i].status == Pending;
  }

  /** The position of the first task whose outcome is a failure, or the
      number of tasks when there is none. */
  function FirstFailure(vs: seq<TaskView>, env: Env): (f: nat)
    ensures f <= |vs|
    ensures forall i :: 0 <= i < f ==> Succeeds(vs[i], env)
    ensures f < |vs| ==> !Succeeds(vs[f], env)
  {
    if vs == [] then 0
    else if !Succeeds(vs[0], env) then 0
    else 1 + FirstFailure(vs[1..], env)
  }

  /** How a chain ends: the tasks up to the first failure have run, the
      rest are untouched. */
  function ChainResult(vs: seq<TaskView>, env: Env): (r: seq<TaskView>)
    ensures |r| == |vs|
    ensures forall i :: 0 <= i < |vs| ==>
              r[i] == if i <= FirstFailure(vs, env) then Settled(vs[i], env) else vs[i]
    ensures forall i :: 0 <= i < |vs| && i < FirstFailure(vs, env) ==> r[i].status == Completed
    ensures forall i :: 0 <= i < |vs| && i == FirstFailure(vs, env) ==> r[i].status == Failed
  {
    var f := FirstFailure(vs, env);
    seq(|vs|, i requires 0 <= i < |vs| => if i <= f then Settled(vs[i], env) else vs[i])
  }

  /** The loop run on a chain ends with every task before the first failure
      completed, the failing task failed and every later task still pending;
      the plan is complete exactly when no task failed. */
  lemma ChainOutcome(initial: seq<TaskView>, final: seq<TaskView>, env: Env)
    requires IsChain(initial) && Finished(initial, final, env)
    ensures final == ChainResult(initial, env)
    ensures AllTerminal(final) <==> FirstFailure(initial, env) + 1 >= |initial|
  {
    var f := FirstFailure(initial, env);
    OnTrackIff(initial, final, env);
    FinishedChain(initial, final, env);
    forall i | 0 <= i < |initial|
      ensures final[i] == if i <= f then Settled(initial[i], env) else initial[i]
    {
      ChainAt(initial, final, env, i);
      assert Progress(initial[i], final[i], env);
    }
    if f + 1 < |initial| {
      ChainAt(initial, final, env, f + 1);
    }
  }

  /** In a finished chain, task `j` was run exactly when it is the first
      task or the task before it completed. */
  predicate RanAfterPrevious(initial: seq<TaskView>, final: seq<TaskView>, j: nat)
    requires j < |initial| && |final| == |initial|
  {
    final[j] != initial[j] <==> j == 0 || final[j - 1].status == Completed
  }

  /** The status a task ends with: unchanged if it was not run, otherwise
      completed exactly when it succeeds. */
  predicate StatusAfter(v0: TaskView, v: TaskView, env: Env) {
    v.status == if v == v0 then v0.status else if Succeeds(v0, env) then Completed else Failed
  }

  /** At the end of the loop, a chain task that was run found its only
      prerequisite, the task before it, completed; and a task whose
      prerequisite completed cannot have been left pending, since nothing is
      runnable any more. */
  lemma FinishedChain(initial: seq<TaskView>, final: seq<TaskView>, env: Env)
    requires IsChain(initial) && Finished(initial, final, env)
    ensures forall j :: 0 <= j < |initial| ==> RanAfterPrevious(initial, final, j)
    ensures forall j :: 0 <= j < |initial| ==> StatusAfter(initial[j], final[j], env)
  {
    OnTrackIff(initial, final, env);
    forall k | 0 <= k < |initial|
      ensures StatusAfter(initial[k], final[k], env) && final[k].id == initial[k].id
      ensures final[k] == initial[k] || final[k].status != Pending
      ensures final[k] != initial[k] ==> DepsDone(initial[k], final)
    {
      ProgressStatus(initial[k], final[k], env);
    }
    forall j | 0 <= j < |initial| ensures RanAfterPrevious(initial, final, j) {
      assert DependsOnPrevious(initial, j);
      if final[j] != initial[j] && j > 0 {
        PrerequisiteCompleted(initial, final, j);
      }
      FinishedChainAt(initial, final, j);
    }
  }

  /** One task of a finished chain: it was run exactly when it is first or
      its prerequisite completed, since it would otherwise still be
      runnable. */
  lemma FinishedChainAt(initial: seq<TaskView>, final: seq<TaskView>, j: nat)
    requires |final| == |initial| && j < |initial|
    requires initial[j].status == Pending && DependsOnPrevious(initial, j)
    requires RunnableIndices(final) == []
    requires final[j] == initial[j] || final[j].status != Pending
    requires j > 0 ==> final[j - 1].id == initial[j - 1].id
    requires j > 0 && final[j] != initial[j] ==> final[j - 1].status == Completed
    ensures RanAfterPrevious(initial, final, j)
  {
    if j == 0 || final[j - 1].status == Completed {
      ReadyIfUntouched(initial, final, j);
      assert j !in RunnableIndices(final);
    }
  }

  /** A pending chain task whose prerequisite completed is runnable. */
  lemma ReadyIfUntouched(initial: seq<TaskView>, final: seq<TaskView>, j: nat)
    requires |final| == |initial| && j < |initial|
    requires initial[j].status == Pending && DependsOnPrevious(initial, j)
    requires j == 0 || (final[j - 1].status == Completed && final[j - 1].id == initial[j - 1].id)
    ensures final[j] == initial[j] ==> Ready(final, j)
  {
    if j > 0 {
      CompletedIdOf(final, j - 1);
    }
  }

  /** A run task keeps its id, leaves `pending` and ends with the status its
      outcome gives. */
  lemma ProgressStatus(v0: TaskView, v: TaskView, env: Env)
    requires Progress(v0, v, env)
    ensures StatusAfter(v0, v, env) && v.id == v0.id
    ensures v == v0 || v.status != Pending
  {
  }

  /** When the prerequisites of a chain task are among the completed ids and
      ids are distinct, the completed prerequisite is the task before it. */
  lemma PrerequisiteCompleted(initial: seq<TaskView>, final: seq<TaskView>, j: nat)
    requires |final| == |initial| && 0 < j < |initial|
    requires forall i, k :: 0 <= i < k < |initial| ==> initial[i].id != initial[k].id
    requires forall k :: 0 <= k < |initial| ==> final[k].id == initial[k].id
    requires DependsOnPrevious(initial, j) && DepsDone(initial[j], final)
    ensures final[j - 1].status == Completed
  {
    var prev := initial[j - 1].id;
    assert prev in initial[j].dependsOn;
    CompletedIdsIff(final, prev);
    var k :| 0 <= k < |final| && final[k].status == Completed && final[k].id == prev;
    assert initial[k].id == prev;
    assert k == j - 1;
  }

  /** Task `i` of a finished chain was run exactly when no earlier task
      failed, and ended completed before the first failure, failed at it and
      pending after it. */
  lemma {:induction false} ChainAt(initial: seq<TaskView>, final: seq<TaskView>, env: Env, i: nat)
    requires |final| == |initial| && i < |initial|
    requires forall j :: 0 <= j < |initial| ==> initial[j].status == Pending
    requires forall j :: 0 <= j < |initial| ==> StatusAfter(initial[j], final[j], env)
    requires forall j :: 0 <= j < |initial| ==> RanAfterPrevious(initial, final, j)
    ensures final[i] != initial[i] <==> i <= FirstFailure(initial, env)
    ensures final[i].status ==
              if i < FirstFailure(initial, env) then Completed
              else if i == FirstFailure(initial, env) then Failed
              else Pending
    decreases i
  {
    assert StatusAfter(initial[i], final[i], env);
    assert RanAfterPrevious(initial, final, i);
    if i > 0 {
      ChainAt(initial, final, env, i - 1);
    }
  }

  /** In a chain built by `create_plan` from registered types, only an
      agent that raises fails a task; the chain ends with every task terminal
      exactly when none of the tasks before the last one raises. */
  lemma PlannedChainEnds(types: seq<AgentType>, planId: string, request: string, env: Env)
    requires forall t :: t in types ==> AgentFor(t).Some?
    ensures var planned := PlannedViews(types, planId, request);
            FirstFailure(planned, env) + 1 >= |planned| <==>
            forall i :: 0 <= i < |types| - 1 ==> TaskId(planId, i) !in env.raises
  {
    var planned := PlannedViews(types, planId, request);
    var f := FirstFailure(planned, env);
    if f + 1 < |planned| {
      assert types[f] in types;
      assert !Succeeds(planned[f], env);
    } else {
      forall i | 0 <= i < |types| - 1 ensures TaskId(planId, i) !in env.raises {
        assert types[i] in types;
        assert Succeeds(planned[i], env);
      }
    }
  }

  /** One more dispatched task of a round settles: the views agree with
      "settled exactly at the first `k + 1` dispatched indices". */
  lemma SettleOneMore(before: seq<TaskView>, idx: seq<nat>, k: nat,
                      views: seq<TaskView>, after: seq<TaskView>, env: Env)
    requires k < |idx| && idx[k] < |before| && idx[k] !in idx[..k]
    requires |views| == |before| && |after| == |before|
    requires forall i :: 0 <= i < |before| ==>
               views[i] == if i in idx[..k] then Settled(before[i], env) else before[i]
    requires after == views[idx[k] := Settled(views[idx[k]], env)]
    ensures forall i :: 0 <= i < |before| ==>
              after[i] == if i in idx[..k + 1] then Settled(before[i], env) else before[i]
  {
    assert idx[..k + 1] == idx[..k] + [idx[k]];
  }

  // ---------------------------------------------------------------------
  // The orchestrator object.

  class Orchestrator {
    const kb: KnowledgeBase
    var activePlans: map<string, ExecutionPlan>

    ghost predicate Valid()
      reads this, kb
    {
      kb.Valid() && forall id :: id in activePlans ==> activePlans[id].Valid()
    }

    /** A fresh orchestrator with an empty knowledge base and no active plan. */
    constructor ()
      ensures Valid() && fresh(kb)
      ensures activePlans == map[]
      ensures kb.State() == KbState(map[], map[], [], [], map[])
    {
      kb := new KnowledgeBase();
      activePlans := map[];
    }

    /** `create_plan`: a new pending plan holding one new pending task per
        type `analyze_request` returns, chained in that order. */
    method CreatePlan(request: string, planName: Option<string>, now: nat) returns (plan: ExecutionPlan)
      ensures fresh(plan) && plan.Valid()
      ensures forall i :: 0 <= i < |plan.tasks| ==> fresh(plan.tasks[i])
      ensures plan.id == PlanId(now) && plan.name == PlanName(request, planName)
      ensures plan.description == request && plan.status == Pending
      ensures plan.Views() == PlannedViews(AnalyzeRequest(request), PlanId(now), request)
    {
      var types := AnalyzeRequest(request);
      plan := NewPlan(types, PlanId(now), PlanName(request, planName), request, now);
    }

    /** The plan `create_plan` builds for the given types. */
    method NewPlan(types: seq<AgentType>, planId: string, name: string, request: string, now: nat)
      returns (plan: ExecutionPlan)
      ensures fresh(plan) && plan.Valid()
      ensures forall i :: 0 <= i < |plan.tasks| ==> fresh(plan.tasks[i])
      ensures plan.id == planId && plan.name == name
      ensures plan.description == request && plan.status == Pending
      ensures plan.Views() == PlannedViews(types, planId, request)
    {
      var tasks := NewTasks(types, planId, request, now);
      plan := new ExecutionPlan(planId, name, request, tasks, now);
      ghost var planned := PlannedViews(types, planId, request);
      assert plan.tasks == tasks;
      assert forall j :: 0 <= j < |tasks| ==> plan.Views()[j] == planned[j];
    }

    /** The loop of `create_plan` that makes task `i` for the `i`-th type,
        depending on task `i - 1`. */
    method NewTasks(types: seq<AgentType>, planId: string, request: string, now: nat)
      returns (tasks: seq<AgentTask>)
      ensures forall j :: 0 <= j < |tasks| ==> fresh(tasks[j])
      ensures forall j, k :: 0 <= j < k < |tasks| ==> tasks[j] != tasks[k]
      ensures |tasks| == |types|
      ensures forall j :: 0 <= j < |tasks| ==> tasks[j].View() == PlannedTask(types, planId, request, j)
    {
      tasks := [];
      for i := 0 to |types|
        invariant |tasks| == i
        invariant forall j :: 0 <= j < i ==> fresh(tasks[j])
        invariant forall j, k :: 0 <= j < k < i ==> tasks[j] != tasks[k]
        invariant forall j :: 0 <= j < i ==> tasks[j].View() == PlannedTask(types, planId, request, j)
      {
        var task := NewTask(types, planId, request, i, now);
        tasks := tasks + [task];
      }
    }

    /** Task `i` of `create_plan`: `AgentTask(id=f"{plan_id}-task-{i}", ...)`. */
    method NewTask(types: seq<AgentType>, planId: string, request: string, i: nat, now: nat)
      returns (task: AgentTask)
      requires i < |types|
      ensures fresh(task)
      ensures task.View() == PlannedTask(types, planId, request, i)
    {
      var dependsOn := if i > 0 then [TaskId(planId, i - 1)] else [];
      task := new AgentTask(TaskId(planId, i), types[i], TaskDescription(types[i], request),
                            map[], dependsOn, now);
    }

    /** `_execute_task`: the task is started, then completed with the
        agent's response or failed with the error, never left running; the
        knowledge base receives the agent's write only when it succeeds. */
    method ExecuteTask(task: AgentTask, env: Env)
      requires kb.Valid()
      modifies task, kb
      ensures kb.Valid()
      ensures task.View() == Settled(old(task.View()), env)
      ensures task.startedAt == Some(env.now) && task.completedAt == Some(env.now)
      ensures kb.State() ==
              if Outcome(old(task.View()), env).Success?
              then Apply(old(kb.State()), TaskEffect(old(task.View()), env.now), env.now)
              else old(kb.State())
      ensures Grows(old(kb.State()), kb.State())
    {
      ApplyGrows(kb.State(), TaskEffect(task.View(), env.now), env.now);
      task.MarkStarted(env.now);
      var agent := AgentFor(task.agentType);
      if agent.None? {
        task.MarkFailed(NoAgentMessage(task.agentType), env.now);
      } else if task.id in env.raises {
        task.MarkFailed(env.raises[task.id], env.now);
      } else {
        var result := Execute(agent.value, kb, task.description, task.parameters, env.now);
        task.MarkCompleted(result, env.now);
      }
    }

    /** `_execute_task` on the task at position `j` of a plan: that task is
        settled and no other task of the plan changes. */
    method ExecuteTaskAt(plan: ExecutionPlan, task: AgentTask, ghost j: nat, env: Env)
      requires kb.Valid() && plan.Valid()
      requires j < |plan.tasks| && plan.tasks[j] == task
      modifies task, kb
      ensures kb.Valid() && Grows(old(kb.State()), kb.State())
      ensures plan.Views() == old(plan.Views())[j := Settled(old(plan.Views())[j], env)]
    {
      ghost var views := plan.Views();
      ExecuteTask(task, env);
      forall i | 0 <= i < |views| && i != j ensures plan.Views()[i] == views[i] {
        assert plan.tasks[i] != plan.tasks[j];
      }
    }

    /** The loop of `_execute_plan`: run every runnable task, again and
        again, until none is runnable; then the plan is completed when every
        task is terminal and failed otherwise. */
    method Schedule(plan: ExecutionPlan, env: Env)
      requires kb.Valid() && plan.Valid()
      modifies plan, plan.tasks, kb
      ensures kb.Valid() && Grows(old(kb.State()), kb.State())
      ensures Finished(old(plan.Views()), plan.Views(), env)
      ensures plan.status == if AllTerminal(plan.Views()) then Completed else Failed
      ensures plan.completedAt == Some(env.now) && plan.startedAt == old(plan.startedAt)
    {
      ghost var initial := plan.Views();
      ghost var kb0 := kb.State();
      ghost var rank: seq<nat> := seq(|initial|, i => 0);
      ghost var round: nat := 1;
      OnTrackAtStart(initial, env);
      while plan.GetNextRunnableTasks() != []
        invariant kb.Valid() && Grows(kb0, kb.State())
        invariant OnTrack(initial, plan.Views(), env)
        invariant InOrder(initial, plan.Views(), rank) && RanksBelow(rank, round)
        modifies plan.tasks, kb
        decreases PendingCount(plan.Views())
      {
        var next := plan.GetNextRunnableTasks();
        rank := Advance(plan, next, env, initial, rank, round);
        round := round + 1;
      }
      Conclude(plan, env, initial, rank);
    }

    /** One iteration of the loop: the runnable tasks are run, the loop
        stays on track and fewer tasks are pending. */
    method Advance(plan: ExecutionPlan, next: seq<AgentTask>, env: Env, ghost initial: seq<TaskView>,
                   ghost rank: seq<nat>, ghost round: nat)
      returns (ghost rank': seq<nat>)
      requires kb.Valid() && plan.Valid()
      requires OnTrack(initial, plan.Views(), env)
      requires InOrder(initial, plan.Views(), rank) && RanksBelow(rank, round)
      requires next == plan.GetNextRunnableTasks() && next != []
      modifies plan.tasks, kb
      ensures kb.Valid() && Grows(old(kb.State()), kb.State())
      ensures OnTrack(initial, plan.Views(), env)
      ensures InOrder(initial, plan.Views(), rank') && RanksBelow(rank', round + 1)
      ensures PendingCount(plan.Views()) < old(PendingCount(plan.Views()))
    {
      ghost var before := plan.Views();
      ghost var idx := RunnableIndices(before);
      RunRound(plan, next, env, before, idx);
      RoundKeepsProgress(initial, before, plan.Views(), env);
      RoundKeepsOrder(initial, before, plan.Views(), env, rank, round);
      rank' := Reranked(rank, idx, round);
    }

    /** The end of the loop: nothing is runnable any more; the plan is
        completed when every task is completed or failed, and failed
        otherwise. */
    method Conclude(plan: ExecutionPlan, env: Env, ghost initial: seq<TaskView>, ghost rank: seq<nat>)
      requires OnTrack(initial, plan.Views(), env) && InOrder(initial, plan.Views(), rank)
      requires plan.GetNextRunnableTasks() == []
      modifies plan
      ensures Finished(initial, plan.Views(), env)
      ensures plan.status == if AllTerminal(plan.Views()) then Completed else Failed
      ensures plan.completedAt == Some(env.now) && plan.startedAt == old(plan.startedAt)
      ensures plan.Views() == old(plan.Views())
    {
      ghost var final := plan.Views();
      assert RunnableIndices(final) == [];
      if plan.IsComplete() {
        plan.MarkCompleted(env.now);
      } else {
        plan.MarkFailed(env.now);
      }
      assert plan.Views() == final;
    }

    /** `for task in next_tasks: self._execute_task(task)`: each task of the
        runnable set is run once; no other task changes. */
    method RunRound(plan: ExecutionPlan, next: seq<AgentTask>, env: Env,
                    ghost before: seq<TaskView>, ghost idx: seq<nat>)
      requires kb.Valid() && plan.Valid()
      requires before == plan.Views() && idx == RunnableIndices(before)
      requires |next| == |idx| && forall k :: 0 <= k < |next| ==> next[k] == plan.tasks[idx[k]]
      modifies plan.tasks, kb
      ensures kb.Valid() && Grows(old(kb.State()), kb.State())
      ensures |plan.Views()| == |before|
      ensures forall i :: 0 <= i < |before| ==>
                plan.Views()[i] == if i in idx then Settled(before[i], env) else before[i]
    {
      var k := 0;
      while k < |next|
        invariant 0 <= k <= |next|
        invariant kb.Valid() && Grows(old(kb.State()), kb.State())
        invariant |plan.Views()| == |before|
        invariant forall i :: 0 <= i < |before| ==>
                    plan.Views()[i] == if i in idx[..k] then Settled(before[i], env) else before[i]
      {
        assert idx[k] !in idx[..k];
        ghost var views := plan.Views();
        ExecuteTaskAt(plan, next[k], idx[k], env);
        SettleOneMore(before, idx, k, views, plan.Views(), env);
        k := k + 1;
      }
      assert idx[..k] == idx;
    }

    /** `get_plan_status`: the active plan with that id, if any. */
    function GetPlanStatus(planId: string): (r: Option<ExecutionPlan>)
      reads this
      ensures r.Some? <==> planId in activePlans
      ensures r.Some? ==> r.value == activePlans[planId]
    {
      if planId in activePlans then Some(activePlans[planId]) else None
    }

    /** `_execute_plan`: an unknown id is reported as not found and nothing
        changes; otherwise the plan is started, scheduled to the end,
        appended to the history and dropped from the active plans. */
    method RunPlan(planId: string, env: Env) returns (r: Result<ExecutionPlan, string>)
      requires Valid()
      modifies this, kb
      modifies if planId in activePlans then {activePlans[planId]} else {}
      modifies if planId in activePlans then activePlans[planId].tasks else []
      ensures Valid()
      ensures planId !in old(activePlans) ==>
                r == Failure("Plan " + planId + " not found") &&
                activePlans == old(activePlans) && kb.State() == old(kb.State())
      ensures planId in old(activePlans) ==>
                var plan := old(activePlans)[planId];
                && r == Success(plan)
                && activePlans == old(activePlans) - {planId}
                && GetPlanStatus(planId) == None
                && Finished(old(plan.Views()), plan.Views(), env)
                && plan.status == (if AllTerminal(plan.Views()) then Completed else Failed)
                && plan.startedAt == Some(env.now) && plan.completedAt == Some(env.now)
                && kb.executionHistory == old(kb.executionHistory) + [plan]
                && old(kb.resources).Keys <= kb.resources.Keys
                && old(kb.deployments) <= kb.deployments
                && kb.agentMemories == old(kb.agentMemories)
    {
      if planId !in activePlans {
        return Failure("Plan " + planId + " not found");
      }
      var plan := activePlans[planId];
      RunActive(planId, plan, env);
      r := Success(plan);
    }

    /** `_execute_plan` for a plan that is active under `planId`. */
    method RunActive(planId: string, plan: ExecutionPlan, env: Env)
      requires Valid() && planId in activePlans && activePlans[planId] == plan
      modifies this, kb, plan, plan.tasks
      ensures Valid()
      ensures activePlans == old(activePlans) - {planId}
      ensures Finished(old(plan.Views()), plan.Views(), env)
      ensures plan.status == (if AllTerminal(plan.Views()) then Completed else Failed)
      ensures plan.startedAt == Some(env.now) && plan.completedAt == Some(env.now)
      ensures kb.executionHistory == old(kb.executionHistory) + [plan]
      ensures old(kb.resources).Keys <= kb.resources.Keys
      ensures old(kb.deployments) <= kb.deployments
      ensures kb.agentMemories == old(kb.agentMemories)
    {
      ghost var started := plan.Views();
      plan.MarkStarted(env.now);
      assert plan.Views() == started;
      Schedule(plan, env);
      ghost var final := plan.Views();
      assert Finished(started, final, env);
      Retire(planId, plan);
      assert plan.Views() == final;
    }

    /** The end of `_execute_plan`: the plan joins the execution history and
        leaves the active plans. */
    method Retire(planId: string, plan: ExecutionPlan)
      requires Valid() && planId in activePlans && activePlans[planId] == plan
      modifies this, kb
      ensures Valid()
      ensures activePlans == old(activePlans) - {planId}
      ensures kb.executionHistory == old(kb.executionHistory) + [plan]
      ensures kb.resources == old(kb.resources) && kb.resourcesByType == old(kb.resourcesByType)
      ensures kb.deployments == old(kb.deployments) && kb.agentMemories == old(kb.agentMemories)
    {
      kb.AddExecutionPlan(plan);
      activePlans := activePlans - {planId};
    }

    /** `execute_plan` without a thread: the plan becomes active under its
        id, is run to the end and is returned. */
    method ExecutePlan(plan: ExecutionPlan, env: Env) returns (r: ExecutionPlan)
      requires Valid() && plan.Valid()
      modifies this, kb, plan, plan.tasks
      ensures Valid()
      ensures r == plan
      ensures activePlans == old(activePlans) - {plan.id}
      ensures Finished(old(plan.Views()), plan.Views(), env)
      ensures plan.status == (if AllTerminal(plan.Views()) then Completed else Failed)
      ensures kb.executionHistory == old(kb.executionHistory) + [plan]
    {
      ghost var initial := plan.Views();
      activePlans := activePlans[plan.id := plan];
      assert plan.Views() == initial;
      var result := RunPlan(plan.id, env);
      r := result.value;
    }

    /** `process_request` without a thread: plan the request and run it. The
        chain runs up to its first failing task; as every type the router
        picks has an agent, a task fails only when its agent raises. */
    method ProcessRequest(request: string, env: Env) returns (plan: ExecutionPlan)
      requires Valid()
      modifies this, kb
      ensures Valid() && fresh(plan)
      ensures plan.id == PlanId(env.now) && plan.description == request
      ensures plan.Views() == ChainResult(PlannedViews(AnalyzeRequest(request), PlanId(env.now), request), env)
      ensures plan.status == Completed <==>
                forall i :: 0 <= i < |plan.tasks| - 1 ==> TaskId(PlanId(env.now), i) !in env.raises
      ensures plan.status.IsTerminal()
      ensures kb.executionHistory == old(kb.executionHistory) + [plan]
    {
      var created := CreatePlan(request, None, env.now);
      ghost var planned := created.Views();
      plan := ExecutePlan(created, env);
      ghost var final := plan.Views();
      ChainOutcome(planned, final, env);
      PlannedChainEnds(AnalyzeRequest(request), PlanId(env.now), request, env);
    }
  }
}
