/** Tasks and execution plans (orchestrator/multi_agent_orchestrator.py,
    `AgentTask` and `ExecutionPlan`). A task's identity, agent type,
    parameters and dependencies never change after creation, so they are
    `const`; only its status, result and timestamps are updated in place.
    Timestamps are integer ticks supplied by the caller. */
module Plans {
  import opened Values

  /** `AgentType`, a `str` enum. */
  datatype AgentType = Infrastructure | Deployment | Monitoring | Security | Cost {
    /** The enum member's string value. */
    function Value(): string {
      match this
      case Infrastructure => "infrastructure"
      case Deployment => "deployment"
      case Monitoring => "monitoring"
      case Security => "security"
      case Cost => "cost"
    }
  }

  /** The status strings "pending", "running", "completed", "failed". */
  datatype Status = Pending | Running | Completed | Failed {
    predicate IsTerminal() {
      this == Completed || this == Failed
    }
  }

  /** `{"error": error}`, the result `mark_failed` stores. */
  function ErrorRecord(error: string): Record {
    map["error" := JStr(error)]
  }

  /** What a task looks like at one moment: its fixed attributes and its
      current status and result. */
  datatype TaskView = TaskView(
    id: string,
    agentType: AgentType,
    description: string,
    parameters: map<string, string>,
    dependsOn: seq<string>,
    status: Status,
    result: Option<Record>)

  class AgentTask {
    const id: string
    const agentType: AgentType
    const description: string
    const parameters: map<string, string>
    const dependsOn: seq<string>
    const createdAt: int
    var status: Status
    var result: Option<Record>
    var startedAt: Option<int>
    var completedAt: Option<int>

    /** A new task is pending, with no result and no start or end time. */
    constructor (id: string, agentType: AgentType, description: string,
                 parameters: map<string, string>, dependsOn: seq<string>, now: int)
      ensures this.id == id && this.agentType == agentType && this.description == description
      ensures this.parameters == parameters && this.dependsOn == dependsOn && createdAt == now
      ensures status == Pending && result == None && startedAt == None && completedAt == None
    {
      this.id := id;
      this.agentType := agentType;
      this.description := description;
      this.parameters := parameters;
      this.dependsOn := dependsOn;
      createdAt := now;
      status := Pending;
      result := None;
      startedAt := None;
      completedAt := None;
    }

    function View(): TaskView
      reads this
    {
      TaskView(id, agentType, description, parameters, dependsOn, status, result)
    }

    method MarkStarted(now: int)
      modifies this
      ensures status == Running && startedAt == Some(now)
      ensures result == old(result) && completedAt == old(completedAt)
    {
      status := Running;
      startedAt := Some(now);
    }

    method MarkCompleted(r: Record, now: int)
      modifies this
      ensures status == Completed && result == Some(r) && completedAt == Some(now)
      ensures startedAt == old(startedAt)
    {
      status := Completed;
      result := Some(r);
      completedAt := Some(now);
    }

    method MarkFailed(error: string, now: int)
      modifies this
      ensures status == Failed && result == Some(ErrorRecord(error)) && completedAt == Some(now)
      ensures startedAt == old(startedAt)
    {
      status := Failed;
      result := Some(ErrorRecord(error));
      completedAt := Some(now);
    }
  }

  /** The current views of a list of tasks, one per task, in order. */
  function ViewsOf(ts: seq<AgentTask>): (vs: seq<TaskView>)
    reads ts
    ensures |vs| == |ts|
    ensures forall i :: 0 <= i < |ts| ==> vs[i] == ts[i].View()
  {
    if ts == [] then [] else ViewsOf(ts[..|ts| - 1]) + [ts[|ts| - 1].View()]
  }

  // ---------------------------------------------------------------------
  // The two queries of `ExecutionPlan`, stated on task views.

  /** The ids of the tasks whose status is completed
      (`completed_task_ids` in `get_next_runnable_tasks`). */
  function CompletedIds(vs: seq<TaskView>): set<string> {
    if vs == [] then {}
    else
      var last := vs[|vs| - 1];
      CompletedIds(vs[..|vs| - 1]) + (if last.status == Completed then {last.id} else {})
  }

  /** An id is among the completed ids exactly when some completed task
      has it. */
  lemma {:induction false} CompletedIdsIff(vs: seq<TaskView>, d: string)
    ensures d in CompletedIds(vs) <==> exists i :: 0 <= i < |vs| && vs[i].status == Completed && vs[i].id == d
    decreases |vs|
  {
    if vs != [] {
      var n := |vs| - 1;
      CompletedIdsIff(vs[..n], d);
      if d in CompletedIds(vs[..n]) {
        var i :| 0 <= i < n && vs[..n][i].status == Completed && vs[..n][i].id == d;
        assert vs[i] == vs[..n][i];
      }
      if exists i :: 0 <= i < |vs| && vs[i].status == Completed && vs[i].id == d {
        var i :| 0 <= i < |vs| && vs[i].status == Completed && vs[i].id == d;
        if i < n {
          assert vs[..n][i] == vs[i];
        }
      }
    }
  }

  /** The id of a completed task is a completed id. */
  lemma CompletedIdOf(vs: seq<TaskView>, i: nat)
    requires i < |vs| && vs[i].status == Completed
    ensures vs[i].id in CompletedIds(vs)
  {
    CompletedIdsIff(vs, vs[i].id);
  }

  /** Task `i` is runnable: it is pending and every id it depends on is the
      id of some completed task. */
  predicate Ready(vs: seq<TaskView>, i: nat)
    requires i < |vs|
  {
    vs[i].status == Pending && forall d :: d in vs[i].dependsOn ==> d in CompletedIds(vs)
  }

  predicate StrictlyIncreasing(xs: seq<nat>) {
    forall a, b :: 0 <= a < b < |xs| ==> xs[a] < xs[b]
  }

  /** The positions among the first `n` tasks that are runnable, in plan
      order: exactly the runnable ones, each once, ascending. */
  function RunnablePrefix(vs: seq<TaskView>, n: nat): (r: seq<nat>)
    requires n <= |vs|
    ensures forall i: nat :: i in r <==> i < n && Ready(vs, i)
    ensures forall k :: 0 <= k < |r| ==> r[k] < n
    ensures StrictlyIncreasing(r)
  {
    if n == 0 then []
    else
      var prev := RunnablePrefix(vs, n - 1);
      assert forall k :: 0 <= k < |prev| ==> prev[k] in prev;
      prev + (if Ready(vs, n - 1) then [n - 1] else [])
  }

  /** The positions `get_next_runnable_tasks` returns. */
  function RunnableIndices(vs: seq<TaskView>): seq<nat> {
    RunnablePrefix(vs, |vs|)
  }

  /** `is_complete`: every task is completed or failed (so an empty plan is
      complete). */
  predicate AllTerminal(vs: seq<TaskView>) {
    forall i :: 0 <= i < |vs| ==> vs[i].status.IsTerminal()
  }

  /** The number of pending tasks: the measure the scheduling loop lowers. */
  function PendingCount(vs: seq<TaskView>): nat {
    if vs == [] then 0
    else PendingCount(vs[..|vs| - 1]) + (if vs[|vs| - 1].status == Pending then 1 else 0)
  }

  /** When no task becomes pending and at least one pending task leaves
      `pending`, the number of pending tasks strictly drops. */
  lemma {:induction false} PendingCountDrops(before: seq<TaskView>, after: seq<TaskView>, j: nat)
    requires |before| == |after| && j < |before|
    requires forall i :: 0 <= i < |after| && after[i].status == Pending ==> before[i].status == Pending
    requires before[j].status == Pending && after[j].status != Pending
    ensures PendingCount(after) < PendingCount(before)
    decreases |before|
  {
    var n := |before|;
    PendingCountMonotone(before[..n - 1], after[..n - 1]);
    if j < n - 1 {
      PendingCountDrops(before[..n - 1], after[..n - 1], j);
    }
  }

  /** When no task becomes pending, the number of pending tasks does not grow. */
  lemma {:induction false} PendingCountMonotone(before: seq<TaskView>, after: seq<TaskView>)
    requires |before| == |after|
    requires forall i :: 0 <= i < |after| && after[i].status == Pending ==> before[i].status == Pending
    ensures PendingCount(after) <= PendingCount(before)
    decreases |before|
  {
    if before != [] {
      PendingCountMonotone(before[..|before| - 1], after[..|after| - 1]);
    }
  }

  /** Task `i` whose dependency `d` names no completed task is not runnable:
      a failed, missing or still unfinished prerequisite blocks it. */
  lemma BlockedByUnfinishedDependency(vs: seq<TaskView>, i: nat, d: string)
    requires i < |vs| && d in vs[i].dependsOn
    requires forall j :: 0 <= j < |vs| && vs[j].id == d ==> vs[j].status != Completed
    ensures !Ready(vs, i) && i !in RunnableIndices(vs)
  {
    CompletedIdsIff(vs, d);
  }

  class ExecutionPlan {
    const id: string
    const name: string
    const description: string
    const tasks: seq<AgentTask>
    const createdAt: int
    var status: Status
    var startedAt: Option<int>
    var completedAt: Option<int>

    /** The plan's tasks are distinct objects. */
    ghost predicate Valid() {
      forall i, j :: 0 <= i < j < |tasks| ==> tasks[i] != tasks[j]
    }

    constructor (id: string, name: string, description: string, tasks: seq<AgentTask>, now: int)
      ensures this.id == id && this.name == name && this.description == description
      ensures this.tasks == tasks && createdAt == now
      ensures status == Pending && startedAt == None && completedAt == None
    {
      this.id := id;
      this.name := name;
      this.description := description;
      this.tasks := tasks;
      createdAt := now;
      status := Pending;
      startedAt := None;
      completedAt := None;
    }

    function Views(): (vs: seq<TaskView>)
      reads tasks
    {
      ViewsOf(tasks)
    }

    /** `get_next_runnable_tasks`: the runnable tasks, in plan order. */
    function GetNextRunnableTasks(): (r: seq<AgentTask>)
      reads tasks
      ensures |r| == |RunnableIndices(Views())|
      ensures forall k :: 0 <= k < |r| ==> r[k] == tasks[RunnableIndices(Views())[k]]
    {
      var idx := RunnableIndices(Views());
      seq(|idx|, k requires 0 <= k < |idx| => tasks[idx[k]])
    }

    /** `is_complete`. */
    function IsComplete(): (b: bool)
      reads tasks
      ensures b <==> AllTerminal(Views())
    {
      forall i :: 0 <= i < |tasks| ==> tasks[i].status.IsTerminal()
    }

    method MarkStarted(now: int)
      modifies this
      ensures status == Running && startedAt == Some(now) && completedAt == old(completedAt)
    {
      status := Running;
      startedAt := Some(now);
    }

    method MarkCompleted(now: int)
      modifies this
      ensures status == Completed && completedAt == Some(now) && startedAt == old(startedAt)
    {
      status := Completed;
      completedAt := Some(now);
    }

    method MarkFailed(now: int)
      modifies this
      ensures status == Failed && completedAt == Some(now) && startedAt == old(startedAt)
    {
      status := Failed;
      completedAt := Some(now);
    }
  }
}
