# Multi-agent DevOps orchestrator and confirmation-gated chat agent, in Dafny

This project models the core of a small DevOps automation system and proves properties of the model. It has two cores.

**The multi-agent orchestrator** (orchestrator/multi_agent_orchestrator.py):

- `AgentTask` is a status machine: pending, then running, then completed or failed.
- `ExecutionPlan` is a list of tasks with dependency ids. It answers "which tasks are runnable now" and "is the plan complete".
- `KnowledgeBase` holds a resource map with a secondary index by type, an append-only deployment list, the history of finished plans and per-agent memory. Its `load` rebuilds the index.
- Three keyword-routed agents (infrastructure, deployment, monitoring). Each claims a request by a lower-case substring match and simulates its work by writing into the knowledge base.
- `Orchestrator` routes a request to agents and builds a linear chain of tasks. Its scheduling loop runs every runnable task, round after round, until nothing is runnable. It then marks the plan completed or failed, files it in the history and retires it.

**The human-confirmation gate of the chat agent** (agent.py and its MCP copy agent_mcp/agent.py), plus the intent parser of main.py:

- `llm_node` is modelled as a pure transition. It takes the state (messages, pending action, awaiting flag) and the chat model's reply, which is an input here. It returns the node's update.
- A proposed `create_ec2_instance` call is stored, not made. It is replayed only after the user answers yes.
- `should_continue` routes the graph. `convert_message_to_dict` builds the chat API's message dicts.
- The MCP copy's wrapper forwards only the arguments that have a value.
- `parse_intent` recognises a request to launch an EC2 instance.

## Layout

- `values.dfy` (`Values`): `Option`, `Result` and the JSON values that results and metadata hold.
- `text.dfy` (`Text`): ASCII `str.lower()`, `str.capitalize()`, `str.strip()`, the `in` substring test and `str(n)`.
- `plans.dfy` (`Plans`): the `AgentTask` and `ExecutionPlan` classes. Scheduling is stated on `TaskView`, a snapshot of one task.
- `knowledge.dfy` (`Knowledge`): the `KnowledgeBase` class, index consistency, the rebuild in `load`, and the save/load round trip.
- `agents.dfy` (`Agents`): the three agents as a closed datatype, their keyword predicates, responses and knowledge-base writes.
- `orchestrator.dfy` (`Orchestration`): routing, plan creation, running one task, the scheduling loop and its outcome on a chain.
- `chatgate.dfy` (`ChatGate`): `llm_node`, `should_continue`, the message conversion and the gate invariant over a whole conversation. One definition serves both copies, through `Variant`.
- `intent.dfy` (`Intent`): `parse_intent`.

## How the model relates to the code

- The current second, `int(time.time())`, is the parameter `now` (`env.now` for a whole plan run). It stamps every id and timestamp.
- Whether an agent raises is an input: `env.raises` maps a task id to the exception's message. The mock agents themselves never raise. A missing agent makes a task fail as in the code.
- The scheduling loop is a `while` loop whose guard re-evaluates `get_next_runnable_tasks()`, instead of `while True` with a `break`. The query is pure, so the behaviour is the same.
- `_execute_plan` on an unknown id raises `ValueError`. This is modelled as `Failure("Plan <id> not found")` with nothing changed.
- `llm_node` and `should_continue` read `state['messages'][-1]`. On an empty conversation that raises `IndexError`, which is modelled as a `Failure`.
- A chain whose only failing task is the last one ends with every task terminal, so the plan is marked completed. A chain where an earlier task fails leaves later tasks pending, so the plan is marked failed. The code's comment calls that case one that "shouldn't happen", but it happens whenever a non-last task fails. `Orchestration.ChainOutcome` and `Orchestration.Orchestrator.ProcessRequest` state both cases.
- The loop's proof records, as ghost state, the round in which each task ran. It shows that every task ran only after the tasks it depends on had completed in an earlier round. Hence a set of pending tasks that wait only on one another (a task depending on itself, two tasks depending on each other, a longer cycle) is never run. Such a plan stops with those tasks pending and is marked failed (`Orchestration.ClosedSetStaysPending`).
- `register_resource` under a new type for an existing id leaves the old index entry in place. `load` rebuilds the index without it. So a save/load round trip restores the index only when no entry is stale (`Knowledge.SaveLoadRoundTrip`). The round trip is therefore not unconditional.

## Model

| member | source | states |
|---|---|---|
| Plans.AgentTask.constructor | orchestrator/multi_agent_orchestrator.py:33-44 | a new task keeps its id, type, description, parameters and dependencies; it is pending with no result and no start or end time |
| Plans.AgentTask.MarkStarted | orchestrator/multi_agent_orchestrator.py:46-48 | status becomes running and the start time is set; result and end time are unchanged |
| Plans.AgentTask.MarkCompleted | orchestrator/multi_agent_orchestrator.py:50-53 | status becomes completed, the result is the given dict and the end time is set |
| Plans.AgentTask.MarkFailed | orchestrator/multi_agent_orchestrator.py:55-58 | status becomes failed, the result is exactly `{"error": msg}` and the end time is set |
| Plans.CompletedIdsIff | orchestrator/multi_agent_orchestrator.py:81 | an id is a completed id exactly when some task with that id is completed |
| Plans.RunnablePrefix | orchestrator/multi_agent_orchestrator.py:82-85 | the positions returned are exactly the pending tasks whose every dependency is a completed id, each once, in plan order |
| Plans.ExecutionPlan.GetNextRunnableTasks | orchestrator/multi_agent_orchestrator.py:79-85 | returns the tasks at exactly those runnable positions, in plan order |
| Plans.BlockedByUnfinishedDependency | orchestrator/multi_agent_orchestrator.py:81-84 | a task with a dependency that names no completed task (failed, missing or unfinished) is never runnable |
| Plans.ExecutionPlan.IsComplete | orchestrator/multi_agent_orchestrator.py:87-89 | true exactly when every task is completed or failed, so an empty plan is complete |
| Plans.ExecutionPlan.MarkStarted | orchestrator/multi_agent_orchestrator.py:91-93 | the plan becomes running with its start time set |
| Plans.ExecutionPlan.MarkCompleted | orchestrator/multi_agent_orchestrator.py:95-97 | the plan becomes completed with its end time set |
| Plans.ExecutionPlan.MarkFailed | orchestrator/multi_agent_orchestrator.py:99-101 | the plan becomes failed with its end time set |
| Plans.PendingCountDrops | orchestrator/multi_agent_orchestrator.py:494-516 | when no task becomes pending and one pending task leaves pending, the number of pending tasks strictly drops, which is the loop's termination measure |
| Plans.PendingCountMonotone | orchestrator/multi_agent_orchestrator.py:494-516 | when no task becomes pending, the number of pending tasks does not grow |
| Knowledge.KnowledgeBase.constructor | orchestrator/multi_agent_orchestrator.py:113-124 | a new knowledge base is empty and consistent |
| Knowledge.KnowledgeBase.RegisterResource | orchestrator/multi_agent_orchestrator.py:126-142 | the id maps to the new record in the resources and in its type's bucket, which is created if absent; the index stays consistent; nothing else changes |
| Knowledge.RegisterKeepsConsistent | orchestrator/multi_agent_orchestrator.py:126-142 | registering keeps every resource filed under its own type, every entry under the type it records, and no bucket empty |
| Knowledge.OfTypeAdd | orchestrator/multi_agent_orchestrator.py:126-142 | adding a resource adds it to its own type's resources and removes its id from every other type's |
| Knowledge.TypeChangeLeavesStaleEntry | orchestrator/multi_agent_orchestrator.py:126-142 | for any consistent index: re-registering a known id under a different type keeps its old entry under the old type, so the index differs from the one rebuilt from the updated resources |
| Knowledge.KnowledgeBase.GetResource | orchestrator/multi_agent_orchestrator.py:144-147 | the record of a known id, None for an unknown one |
| Knowledge.KnowledgeBase.GetResourcesByType | orchestrator/multi_agent_orchestrator.py:149-152 | `{}` for an unknown type; otherwise the stored bucket itself, in which every record has that type and every resource of that type is present |
| Knowledge.Stamped | orchestrator/multi_agent_orchestrator.py:157-160 | the deployment record is the input with `created_at` set and every other key kept |
| Knowledge.KnowledgeBase.RegisterDeployment | orchestrator/multi_agent_orchestrator.py:154-166 | appends exactly the stamped record at the end, keeps earlier records and returns the new one |
| Knowledge.KnowledgeBase.AddExecutionPlan | orchestrator/multi_agent_orchestrator.py:173-179 | appends the plan to the history; nothing else changes |
| Knowledge.KnowledgeBase.UpdateAgentMemory | orchestrator/multi_agent_orchestrator.py:181-190 | the memories become the old ones with that agent's key set, creating the agent's store if absent |
| Knowledge.RecallAfterRemember | orchestrator/multi_agent_orchestrator.py:181-198 | a read gives the last value written under that agent and key; a write leaves every other key of every agent as it was |
| Knowledge.RecallEmpty | orchestrator/multi_agent_orchestrator.py:192-198 | with nothing written, every read gives the default |
| Knowledge.OfType | orchestrator/multi_agent_orchestrator.py:219-224 | the resources of one type are exactly the resources recording that type |
| Knowledge.IndexOf | orchestrator/multi_agent_orchestrator.py:216-224 | the rebuilt index has a type exactly when some resource has it, and under it exactly that type's resources |
| Knowledge.IndexOfConsistent | orchestrator/multi_agent_orchestrator.py:216-224 | a rebuilt index is consistent with its resources |
| Knowledge.RegisterKeepsExact | orchestrator/multi_agent_orchestrator.py:219-224 | filing a new id, or an id again under the same type, into a rebuilt index gives the rebuilt index of the larger map |
| Knowledge.RebuildIndex | orchestrator/multi_agent_orchestrator.py:216-224 | the loop of `load` files every resource under exactly its type and nothing else |
| Knowledge.IndexMatchesRebuild | orchestrator/multi_agent_orchestrator.py:126-142 | a consistent index equals the rebuilt one exactly when no entry was left behind by a change of type |
| Knowledge.Loaded | orchestrator/multi_agent_orchestrator.py:213-231 | the loaded state is consistent, has no stale entry and keeps the plan history |
| Knowledge.KnowledgeBase.Load | orchestrator/multi_agent_orchestrator.py:213-231 | takes the snapshot's resources, deployments and memories (empty when missing), rebuilds the index and keeps the history |
| Knowledge.SaveLoadRoundTrip | orchestrator/multi_agent_orchestrator.py:200-231 | saving then loading restores resources, deployments and memories, and restores the whole state exactly when no index entry is stale |
| Agents.AnyInIff | orchestrator/multi_agent_orchestrator.py:263-270 | the `any(keyword in text ...)` test holds exactly when some keyword of the list is a substring |
| Agents.CanHandleIff | orchestrator/multi_agent_orchestrator.py:263-270 | an agent claims a description exactly when one of its keywords is a substring of the lower-cased description |
| Agents.CanHandleIgnoresCase | orchestrator/multi_agent_orchestrator.py:263-270 | a description and its lower-case form are claimed by the same agents |
| Agents.CanHandleByOccurrence | orchestrator/multi_agent_orchestrator.py:263-270 | a keyword inside a longer word is enough |
| Agents.AgentFor | orchestrator/multi_agent_orchestrator.py:391-395 | exactly the infrastructure, deployment and monitoring types have an agent, registered under its own type |
| Agents.InfraKindOf | orchestrator/multi_agent_orchestrator.py:278-310 | the EC2 branch is taken exactly when the lower-cased description contains `ec2`; the S3 branch only when it does not and contains `s3` |
| Agents.WhoWritesWhat | orchestrator/multi_agent_orchestrator.py:272-380 | only the infrastructure agent registers resources, and only for EC2 or S3; the deployment agent records one deployment per task; monitoring writes nothing |
| Agents.ReportedIdIsRecorded | orchestrator/multi_agent_orchestrator.py:272-355 | the instance id, bucket name and deployment id a response reports are the ones written into the knowledge base |
| Agents.ResponseHasNoError | orchestrator/multi_agent_orchestrator.py:272-380 | no agent response has an `error` key |
| Agents.ApplyGrows | orchestrator/multi_agent_orchestrator.py:126-166 | an agent's write never removes a resource or deployment and never touches the history or memories |
| Agents.Execute | orchestrator/multi_agent_orchestrator.py:272-380 | `execute_task` returns the agent's response, applies exactly the agent's write and keeps the knowledge base consistent |
| Orchestration.Route | orchestrator/multi_agent_orchestrator.py:405-414 | the routed types are never empty and are in registry order; deployment and monitoring are routed exactly when they claim the request; infrastructure when it claims it or nobody does |
| Orchestration.AnalyzeRequest | orchestrator/multi_agent_orchestrator.py:402-414 | the same in terms of the agents' keyword predicates, and exactly `[INFRASTRUCTURE]` when no agent claims the request |
| Orchestration.TaskIdInjective | orchestrator/multi_agent_orchestrator.py:433 | task ids of one plan differ when their positions do |
| Orchestration.PlanName | orchestrator/multi_agent_orchestrator.py:423-424 | a non-empty given name is kept; otherwise the name is `Plan for: `, the first min(50, length) characters of the request, then `...` |
| Orchestration.PlannedViews | orchestrator/multi_agent_orchestrator.py:432-447 | one pending task per type with id `<plan>-task-i`, empty parameters and no result; the first depends on nothing, each other one exactly on the task before it; ids are distinct |
| Orchestration.Orchestrator.constructor | orchestrator/multi_agent_orchestrator.py:386-400 | a new orchestrator has an empty knowledge base and no active plan |
| Orchestration.Orchestrator.CreatePlan | orchestrator/multi_agent_orchestrator.py:416-456 | a fresh pending plan with id `plan-<now>`, the given or default name, and exactly the planned chain for the routed types |
| Orchestration.Orchestrator.NewPlan | orchestrator/multi_agent_orchestrator.py:449-454 | the plan holds distinct fresh tasks whose views are the planned chain |
| Orchestration.Orchestrator.NewTasks | orchestrator/multi_agent_orchestrator.py:432-447 | the loop makes one distinct fresh task per type, task i being the planned task i |
| Orchestration.Orchestrator.NewTask | orchestrator/multi_agent_orchestrator.py:433-446 | task i has id `<plan>-task-i` and depends on task i-1 only when i > 0 |
| Orchestration.Outcome | orchestrator/multi_agent_orchestrator.py:533-553 | the outcome is the agent's response exactly when the type has an agent and it does not raise |
| Orchestration.Settled | orchestrator/multi_agent_orchestrator.py:533-553 | a run task is terminal: completed with the response, or failed with `{"error": msg}`; its identity and dependencies are kept |
| Orchestration.FailsExactly | orchestrator/multi_agent_orchestrator.py:533-553 | a task fails exactly when its type has no agent or its agent raises; a failed result holds only `error`, a completed one never does |
| Orchestration.Orchestrator.ExecuteTask | orchestrator/multi_agent_orchestrator.py:533-553 | the task is started and left terminal, never running; the knowledge base gets the agent's write only on success and never shrinks; the exception never propagates |
| Orchestration.Orchestrator.ExecuteTaskAt | orchestrator/multi_agent_orchestrator.py:515-516 | running one task of a plan settles that task and changes no other task of the plan |
| Orchestration.SettleOneMore | orchestrator/multi_agent_orchestrator.py:515-516 | after k+1 tasks of a round have run, exactly the first k+1 dispatched tasks are settled |
| Orchestration.Orchestrator.RunRound | orchestrator/multi_agent_orchestrator.py:515-516 | one round settles exactly the tasks of the runnable set and leaves every other task unchanged |
| Orchestration.CompletedIdsGrow | orchestrator/multi_agent_orchestrator.py:81 | completed tasks stay completed, so the set of completed ids only grows |
| Orchestration.OnTrackUpToIff | orchestrator/multi_agent_orchestrator.py:494-516 | the loop's invariant, position by position: each task is untouched, or was pending and has been settled by its agent; the prerequisites of a settled task are among the completed ids of the current state (when they completed is `InOrder`'s part, see `RoundKeepsOrder`) |
| Orchestration.OnTrackIff | orchestrator/multi_agent_orchestrator.py:494-516 | the same for the whole plan |
| Orchestration.RoundKeepsOrder | orchestrator/multi_agent_orchestrator.py:79-85 | a round keeps the order invariant: a task run in round r depends only on ids of tasks completed in rounds before r, and so does every task run earlier |
| Orchestration.OnTrackAtStart | orchestrator/multi_agent_orchestrator.py:494 | the invariant holds before the first round |
| Orchestration.RoundKeepsProgress | orchestrator/multi_agent_orchestrator.py:500-516 | a round with a non-empty runnable set keeps the invariant and strictly lowers the number of pending tasks |
| Orchestration.Orchestrator.Advance | orchestrator/multi_agent_orchestrator.py:500-516 | one iteration keeps the invariant, the order invariant (under a new round number) and the knowledge base consistent, and lowers the pending count |
| Orchestration.Orchestrator.Conclude | orchestrator/multi_agent_orchestrator.py:503-512 | with nothing runnable, the plan is marked completed exactly when every task is terminal, failed otherwise |
| Orchestration.Orchestrator.Schedule | orchestrator/multi_agent_orchestrator.py:494-516 | the loop terminates with nothing runnable; every task is untouched or was run in a round after every one of its prerequisites had completed in an earlier round; the plan is completed exactly when all tasks are terminal |
| Orchestration.ClosedSetBelow | orchestrator/multi_agent_orchestrator.py:79-85 | by induction on the round: no task of a set whose members each wait on an id carried only inside the set runs in any round |
| Orchestration.ClosedSetStaysPending | orchestrator/multi_agent_orchestrator.py:494-512 | such a set (a cycle, a self-dependency, a prerequisite nobody provides) is still pending at the end, so a non-empty one leaves the plan incomplete and therefore failed |
| Orchestration.SelfDependencyBlocks | orchestrator/multi_agent_orchestrator.py:79-85 | a pending task that depends on its own (unique) id is never run and the plan is not complete |
| Orchestration.MutualDependencyBlocks | orchestrator/multi_agent_orchestrator.py:494-512 | two pending tasks depending on each other are both untouched at the end, so the plan is not complete |
| Orchestration.UnfinishedPrerequisiteBlocks | orchestrator/multi_agent_orchestrator.py:503-512 | a task with a prerequisite that never completed is still pending at the end, so the plan is not complete |
| Orchestration.FirstFailure | orchestrator/multi_agent_orchestrator.py:494-516 | the position of the first task that would fail: every earlier one succeeds |
| Orchestration.ChainResult | orchestrator/multi_agent_orchestrator.py:494-516 | in the expected end of a chain, tasks before the first failure are completed, that task failed and later ones untouched |
| Orchestration.ChainOutcome | orchestrator/multi_agent_orchestrator.py:494-516 | the loop on a chain ends exactly in that state; the plan is complete exactly when no task before the last fails |
| Orchestration.FinishedChain | orchestrator/multi_agent_orchestrator.py:494-516 | at the end of a chain, a task was run exactly when it is first or its predecessor completed, with the status its outcome gives |
| Orchestration.FinishedChainAt | orchestrator/multi_agent_orchestrator.py:501-503 | the same for one task: otherwise it would still be runnable |
| Orchestration.ReadyIfUntouched | orchestrator/multi_agent_orchestrator.py:82-85 | a pending chain task whose predecessor completed is runnable |
| Orchestration.ProgressStatus | orchestrator/multi_agent_orchestrator.py:533-553 | a run task keeps its id, leaves pending and ends with the status its outcome gives |
| Orchestration.PrerequisiteCompleted | orchestrator/multi_agent_orchestrator.py:82-85 | when a chain task's prerequisites are among the completed ids and ids are distinct, its predecessor is completed |
| Orchestration.ChainAt | orchestrator/multi_agent_orchestrator.py:494-516 | task i of a finished chain is completed before the first failure, failed at it and pending after it |
| Orchestration.PlannedChainEnds | orchestrator/multi_agent_orchestrator.py:402-447 | in a planned chain of registered types, every task ends terminal exactly when no task before the last raises |
| Orchestration.Orchestrator.GetPlanStatus | orchestrator/multi_agent_orchestrator.py:555-558 | the active plan with that id, None when there is none |
| Orchestration.Orchestrator.Retire | orchestrator/multi_agent_orchestrator.py:518-528 | the plan is appended to the history and leaves the active plans; the rest of the knowledge base is unchanged |
| Orchestration.Orchestrator.RunActive | orchestrator/multi_agent_orchestrator.py:483-531 | an active plan is started, scheduled to the end (every task run only after its prerequisites completed in an earlier round, completed exactly when all tasks are terminal), filed in the history and retired |
| Orchestration.Orchestrator.RunPlan | orchestrator/multi_agent_orchestrator.py:483-531 | an unknown id fails with nothing changed; otherwise the plan runs to its end in dependency order, ends completed exactly when all tasks are terminal, joins the history and `get_plan_status` returns None for it afterwards |
| Orchestration.Orchestrator.ExecutePlan | orchestrator/multi_agent_orchestrator.py:458-471 | without a thread, the plan becomes active, runs to its end in dependency order (completed exactly when all tasks are terminal), is returned and is no longer active |
| Orchestration.Orchestrator.ProcessRequest | orchestrator/multi_agent_orchestrator.py:560-567 | the planned chain ends with every task before the first failure completed and later ones pending; the plan is completed exactly when no task before the last raises |
| ChatGate.ApiToolCalls | agent.py:54-60 | one API tool call per call, with its id, type `function`, name and arguments |
| ChatGate.ToApiMessage | agent.py:41-82 | human becomes `user` and ai `assistant`; content is dropped exactly for an AI message with empty content and tool calls; tool calls appear exactly when an AI message has some |
| ChatGate.ApiMessages | agent.py:156 | the conversation converted message by message |
| ChatGate.FirstCall | agent.py:198-208 | None exactly when no call names the tool; otherwise a call of that tool |
| ChatGate.FirstCallIsFirst | agent.py:198-208 | the stored call is the first of the critical tool: every call before it names another tool |
| ChatGate.Confirm | agent.py:103-147 | the answer clears the pending action and the flag without calling the model; it replays exactly the pending call only on a yes with an action pending |
| ChatGate.CallModel | agent.py:149-249 | the model gets the converted conversation, without tools right after a successful launch; a critical call becomes pending and is never emitted; errors emit no call and clear the pending action |
| ChatGate.LlmNode | agent.py:84-249 | fails only on an empty conversation while awaiting; a critical call is emitted only as the replay of the pending call after a yes; while awaiting nothing is emitted |
| ChatGate.ShouldContinue | agent.py:253-267 | fails exactly on an empty conversation; routes to tools exactly when not awaiting and the last message is an AI message with tool calls |
| ChatGate.ConfirmedReplay | agent.py:106-125 | a yes with an action pending replays exactly the stored call and clears both fields |
| ChatGate.ConfirmedNothing | agent.py:126-136 | a yes with nothing pending asks the user to clarify and clears both fields |
| ChatGate.Declined | agent.py:137-147 | any other answer emits the refusal, no tool call, and clears both fields |
| ChatGate.AwaitingWithoutAnswer | agent.py:96-102 | awaiting with a non-human last message resets both fields and calls the model as usual |
| ChatGate.ProposalAwaitsConfirmation | agent.py:194-222 | a proposed critical call stores the first such call as pending, sets the flag and emits only the question |
| ChatGate.ErrorClears | agent.py:231-242 | a failing model call emits the error text, no tool call, and clears both fields |
| ChatGate.AfterLaunch | agent_mcp/agent.py:238-245 | after a successful launch no tool is offered; the MCP copy also drops the pending action, agent.py keeps it |
| ChatGate.StepKeepsInvariant | agent.py:84-249 | every step keeps the invariant: an action is pending exactly while awaiting, and it is a call of the critical tool |
| ChatGate.RunKeepsInvariant | agent.py:84-249 | so does every conversation from a state that keeps it |
| ChatGate.CriticalCallNeedsYes | agent.py:93-125 | in any state, a critical call routed to the tools is the pending action and follows the user's yes |
| ChatGate.ConversationKeepsGate | main.py:33-37 | in every state reached from the chat loop's start (the system prompt, nothing pending, not awaiting), an action is pending exactly while the agent awaits an answer, and it is a critical call |
| ChatGate.CleanArgs | agent_mcp/agent.py:107 | keeps exactly the arguments whose value is not None, whether left out or given as JSON `null` |
| ChatGate.McpCreateEc2 | agent_mcp/agent.py:95-108 | calls `create_ec2_instance` with exactly the parameters given a value other than None (`null`) |
| Text.Lower | main.py:77 | `str.lower()` within ASCII, character by character |
| Text.Strip | agent.py:104 | `str.strip()` cuts only whitespace on either side and leaves no whitespace at either end |
| Text.ContainsIff | main.py:78 | the substring test holds exactly when the text occurs at some position |
| Text.DecimalRoundTrip | orchestrator/multi_agent_orchestrator.py:433 | a printed counter reads back as itself, so distinct counters print differently |
| Intent.ParseIntent | main.py:76-80 | the result is one of the two intents, and `run_ec2_instance` exactly when `ec2` occurs at some position of the lower-cased text and `run` or `launch` occurs at some position too |
| Intent.ParseIgnoresCase | main.py:77 | the lower-cased text has the same intent |
| Intent.SubstringsSuffice | main.py:78 | any occurrence of `ec2` and `run`, even inside other words, gives `run_ec2_instance` |
| Intent.NoEc2NoIntent | main.py:78-80 | when `ec2` occurs nowhere in the lower-cased text, the intent is `unknown` |
| Intent.TwoWithoutEc2Example | main.py:78-80 | "run t2.micro" (a verb and a `2` but no `ec2`) gives `unknown` |
| Intent.PleaseRunExample | test_main.py:25 | "Please run an EC2 instance" gives `run_ec2_instance` |
| Intent.LaunchExample | test_main.py:26 | "Launch EC2 now" gives `run_ec2_instance` |
| Intent.SomethingElseExample | test_main.py:27 | "Something else" gives `unknown` |
| Intent.HiddenVerbExample | main.py:78 | "ec2 truncate" gives `run_ec2_instance`, since "truncate" contains "run" |

## Left out

- Threads and locks are not modelled: `RLock`, asynchronous `execute_plan` and `_execute_plan_thread`. One caller drives everything, so the loop's "plan was removed" check never fires.
- The error handling of `_execute_plan_thread` is not modelled: it logs and marks the plan failed. It runs only in a thread.
- `process_request` catches exceptions and returns `Error: ...`. In the sequential model nothing it calls can raise, so that path is left out.
- Clock values are not modelled as floats. `time.time()` is the natural-number parameter `now`, one value per plan run. `duration` and float timestamps are left out.
- Two ids created in the same second can collide. The model keeps this hazard, because ids are built from `now`, but proves nothing about collisions.
- File I/O and JSON encoding in `save`/`load` are not modelled. `save` is the snapshot it would write, and `load` is what it does with a snapshot already read; a read error is not modelled.
- A stored resource without a `type` key is not modelled. The rebuild loop in `load` (orchestrator/multi_agent_orchestrator.py:216-224) would raise `KeyError` there, after `resources` was already replaced and with the index half rebuilt; `Snapshot` holds typed `Resource` records, so it cannot express such a file.
- Orchestration.OnTrackUpToIff: states that a settled task's prerequisites are completed in the current state, not when the task ran; the order in time is stated by `InOrder`, which `Finished` includes.
- Orchestration.OnTrackIff: the same as `OnTrackUpToIff`, for the whole plan.
- Logging is left out.
- Foreign calls are left out: the OpenAI call (its reply is an input), `execute_tool_via_mcp`, boto3, LangGraph graph construction and `convert_to_openai_function`.
- MCP server registration on agents (`register_mcp_server`) stores a URL that nothing in the core reads, so it is left out.
- Strings are ASCII only: `lower`, `capitalize` and `strip` do not handle non-ASCII case or whitespace.
- Tool arguments are the `str()` text of each value. JSON encoding of arguments in `convert_message_to_dict` is not modelled.
- Task parameters are `map<string, string>`, not `Dict[str, Any]` (orchestrator/multi_agent_orchestrator.py:38). A non-string parameter value is not modelled, so the agents' metadata and deployment records hold only strings taken from parameters. `create_plan` always passes `{}` (orchestrator/multi_agent_orchestrator.py:444), so every planned task uses the defaults.
- A task object listed twice in one plan is excluded: the plan's tasks are distinct objects.
- Orchestration.NoAgentMessage: the type is rendered by its value. Python versions that format a `str` enum as `AgentType.SECURITY` in an f-string give a different text.
- ChatGate.LlmNode: an exception other than `APIError` is one input (`Raised`), including malformed tool-call arguments.
- ChatGate.McpCreateEc2: the wrapper's default values for parameters (such as `t2.micro`) come from its signature and are left to the caller.
