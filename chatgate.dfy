/** The human-confirmation gate of the chat agent (agent.py and its MCP copy
    agent_mcp/agent.py): `llm_node` as a pure transition from the graph state
    and the chat model's reply to the node's state update, `should_continue`
    as the router of the graph, and the conversion of messages into the chat
    API's dicts. The two copies differ only in the name of the critical tool
    and in what happens after a successful launch, so one definition serves
    both, parameterised by a `Variant`. */
module ChatGate {
  import opened Values
  import opened Text

  /** Which copy of the agent: agent.py calls the LangChain tool
      `create_ec2_instance_tool`, agent_mcp/agent.py the MCP tool
      `create_ec2_instance`. */
  datatype Variant = Direct | Mcp

  /** The tool whose call needs the user's confirmation. */
  function CriticalTool(v: Variant): string {
    match v
    case Direct => "create_ec2_instance_tool"
    case Mcp => "create_ec2_instance"
  }

  /** Tool arguments after `json.loads`: each key with the `str()` text of
      its value. */
  type Args = seq<(string, string)>

  /** `{"name": ..., "args": ..., "id": ...}`; the pending action
      `{"tool_name", "tool_args", "tool_id"}` holds the same three parts. */
  datatype ToolCall = ToolCall(name: string, args: Args, id: string)

  /** The LangChain messages of the conversation. */
  datatype Message =
    | HumanMessage(content: string)
    | AiMessage(content: string, toolCalls: seq<ToolCall>)
    | ToolMessage(content: string, name: string, toolCallId: string)
    | SystemMessage(content: string)
    | FunctionMessage(content: string, name: string)

  /** `AgentState`: the conversation, the action awaiting confirmation and
      whether the agent waits for the user's yes or no. */
  datatype State = State(messages: seq<Message>, pending: Option<ToolCall>, awaiting: bool)

  /** A tool call in the chat API's format:
      `{"id", "type": "function", "function": {"name", "arguments"}}`. */
  datatype ApiToolCall = ApiToolCall(id: string, kind: string, name: string, arguments: Args)

  /** A message dict of the chat API; an absent key is `None`. */
  datatype ApiMessage = ApiMessage(
    role: string,
    content: Option<string>,
    toolCalls: Option<seq<ApiToolCall>>,
    toolCallId: Option<string>,
    name: Option<string>)

  /** What `llm_node` sends to the chat model: the converted conversation
      and whether any tool is offered. */
  datatype LlmRequest = LlmRequest(messages: seq<ApiMessage>, toolsOffered: bool)

  /** The chat model's answer, or the exception raised inside the `try`
      block (`APIError`, or any other exception, such as a tool call whose
      arguments are not valid JSON). */
  datatype Reply =
    | Answer(content: Option<string>, toolCalls: seq<ToolCall>)
    | ApiError(detail: string)
    | Raised(detail: string)

  /** The update `llm_node` returns: the one message it appends, the new
      pending action and flag, and the request sent to the chat model if it
      was called at all. */
  datatype NodeOutput = NodeOutput(
    message: Message,
    pending: Option<ToolCall>,
    awaiting: bool,
    request: Option<LlmRequest>)

  datatype Route = Tools | End

  /** Python's message for `state['messages'][-1]` on an empty list. */
  const IndexErrorMessage := "list index out of range"

  const Affirmatives: seq<string> := ["yes", "y", "proceed", "ok", "confirm", "do it"]

  const NoPendingText :=
    "It seems there was no specific action pending my confirmation. " +
    "Could you please clarify what you'd like to do or re-issue your command?"

  const DeclineText := "Okay, I will not proceed with that action. What would you like to do instead?"

  /** The user's reply counts as a yes: stripped and lower-cased, it is one
      of the six words. */
  predicate IsAffirmative(text: string) {
    Lower(Strip(text)) in Affirmatives
  }

  function LastMessage(messages: seq<Message>): Message
    requires messages != []
  {
    messages[|messages| - 1]
  }

  // ---------------------------------------------------------------------
  // convert_message_to_dict

  /** The `tool_calls` list of an assistant dict. */
  function ApiToolCalls(calls: seq<ToolCall>): (r: seq<ApiToolCall>)
    ensures |r| == |calls|
    ensures forall i :: 0 <= i < |calls| ==>
              r[i] == ApiToolCall(calls[i].id, "function", calls[i].name, calls[i].args)
  {
    seq(|calls|, i requires 0 <= i < |calls| =>
      ApiToolCall(calls[i].id, "function", calls[i].name, calls[i].args))
  }

  /** `convert_message_to_dict`. */
  function ToApiMessage(m: Message): (r: ApiMessage)
    ensures r.role == match m
                      case HumanMessage(_) => "user"
                      case AiMessage(_, _) => "assistant"
                      case ToolMessage(_, _, _) => "tool"
                      case SystemMessage(_) => "system"
                      case FunctionMessage(_, _) => "function"
    ensures r.content.None? <==> m.AiMessage? && m.content == [] && m.toolCalls != []
    ensures r.content.Some? ==> r.content.value == m.content
    ensures r.toolCalls.Some? <==> m.AiMessage? && m.toolCalls != []
    ensures r.toolCalls.Some? ==>
              && |r.toolCalls.value| == |m.toolCalls|
              && forall i :: 0 <= i < |m.toolCalls| ==>
                   && r.toolCalls.value[i].id == m.toolCalls[i].id
                   && r.toolCalls.value[i].name == m.toolCalls[i].name
                   && r.toolCalls.value[i].arguments == m.toolCalls[i].args
    ensures r.toolCallId.Some? <==> m.ToolMessage?
  {
    match m
    case HumanMessage(c) => ApiMessage("user", Some(c), None, None, None)
    case AiMessage(c, calls) =>
      if calls == [] then ApiMessage("assistant", Some(c), None, None, None)
      else ApiMessage("assistant", if c == [] then None else Some(c), Some(ApiToolCalls(calls)), None, None)
    case ToolMessage(c, n, id) => ApiMessage("tool", Some(c), None, Some(id), Some(n))
    case SystemMessage(c) => ApiMessage("system", Some(c), None, None, None)
    case FunctionMessage(c, n) => ApiMessage("function", Some(c), None, None, Some(n))
  }

  /** `[convert_message_to_dict(msg) for msg in state['messages']]`. */
  function ApiMessages(messages: seq<Message>): (r: seq<ApiMessage>)
    ensures |r| == |messages|
    ensures forall i :: 0 <= i < |messages| ==> r[i] == ToApiMessage(messages[i])
  {
    seq(|messages|, i requires 0 <= i < |messages| => ToApiMessage(messages[i]))
  }

  // ---------------------------------------------------------------------
  // llm_node

  /** The first call of the critical tool among the proposed calls (the loop
      with `break`). */
  function FirstCall(calls: seq<ToolCall>, name: string): (r: Option<ToolCall>)
    ensures r.None? <==> forall c :: c in calls ==> c.name != name
    ensures r.Some? ==> r.value in calls && r.value.name == name
  {
    if calls == [] then None
    else if calls[0].name == name then Some(calls[0])
    else FirstCall(calls[1..], name)
  }

  /** The stored call is the first one of the critical tool: every call
      before it names another tool. */
  lemma {:induction false} FirstCallIsFirst(calls: seq<ToolCall>, name: string)
    requires FirstCall(calls, name).Some?
    ensures exists i :: 0 <= i < |calls| && calls[i] == FirstCall(calls, name).value &&
                        forall j :: 0 <= j < i ==> calls[j].name != name
  {
    if calls[0].name != name {
      FirstCallIsFirst(calls[1..], name);
      var i :| 0 <= i < |calls[1..]| && calls[1..][i] == FirstCall(calls[1..], name).value &&
               forall j :: 0 <= j < i ==> calls[1..][j].name != name;
      assert calls[i + 1] == FirstCall(calls, name).value;
      forall j | 0 <= j < i + 1 ensures calls[j].name != name {
        if j > 0 {
          assert calls[j] == calls[1..][j - 1];
        }
      }
    } else {
      assert calls[0] == FirstCall(calls, name).value;
    }
  }

  /** `", ".join(f"{k}={v}" for k, v in args.items())`. */
  function ParamsSummary(args: Args): string {
    if args == [] then ""
    else if |args| == 1 then args[0].0 + "=" + args[0].1
    else args[0].0 + "=" + args[0].1 + ", " + ParamsSummary(args[1..])
  }

  function ConfirmationQuestion(c: ToolCall): string {
    "I am about to perform the action: " + c.name + " with parameters: " +
    ParamsSummary(c.args) + ". Shall I proceed?"
  }

  /** The last message reports a successful launch by the critical tool. */
  predicate LaunchedSuccessfully(v: Variant, messages: seq<Message>) {
    && messages != []
    && LastMessage(messages).ToolMessage?
    && LastMessage(messages).name == CriticalTool(v)
    && Contains(Lower(LastMessage(messages).content), "launched successfully")
  }

  /** The user's answer to the confirmation question. */
  function Confirm(text: string, pending: Option<ToolCall>): (out: NodeOutput)
    ensures out.pending == None && !out.awaiting && out.request == None
    ensures out.message.AiMessage?
    ensures out.message.toolCalls == if IsAffirmative(text) && pending.Some? then [pending.value] else []
  {
    if IsAffirmative(text) then
      if pending.Some? then
        NodeOutput(AiMessage("Okay, proceeding with the action: " + pending.value.name + ".", [pending.value]),
                   None, false, None)
      else
        NodeOutput(AiMessage(NoPendingText, []), None, false, None)
    else
      NodeOutput(AiMessage(DeclineText, []), None, false, None)
  }

  /** The normal path: call the chat model, whose reply is `reply`, and
      turn a proposed call of the critical tool into a question. The agent
      is not awaiting confirmation on this path; `pending` is the action the
      state still holds. */
  function CallModel(v: Variant, messages: seq<Message>, pending: Option<ToolCall>, reply: Reply)
    : (out: NodeOutput)
    ensures out.message.AiMessage?
    ensures out.request == Some(LlmRequest(ApiMessages(messages), !LaunchedSuccessfully(v, messages)))
    ensures forall c :: c in out.message.toolCalls ==> c.name != CriticalTool(v)
    ensures out.awaiting <==> reply.Answer? && FirstCall(reply.toolCalls, CriticalTool(v)).Some?
    ensures out.awaiting ==> out.message.toolCalls == [] &&
                             out.pending == FirstCall(reply.toolCalls, CriticalTool(v))
    ensures !reply.Answer? ==> out.message.toolCalls == [] && out.pending == None
    ensures reply.Answer? && !out.awaiting ==>
              out.message.toolCalls == reply.toolCalls &&
              out.pending == if LaunchedSuccessfully(v, messages) && v == Mcp then None else pending
  {
    var launched := LaunchedSuccessfully(v, messages);
    var request := LlmRequest(ApiMessages(messages), !launched);
    var kept := if launched && v == Mcp then None else pending;
    match reply
    case ApiError(detail) =>
      NodeOutput(AiMessage("LLM API Error: " + detail, []), None, false, Some(request))
    case Raised(detail) =>
      NodeOutput(AiMessage("An unexpected error occurred in the LLM node: " + detail, []), None, false, Some(request))
    case Answer(content, calls) =>
      var critical := FirstCall(calls, CriticalTool(v));
      if critical.Some? then
        NodeOutput(AiMessage(ConfirmationQuestion(critical.value), []), critical, true, Some(request))
      else
        NodeOutput(AiMessage(content.GetOr(""), calls), kept, false, Some(request))
  }

  /** `llm_node`. Its only way to fail is reading the last message of an
      empty conversation while awaiting confirmation. A call of the critical
      tool leaves the node only as the replay of the pending action after
      the user said yes, and while the node awaits an answer it emits no
      tool call at all. */
  function LlmNode(v: Variant, s: State, reply: Reply): (r: Result<NodeOutput, string>)
    ensures r.Failure? <==> s.awaiting && s.messages == []
    ensures r.Success? ==> r.value.message.AiMessage?
    ensures r.Success? && (exists c :: c in r.value.message.toolCalls && c.name == CriticalTool(v)) ==>
              && s.awaiting && s.messages != []
              && LastMessage(s.messages).HumanMessage?
              && IsAffirmative(LastMessage(s.messages).content)
              && s.pending.Some?
              && r.value.message.toolCalls == [s.pending.value]
              && r.value.pending == None && !r.value.awaiting
    ensures r.Success? && r.value.awaiting ==>
              r.value.message.toolCalls == [] &&
              r.value.pending.Some? && r.value.pending.value.name == CriticalTool(v)
  {
    if s.awaiting && s.messages == [] then
      Failure(IndexErrorMessage)
    else if s.awaiting && LastMessage(s.messages).HumanMessage? then
      Success(Confirm(LastMessage(s.messages).content, s.pending))
    else
      Success(CallModel(v, s.messages, if s.awaiting then None else s.pending, reply))
  }

  /** `add_messages` and the two flags of the update: the state after the
      node has run. */
  function Apply(s: State, out: NodeOutput): State {
    State(s.messages + [out.message], out.pending, out.awaiting)
  }

  /** `should_continue`: end the turn while awaiting the user, run the tools
      when the last message is an AI message with tool calls, end otherwise.
      The last message is read first, so an empty conversation raises. */
  function ShouldContinue(s: State): (r: Result<Route, string>)
    ensures r.Failure? <==> s.messages == []
    ensures r.Success? ==>
              (r.value == Tools <==>
                 !s.awaiting && LastMessage(s.messages).AiMessage? && LastMessage(s.messages).toolCalls != [])
  {
    if s.messages == [] then Failure(IndexErrorMessage)
    else if s.awaiting then Success(End)
    else if LastMessage(s.messages).AiMessage? && LastMessage(s.messages).toolCalls != [] then Success(Tools)
    else Success(End)
  }

  // ---------------------------------------------------------------------
  // The branches of llm_node, one lemma each.

  /** A yes with a pending action replays exactly the stored call and
      clears the pending state, without calling the chat model. */
  lemma ConfirmedReplay(v: Variant, s: State, reply: Reply)
    requires s.awaiting && s.messages != [] && LastMessage(s.messages).HumanMessage?
    requires IsAffirmative(LastMessage(s.messages).content) && s.pending.Some?
    ensures LlmNode(v, s, reply) ==
              Success(NodeOutput(AiMessage("Okay, proceeding with the action: " + s.pending.value.name + ".",
                                           [s.pending.value]),
                                 None, false, None))
  {
  }

  /** A yes with nothing pending asks the user to clarify. */
  lemma ConfirmedNothing(v: Variant, s: State, reply: Reply)
    requires s.awaiting && s.messages != [] && LastMessage(s.messages).HumanMessage?
    requires IsAffirmative(LastMessage(s.messages).content) && s.pending.None?
    ensures LlmNode(v, s, reply) == Success(NodeOutput(AiMessage(NoPendingText, []), None, false, None))
  {
  }

  /** Any other reply cancels the pending action. */
  lemma Declined(v: Variant, s: State, reply: Reply)
    requires s.awaiting && s.messages != [] && LastMessage(s.messages).HumanMessage?
    requires !IsAffirmative(LastMessage(s.messages).content)
    ensures LlmNode(v, s, reply) == Success(NodeOutput(AiMessage(DeclineText, []), None, false, None))
  {
  }

  /** Awaiting, but the last message is not the user's: both flags are
      reset and the node calls the chat model as usual. */
  lemma AwaitingWithoutAnswer(v: Variant, s: State, reply: Reply)
    requires s.awaiting && s.messages != [] && !LastMessage(s.messages).HumanMessage?
    ensures LlmNode(v, s, reply) == Success(CallModel(v, s.messages, None, reply))
  {
  }

  /** A proposed critical call is stored, not made: the first such call
      becomes pending and the emitted message asks for confirmation. */
  lemma ProposalAwaitsConfirmation(v: Variant, s: State, content: Option<string>, calls: seq<ToolCall>, i: nat)
    requires !s.awaiting || (s.messages != [] && !LastMessage(s.messages).HumanMessage?)
    requires i < |calls| && calls[i].name == CriticalTool(v)
    ensures var r := LlmNode(v, s, Answer(content, calls));
            && r.Success?
            && r.value.awaiting
            && r.value.message.toolCalls == []
            && r.value.pending == FirstCall(calls, CriticalTool(v))
            && r.value.message.content == ConfirmationQuestion(r.value.pending.value)
  {
    assert calls[i] in calls;
    var out := CallModel(v, s.messages, if s.awaiting then None else s.pending, Answer(content, calls));
    assert LlmNode(v, s, Answer(content, calls)) == Success(out);
  }

  /** A failing chat call emits the error text and clears the pending state. */
  lemma ErrorClears(v: Variant, s: State, reply: Reply)
    requires !s.awaiting || (s.messages != [] && !LastMessage(s.messages).HumanMessage?)
    requires !reply.Answer?
    ensures var r := LlmNode(v, s, reply);
            && r.Success?
            && r.value.message.toolCalls == []
            && r.value.pending == None && !r.value.awaiting
            && r.value.message.content ==
                 if reply.ApiError? then "LLM API Error: " + reply.detail
                 else "An unexpected error occurred in the LLM node: " + reply.detail
  {
  }

  /** After a successful launch no tool is offered to the chat model; the
      MCP copy also forgets any pending action, agent.py keeps it. */
  lemma AfterLaunch(v: Variant, s: State, content: Option<string>, calls: seq<ToolCall>)
    requires !s.awaiting && LaunchedSuccessfully(v, s.messages)
    requires forall i :: 0 <= i < |calls| ==> calls[i].name != CriticalTool(v)
    ensures var r := LlmNode(v, s, Answer(content, calls));
            && r.Success?
            && r.value.request.Some? && !r.value.request.value.toolsOffered
            && r.value.pending == (if v == Mcp then None else s.pending)
            && !r.value.awaiting
  {
  }

  // ---------------------------------------------------------------------
  // The gate over a whole conversation.

  /** What the graph's state keeps between turns: an action is pending
      exactly while the agent awaits the user, and it is always a call of
      the critical tool. */
  predicate GateInvariant(v: Variant, s: State) {
    && (s.pending.Some? <==> s.awaiting)
    && (s.pending.Some? ==> s.pending.value.name == CriticalTool(v))
  }

  /** One thing that happens to the conversation: the user writes, the
      `llm` node runs with the chat model's reply, or the `tools` node
      appends a tool's result. */
  datatype Event =
    | UserSays(text: string)
    | NodeRuns(reply: Reply)
    | ToolReturns(content: string, name: string, toolCallId: string)

  function Step(v: Variant, s: State, e: Event): Result<State, string> {
    match e
    case UserSays(text) => Success(State(s.messages + [HumanMessage(text)], s.pending, s.awaiting))
    case NodeRuns(reply) =>
      var r := LlmNode(v, s, reply);
      if r.Failure? then Failure(r.error) else Success(Apply(s, r.value))
    case ToolReturns(content, name, id) =>
      Success(State(s.messages + [ToolMessage(content, name, id)], s.pending, s.awaiting))
  }

  function Run(v: Variant, s: State, events: seq<Event>): Result<State, string>
    decreases |events|
  {
    if events == [] then Success(s)
    else
      var next := Step(v, s, events[0]);
      if next.Failure? then next else Run(v, next.value, events[1..])
  }

  /** Every step keeps the invariant. */
  lemma StepKeepsInvariant(v: Variant, s: State, e: Event)
    requires GateInvariant(v, s)
    ensures Step(v, s, e).Success? ==> GateInvariant(v, Step(v, s, e).value)
  {
  }

  /** So does every conversation that starts from a state that keeps it,
      such as the initial state with nothing pending. */
  lemma {:induction false} RunKeepsInvariant(v: Variant, s: State, events: seq<Event>)
    requires GateInvariant(v, s)
    ensures Run(v, s, events).Success? ==> GateInvariant(v, Run(v, s, events).value)
    decreases |events|
  {
    if events != [] {
      StepKeepsInvariant(v, s, events[0]);
      var next := Step(v, s, events[0]);
      if next.Success? {
        RunKeepsInvariant(v, next.value, events[1..]);
      }
    }
  }

  /** In any state, the node's output is routed to the tools with a
      critical call in it only when that call is the action the user was
      asked about and answered yes to. */
  lemma CriticalCallNeedsYes(v: Variant, s: State, reply: Reply, c: ToolCall)
    requires LlmNode(v, s, reply).Success?
    requires c in LlmNode(v, s, reply).value.message.toolCalls && c.name == CriticalTool(v)
    ensures ShouldContinue(Apply(s, LlmNode(v, s, reply).value)) == Success(Tools)
    ensures s.awaiting && s.pending == Some(c)
    ensures LastMessage(s.messages).HumanMessage? && IsAffirmative(LastMessage(s.messages).content)
  {
  }

  /** The chat loop starts from the system prompt with nothing pending;
      in every state a conversation reaches from there, an action is
      pending exactly while the agent awaits an answer, and that action is
      a call of the critical tool. */
  lemma ConversationKeepsGate(v: Variant, prompt: string, events: seq<Event>, s: State)
    requires Run(v, State([SystemMessage(prompt)], None, false), events) == Success(s)
    ensures s.pending.Some? <==> s.awaiting
    ensures s.awaiting ==> s.pending.value.name == CriticalTool(v)
  {
    RunKeepsInvariant(v, State([SystemMessage(prompt)], None, false), events);
  }

  // ---------------------------------------------------------------------
  // create_ec2_structured_tool_func (agent_mcp/agent.py)

  /** The sixteen parameters of the MCP tool, in the order of `args_dict`. */
  const Ec2ParamNames: seq<string> := [
    "image_id", "min_count", "max_count", "instance_type", "key_name",
    "security_group_ids", "subnet_id", "user_data", "ebs_optimized",
    "monitoring_enabled", "availability_zone", "tags", "disable_api_termination",
    "instance_initiated_shutdown_behavior", "block_device_mappings", "iam_instance_profile"]

  /** `{k: v for k, v in args_dict.items() if v is not None}`: an argument
      left out (`None`) and one given as JSON `null` are both Python's
      `None`, and both are dropped. */
  function CleanArgs(args: seq<(string, Option<Json>)>): (r: seq<(string, Json)>)
    ensures |r| <= |args|
    ensures forall k, x :: (k, x) in r <==> (k, Some(x)) in args && x != JNull
  {
    if args == [] then []
    else
      var rest := CleanArgs(args[1..]);
      assert forall p :: p in args <==> p == args[0] || p in args[1..];
      if args[0].1.Some? && args[0].1.value != JNull then [(args[0].0, args[0].1.value)] + rest else rest
  }

  /** The MCP call the wrapper makes: the tool's name and the parameters
      given a value, in parameter order. */
  function McpCreateEc2(values: seq<Option<Json>>): (r: (string, seq<(string, Json)>))
    requires |values| == |Ec2ParamNames|
    ensures r.0 == "create_ec2_instance"
    ensures forall k, x :: (k, x) in r.1 <==>
              x != JNull && exists i :: 0 <= i < |values| && Ec2ParamNames[i] == k && values[i] == Some(x)
  {
    var args := seq(|values|, i requires 0 <= i < |values| => (Ec2ParamNames[i], values[i]));
    forall k, x
      ensures (k, Some(x)) in args <==>
              exists i :: 0 <= i < |values| && Ec2ParamNames[i] == k && values[i] == Some(x)
    {
      if (k, Some(x)) in args {
        var i :| 0 <= i < |args| && args[i] == (k, Some(x));
      }
      if exists i :: 0 <= i < |values| && Ec2ParamNames[i] == k && values[i] == Some(x) {
        var i :| 0 <= i < |values| && Ec2ParamNames[i] == k && values[i] == Some(x);
        assert args[i] == (k, Some(x));
      }
    }
    ("create_ec2_instance", CleanArgs(args))
  }
}
