/** The agent router of `agents/orchestrator.py`: a keyword classifier in
    fixed priority, a routing table from intents to agent nodes, three
    placeholder agents that each write their own entry into the shared
    `agent_outputs` dictionary, and the response generator that joins the
    agents' responses. The LangGraph runtime is reduced to whether a graph
    was compiled and, if so, its conditional-edge table. */
module Agents {
  import opened Outcomes
  import Text

  // --------------------------------------------------------------- intents

  /** The `IntentType` enumeration. */
  datatype IntentType = InformationQuery | TaskManagement | SmartHome | GeneralChat | Unknown

  /** The enumeration's string values. */
  function Value(t: IntentType): string {
    match t
    case InformationQuery => "information_query"
    case TaskManagement => "task_management"
    case SmartHome => "smart_home"
    case GeneralChat => "general_chat"
    case Unknown => "unknown"
  }

  /** Distinct intents have distinct values. */
  lemma ValueInjective(s: IntentType, t: IntentType)
    requires Value(s) == Value(t)
    ensures s == t
  {
  }

  /** The keyword lists `_classify_intent` checks, in priority order. */
  const InfoWords: seq<string> := ["what", "who", "where", "when", "how", "why", "tell me"]
  const TaskWords: seq<string> := ["remind", "schedule", "task", "todo", "calendar"]
  const SmartHomeWords: seq<string> := ["light", "fan", "ac", "door", "temperature"]

  /** `any(word in text for word in words)`, scanning from the left. */
  predicate AnyIn(words: seq<string>, text: string)
    decreases |words|
  {
    |words| > 0 && (Text.IsSubstring(words[0], text) || AnyIn(words[1..], text))
  }

  /** The scan finds a word exactly when some word of the list occurs. */
  lemma {:induction false} AnyInSpec(words: seq<string>, text: string)
    ensures AnyIn(words, text) <==> exists i :: 0 <= i < |words| && Text.IsSubstring(words[i], text)
    decreases |words|
  {
    if |words| > 0 {
      AnyInSpec(words[1..], text);
      assert forall i :: 0 < i < |words| ==> words[i] == words[1..][i - 1];
      if exists i :: 0 <= i < |words| && Text.IsSubstring(words[i], text) {
        var i :| 0 <= i < |words| && Text.IsSubstring(words[i], text);
        if i > 0 {
          assert Text.IsSubstring(words[1..][i - 1], text);
        }
      }
    }
  }

  /** `_classify_intent`'s choice for a user input: the first list, in the
      order information, task, smart home, with a word occurring in the
      lowercased input decides; otherwise general chat. */
  function Classify(userInput: string): IntentType {
    var text := Text.Lower(userInput);
    if AnyIn(InfoWords, text) then InformationQuery
    else if AnyIn(TaskWords, text) then TaskManagement
    else if AnyIn(SmartHomeWords, text) then SmartHome
    else GeneralChat
  }

  /** Some word of `words` occurs in `text`. */
  predicate Mentions(words: seq<string>, text: string) {
    exists i :: 0 <= i < |words| && Text.IsSubstring(words[i], text)
  }

  /** The classification in terms of occurrences: information wins whenever
      one of its words occurs, whatever else occurs; a task needs no
      information word; smart home needs neither; general chat is what is
      left; `unknown` is never chosen. */
  lemma ClassifySpec(userInput: string)
    ensures Classify(userInput) != Unknown
    ensures Classify(userInput) == InformationQuery <==> Mentions(InfoWords, Text.Lower(userInput))
    ensures Classify(userInput) == TaskManagement
            <==> !Mentions(InfoWords, Text.Lower(userInput)) && Mentions(TaskWords, Text.Lower(userInput))
    ensures Classify(userInput) == SmartHome
            <==> && !Mentions(InfoWords, Text.Lower(userInput)) && !Mentions(TaskWords, Text.Lower(userInput))
                 && Mentions(SmartHomeWords, Text.Lower(userInput))
    ensures Classify(userInput) == GeneralChat
            <==> && !Mentions(InfoWords, Text.Lower(userInput)) && !Mentions(TaskWords, Text.Lower(userInput))
                 && !Mentions(SmartHomeWords, Text.Lower(userInput))
  {
    var text := Text.Lower(userInput);
    AnyInSpec(InfoWords, text);
    AnyInSpec(TaskWords, text);
    AnyInSpec(SmartHomeWords, text);
  }

  /** Information words outrank task words: an input with both "what" and
      "remind" is an information query. */
  lemma InformationOutranksTask(userInput: string)
    requires Text.IsSubstring("what", Text.Lower(userInput)) && Text.IsSubstring("remind", Text.Lower(userInput))
    ensures Classify(userInput) == InformationQuery
  {
    assert InfoWords[0] == "what";
    ClassifySpec(userInput);
  }

  // ------------------------------------------------------------- agent outputs

  /** One entry of `agent_outputs`: the optional "response", and the
      "sources" and "task_created" keys the info and task agents add. */
  datatype AgentOutput = AgentOutput(response: Option<string>, sources: Option<seq<string>>,
                                     taskCreated: Option<bool>)

  /** An insertion-ordered dictionary from agent names to outputs. */
  type Outputs = seq<(string, AgentOutput)>

  /** The names in `d`, in insertion order. */
  function Names(d: Outputs): (r: seq<string>)
    ensures |r| == |d| && forall i :: 0 <= i < |d| ==> r[i] == d[i].0
  {
    seq(|d|, i requires 0 <= i < |d| => d[i].0)
  }

  /** `d[name] = out`: an existing name keeps its place and gets the new
      value; a new name goes last. */
  function Put(d: Outputs, name: string, out: AgentOutput): Outputs
    decreases |d|
  {
    if d == [] then [(name, out)]
    else if d[0].0 == name then [(name, out)] + d[1..]
    else [d[0]] + Put(d[1..], name, out)
  }

  /** Assignment into the dictionary: a name that was absent is appended;
      a name present in position `i` is overwritten there and every other
      entry is kept, so no other agent's output is touched. */
  lemma {:induction false} PutSpec(d: Outputs, name: string, out: AgentOutput)
    ensures name !in Names(d) ==> Put(d, name, out) == d + [(name, out)]
    ensures forall i :: 0 <= i < |d| && d[i].0 == name && name !in Names(d[..i]) ==>
              Put(d, name, out) == d[..i] + [(name, out)] + d[i + 1..]
    decreases |d|
  {
    if d != [] && d[0].0 != name {
      PutSpec(d[1..], name, out);
      forall i | 0 <= i < |d| && d[i].0 == name && name !in Names(d[..i])
        ensures Put(d, name, out) == d[..i] + [(name, out)] + d[i + 1..]
      {
        assert i > 0;
        assert d[1..][i - 1] == d[i];
        assert Names(d[1..][..i - 1]) == Names(d[..i])[1..];
        assert d[..i] == [d[0]] + d[1..][..i - 1];
        assert d[1..][i - 1 + 1..] == d[i + 1..];
      }
      if name !in Names(d) {
        assert Names(d[1..]) == Names(d)[1..];
        assert [d[0]] + (d[1..] + [(name, out)]) == d + [(name, out)];
      }
    }
  }

  /** The prefixes of the three placeholder agents' responses. */
  const InfoPrefix: string := "[Info Agent] Processing query: "
  const TaskPrefix: string := "[Task Agent] Processing task request: "
  const ChatPrefix: string := "[Chat Agent] I understand you said: "

  /** The entries the three agents write. */
  function InfoOutput(userInput: string): AgentOutput {
    AgentOutput(Some(InfoPrefix + userInput), Some([]), None)
  }

  function TaskOutput(userInput: string): AgentOutput {
    AgentOutput(Some(TaskPrefix + userInput), None, Some(false))
  }

  function ChatOutput(userInput: string): AgentOutput {
    AgentOutput(Some(ChatPrefix + userInput), None, None)
  }

  // ----------------------------------------------------------- final response

  /** The "response" values of the entries that have one, in insertion order. */
  function Responses(d: Outputs): seq<string>
    decreases |d|
  {
    if d == [] then []
    else
      var last := d[|d| - 1].1.response;
      Responses(d[..|d| - 1]) + (if last.Some? then [last.value] else [])
  }

  /** The responses are exactly the entries' responses in order: each comes
      from an entry, at most one per entry and no later than that entry,
      and there are none exactly when no entry has one. */
  lemma {:induction false} ResponsesSpec(d: Outputs)
    ensures |Responses(d)| <= |d|
    ensures Responses(d) == [] <==> forall i :: 0 <= i < |d| ==> d[i].1.response.None?
    ensures forall j :: 0 <= j < |Responses(d)| ==>
              exists i :: j <= i < |d| && d[i].1.response == Some(Responses(d)[j])
    decreases |d|
  {
    if d != [] {
      var front := d[..|d| - 1];
      ResponsesSpec(front);
      assert forall i :: 0 <= i < |front| ==> front[i] == d[i];
      var r := Responses(d);
      forall j | 0 <= j < |r|
        ensures exists i :: j <= i < |d| && d[i].1.response == Some(r[j])
      {
        if j < |Responses(front)| {
          assert r[j] == Responses(front)[j];
          var i :| j <= i < |front| && front[i].1.response == Some(Responses(front)[j]);
          assert d[i] == front[i];
        } else {
          assert d[|d| - 1].1.response == Some(r[j]);
        }
      }
    }
  }

  /** The responses of two runs of entries are those of the first run
      followed by those of the second: nothing is dropped or reordered. */
  lemma {:induction false} ResponsesAppend(a: Outputs, b: Outputs)
    ensures Responses(a + b) == Responses(a) + Responses(b)
    decreases |b|
  {
    if b == [] {
      assert a + b == a;
    } else {
      var front := b[..|b| - 1];
      assert (a + b)[..|a + b| - 1] == a + front;
      assert (a + b)[|a + b| - 1] == b[|b| - 1];
      ResponsesAppend(a, front);
    }
  }

  /** One entry contributes its response, if it has one. */
  lemma ResponsesSingle(e: (string, AgentOutput))
    ensures Responses([e]) == if e.1.response.Some? then [e.1.response.value] else []
  {
    assert [e][..0] == [];
  }

  /** The text when no agent responded. */
  const NoResponseMessage: string := "I couldn't process your request."

  /** `final_response` for the given outputs: the responses joined by single
      spaces, or the no-response text when there are none. */
  function FinalResponse(d: Outputs): string {
    var r := Responses(d);
    if r != [] then Text.Join(r, " ") else NoResponseMessage
  }

  /** With one agent having run, the final response is that agent's response;
      with none, it is the no-response text. */
  lemma FinalResponseSingle(name: string, out: AgentOutput)
    ensures FinalResponse([]) == NoResponseMessage
    ensures out.response.Some? ==> FinalResponse([(name, out)]) == out.response.value
    ensures out.response.None? ==> FinalResponse([(name, out)]) == NoResponseMessage
  {
    assert [(name, out)][..0] == [];
  }

  // -------------------------------------------------------------- the graph

  /** A compiled workflow: the conditional-edge table from the intent the
      classifier stored to the next node. The nodes, the entry point and the
      edges from each agent to the response generator are fixed. */
  datatype Graph = Graph(routes: map<string, string>)

  /** The node names. */
  const InfoAgent: string := "info_agent"
  const TaskAgent: string := "task_agent"
  const ChatAgent: string := "chat_agent"

  /** The conditional edges `setup` installs: smart home has none. */
  const WorkflowRoutes: map<string, string> := map[
    Value(InformationQuery) := InfoAgent,
    Value(TaskManagement) := TaskAgent,
    Value(GeneralChat) := ChatAgent,
    Value(Unknown) := ChatAgent]

  /** The agent a classified intent is sent to in the compiled workflow. */
  function AgentFor(t: IntentType): Option<string> {
    match t
    case InformationQuery => Some(InfoAgent)
    case TaskManagement => Some(TaskAgent)
    case GeneralChat => Some(ChatAgent)
    case Unknown => Some(ChatAgent)
    case SmartHome => None
  }

  /** `_route_to_agent` followed by the conditional edge: the next node for
      the stored intent, if the table has an entry for it. The "unknown"
      default never applies, since the state always holds the intent key. */
  function Route(g: Graph, intent: Option<string>): Option<string> {
    if intent.Some? && intent.value in g.routes then Some(g.routes[intent.value]) else None
  }

  /** The workflow's table agrees with `AgentFor`: every intent but smart
      home reaches an agent, and smart home reaches none. */
  lemma WorkflowRouting(t: IntentType)
    ensures Route(Graph(WorkflowRoutes), Some(Value(t))) == AgentFor(t)
  {
  }

  /** The outputs after the agent node `node` runs on empty outputs, or
      nothing when `node` is not an agent. */
  function AgentRun(node: string, userInput: string): Option<Outputs> {
    if node == InfoAgent then Some(Put([], InfoAgent, InfoOutput(userInput)))
    else if node == TaskAgent then Some(Put([], TaskAgent, TaskOutput(userInput)))
    else if node == ChatAgent then Some(Put([], ChatAgent, ChatOutput(userInput)))
    else None
  }

  /** What `process` returns. */
  datatype Reply = Reply(response: string, intent: Option<string>, language: string)

  /** The error a workflow raises when the stored intent has no edge. */
  function NoRouteMessage(intent: string): string {
    "no branch for intent: " + intent
  }

  /** The error a workflow raises when an edge names no agent node. */
  function NoNodeMessage(node: string): string {
    "unknown node: " + node
  }

  /** What `process` returns for an input and a language: in the fallback
      the chat agent always runs; in a compiled workflow the routed agent
      runs, and a missing edge raises. */
  function ProcessOutcome(graph: Option<Graph>, userInput: string, language: string): Result<Reply> {
    var intent := Value(Classify(userInput));
    if graph.None? then
      Ok(Reply(FinalResponse(Put([], ChatAgent, ChatOutput(userInput))), Some(intent), language))
    else
      match Route(graph.value, Some(intent))
      case None => Err(NoRouteMessage(intent))
      case Some(node) =>
        match AgentRun(node, userInput)
        case None => Err(NoNodeMessage(node))
        case Some(outputs) => Ok(Reply(FinalResponse(outputs), Some(intent), language))
  }

  /** Without a compiled graph the response is always the chat agent's
      echo of the input, while the intent still reports the classification
      and the language is echoed. */
  lemma ProcessFallback(userInput: string, language: string)
    ensures ProcessOutcome(None, userInput, language)
            == Ok(Reply(ChatPrefix + userInput, Some(Value(Classify(userInput))), language))
  {
    FinalResponseSingle(ChatAgent, ChatOutput(userInput));
  }

  /** In the compiled workflow, information queries get the info agent's
      response, tasks the task agent's, general chat the chat agent's, and a
      smart-home input raises for want of an edge. */
  lemma ProcessWorkflow(userInput: string, language: string)
    ensures var r := ProcessOutcome(Some(Graph(WorkflowRoutes)), userInput, language);
      && (r.Ok? ==> r.value.intent == Some(Value(Classify(userInput))) && r.value.language == language)
      && (Classify(userInput) == InformationQuery ==> r.Ok? && r.value.response == InfoPrefix + userInput)
      && (Classify(userInput) == TaskManagement ==> r.Ok? && r.value.response == TaskPrefix + userInput)
      && (Classify(userInput) == GeneralChat ==> r.Ok? && r.value.response == ChatPrefix + userInput)
      && (Classify(userInput) == SmartHome ==> r == Err(NoRouteMessage(Value(SmartHome))))
  {
    WorkflowRouting(Classify(userInput));
    FinalResponseSingle(InfoAgent, InfoOutput(userInput));
    FinalResponseSingle(TaskAgent, TaskOutput(userInput));
    FinalResponseSingle(ChatAgent, ChatOutput(userInput));
  }

  // --------------------------------------------------------------- the state

  /** The `AgentState` dictionary a workflow run updates in place. */
  class AgentState {
    var userInput: string
    var language: string
    var intent: Option<string>
    var entities: seq<map<string, string>>
    var agentOutputs: Outputs
    var finalResponse: Option<string>
    var error: Option<string>

    /** The `initial_state` of `process`. */
    constructor(userInput: string, language: string)
      ensures this.userInput == userInput && this.language == language
      ensures intent == None && entities == [] && agentOutputs == []
      ensures finalResponse == None && error == None
    {
      this.userInput := userInput;
      this.language := language;
      intent := None;
      entities := [];
      agentOutputs := [];
      finalResponse := None;
      error := None;
    }
  }

  // -------------------------------------------------------- the orchestrator

  class AgentOrchestrator {
    var config: map<string, string>
    var graph: Option<Graph>
    /** The registry of agent objects, which the modelled code never fills. */
    var agents: map<string, string>

    /** `config or {}`, no graph until `setup`, and no registered agents. */
    constructor(config: Option<map<string, string>>)
      ensures this.config == (if config.Some? then config.value else map[])
      ensures graph == None
      ensures agents == map[]
    {
      this.config := if config.Some? then config.value else map[];
      graph := None;
      agents := map[];
    }

    /** `setup`: with LangGraph available the workflow is compiled with its
        conditional edges; without it the simple fallback is used. */
    method Setup(langGraphAvailable: bool)
      modifies this`graph
      ensures graph == (if langGraphAvailable then Some(Graph(WorkflowRoutes)) else None)
    {
      if langGraphAvailable {
        graph := Some(Graph(WorkflowRoutes));
      } else {
        graph := None;
      }
    }

    /** `_classify_intent`: stores the classification and changes nothing else. */
    method ClassifyIntent(state: AgentState)
      modifies state`intent
      ensures state.intent == Some(Value(Classify(state.userInput)))
    {
      var text := Text.Lower(state.userInput);
      var intent: IntentType;
      if AnyIn(InfoWords, text) {
        intent := InformationQuery;
      } else if AnyIn(TaskWords, text) {
        intent := TaskManagement;
      } else if AnyIn(SmartHomeWords, text) {
        intent := SmartHome;
      } else {
        intent := GeneralChat;
      }
      state.intent := Some(Value(intent));
    }

    /** `_run_info_agent`: writes its own entry and no other. */
    method RunInfoAgent(state: AgentState)
      modifies state`agentOutputs
      ensures state.agentOutputs == Put(old(state.agentOutputs), InfoAgent, InfoOutput(state.userInput))
    {
      state.agentOutputs := Put(state.agentOutputs, InfoAgent, InfoOutput(state.userInput));
    }

    /** `_run_task_agent`: writes its own entry and no other. */
    method RunTaskAgent(state: AgentState)
      modifies state`agentOutputs
      ensures state.agentOutputs == Put(old(state.agentOutputs), TaskAgent, TaskOutput(state.userInput))
    {
      state.agentOutputs := Put(state.agentOutputs, TaskAgent, TaskOutput(state.userInput));
    }

    /** `_run_chat_agent`: writes its own entry and no other. */
    method RunChatAgent(state: AgentState)
      modifies state`agentOutputs
      ensures state.agentOutputs == Put(old(state.agentOutputs), ChatAgent, ChatOutput(state.userInput))
    {
      state.agentOutputs := Put(state.agentOutputs, ChatAgent, ChatOutput(state.userInput));
    }

    /** `_generate_response`: collects the responses in order, then joins them. */
    method GenerateResponse(state: AgentState)
      modifies state`finalResponse
      ensures state.finalResponse == Some(FinalResponse(state.agentOutputs))
    {
      var outputs := state.agentOutputs;
      var responses: seq<string> := [];
      var i := 0;
      while i < |outputs|
        invariant 0 <= i <= |outputs|
        invariant responses == Responses(outputs[..i])
      {
        assert outputs[..i + 1][..i] == outputs[..i];
        if outputs[i].1.response.Some? {
          responses := responses + [outputs[i].1.response.value];
        }
        i := i + 1;
      }
      assert outputs[..i] == outputs;
      state.finalResponse := Some(if responses != [] then Text.Join(responses, " ") else NoResponseMessage);
    }

    /** `process`: a fresh state through the compiled workflow, or through
        classification, the chat agent and the response generator. */
    method Process(userInput: string, language: string := "en") returns (r: Result<Reply>)
      ensures r == ProcessOutcome(graph, userInput, language)
    {
      var state := new AgentState(userInput, language);
      ClassifyIntent(state);
      if graph.None? {
        RunChatAgent(state);
      } else {
        var node := Route(graph.value, state.intent);
        if node.None? {
          return Err(NoRouteMessage(state.intent.value));
        }
        if node.value == InfoAgent {
          RunInfoAgent(state);
        } else if node.value == TaskAgent {
          RunTaskAgent(state);
        } else if node.value == ChatAgent {
          RunChatAgent(state);
        } else {
          return Err(NoNodeMessage(node.value));
        }
      }
      GenerateResponse(state);
      r := Ok(Reply(state.finalResponse.value, state.intent, state.language));
    }
  }
}
