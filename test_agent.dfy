/**
 * The tool-calling agent graph: "agent" asks the model for a reply and appends it to
 * `messages`; the decision after "agent" goes to "tools" when the last message asks
 * for tool calls, and to the end otherwise; "tools" always returns to "agent".
 *
 * The model and the tool executor are external: the model's reply is a parameter of
 * `CallModel`, and the tool node is not modelled.
 */
module TestAgent {
  import opened Topology

  /** A tool call requested by the model; only how many there are matters here. */
  datatype ToolCall = ToolCall(name: string, args: string)

  /** The `tool_calls` property of a message: missing, present but not an array, or an array. */
  datatype ToolCalls = NoToolCalls | NotAnArray | Calls(calls: seq<ToolCall>)

  /** A chat message; its content is opaque. */
  datatype Message = Message(content: string, toolCalls: ToolCalls)

  /** The target of the decision when the model asked for tools. */
  const ToolsNode := "tools"

  /** The agent node. */
  const AgentNode := "agent"

  /** The message asks for at least one tool call: `tool_calls` is an array of length > 0. */
  predicate RequestsTools(m: Message)
    ensures RequestsTools(m) ==> m.toolCalls.Calls? && m.toolCalls.calls != []
    ensures m.toolCalls.NoToolCalls? || m.toolCalls.NotAnArray? ==> !RequestsTools(m)
    ensures m.toolCalls == Calls([]) ==> !RequestsTools(m)
  {
    m.toolCalls.Calls? && |m.toolCalls.calls| > 0
  }

  /**
   * The decision after "agent": "tools" exactly when the last message exists and requests
   * tools; an empty history, a missing or non-array `tool_calls`, or an empty array all end the run.
   */
  function ShouldContinue(messages: seq<Message>): (target: string)
    ensures target == ToolsNode <==> messages != [] && RequestsTools(messages[|messages| - 1])
    ensures target == End <==> messages == [] || !RequestsTools(messages[|messages| - 1])
    ensures target in DecisionTargets
  {
    if messages == [] then End
    else
      var last := messages[|messages| - 1];
      if last.toolCalls.Calls? && |last.toolCalls.calls| > 0 then ToolsNode else End
  }

  /** The `messages` reducer `x.concat(y)`: the update is appended after the history. */
  function Append(x: seq<Message>, y: seq<Message>): (r: seq<Message>)
    ensures |r| == |x| + |y|
    ensures r[..|x|] == x
    ensures r[|x|..] == y
  {
    x + y
  }

  /** Node "agent": the update holds the model's reply, and nothing else. */
  function CallModel(messages: seq<Message>, reply: Message): (update: seq<Message>)
    ensures |update| == 1 && update[0] == reply
  {
    [reply]
  }

  /** The unconditional edges. */
  const Edges: seq<Edge> := [Edge(Start, AgentNode), Edge(ToolsNode, AgentNode)]

  /** The declared targets of the conditional edge leaving "agent". */
  const DecisionTargets: seq<string> := [ToolsNode, End]

  /** The decision never looks further back than the last message. */
  lemma DecisionReadsLastOnly(x: seq<Message>, y: seq<Message>)
    requires x != [] && y != [] && x[|x| - 1] == y[|y| - 1]
    ensures ShouldContinue(x) == ShouldContinue(y)
  {
  }

  /** The reducer keeps the history and the update: nothing is dropped and nothing reordered. */
  lemma AppendKeepsAll(x: seq<Message>, y: seq<Message>)
    ensures multiset(Append(x, y)) == multiset(x) + multiset(y)
    ensures forall m :: m in Append(x, y) <==> m in x || m in y
  {
    assert Append(x, y) == x + y;
  }

  /**
   * After "agent" runs, the history grows by exactly the model's reply, and the route
   * follows from that reply alone: "tools" exactly when it requests tool calls.
   */
  lemma RouteFollowsReply(messages: seq<Message>, reply: Message)
    ensures |Append(messages, CallModel(messages, reply))| == |messages| + 1
    ensures ShouldContinue(Append(messages, CallModel(messages, reply)))
         == (if RequestsTools(reply) then ToolsNode else End)
  {
    var after := Append(messages, CallModel(messages, reply));
    assert after[|after| - 1] == reply;
  }

  /** A reply whose `tool_calls` is missing, not an array, or empty ends the run. */
  lemma NoToolRequestEnds(messages: seq<Message>, content: string)
    ensures ShouldContinue(messages + [Message(content, NoToolCalls)]) == End
    ensures ShouldContinue(messages + [Message(content, NotAnArray)]) == End
    ensures ShouldContinue(messages + [Message(content, Calls([]))]) == End
    ensures ShouldContinue([]) == End
  {
  }

  /** "tools" always returns to "agent". */
  lemma ToolsReturnToAgent()
    ensures Successors(Edges, ToolsNode) == {AgentNode}
  {
    forall d ensures d in Successors(Edges, ToolsNode) <==> d in {AgentNode} {
      SuccessorsExactly(Edges, ToolsNode, d);
    }
  }

  /** The entry leads to "agent" only. */
  lemma EntryToAgent()
    ensures Successors(Edges, Start) == {AgentNode}
  {
    forall d ensures d in Successors(Edges, Start) <==> d in {AgentNode} {
      SuccessorsExactly(Edges, Start, d);
    }
  }

  /** "agent" has no unconditional edge: where it goes is decided only by `ShouldContinue`. */
  lemma AgentOnlyConditional()
    ensures Successors(Edges, AgentNode) == {}
  {
    forall d ensures d !in Successors(Edges, AgentNode) {
      SuccessorsExactly(Edges, AgentNode, d);
    }
  }
}
