/**
 * The branching demo graph: node "a" records the length of the incoming message,
 * then a decision routes to "b" when that length is non-zero and to "c" when it is zero.
 *
 * The graph library itself is not modelled. Its behaviour on this graph enters only
 * through `Apply` (fields without a reducer take the last value written) and `Run`
 * (the route START -> a -> decision -> b or c -> END); both are stated as assumptions
 * about the library.
 */
module AdvancedGraph {
  import opened Wrappers
  import opened Topology

  /** The shared state: a message and a number. */
  datatype State = State(message: string, someNumber: int)

  /** A node's partial update: the fields it writes. */
  datatype Update = Update(message: Option<string>, someNumber: Option<int>)

  const MsgA := "I have been updated by node A"
  const MsgB := "I'm B, because the number was not 0."
  const MsgC := "I'm C, because the number was zero 0."

  /** Library assumption: a field without a reducer is overwritten by the value written, if any. */
  function Apply(s: State, u: Update): (r: State)
    ensures u.message.None? ==> r.message == s.message
    ensures u.message.Some? ==> r.message == u.message.value
    ensures u.someNumber.None? ==> r.someNumber == s.someNumber
    ensures u.someNumber.Some? ==> r.someNumber == u.someNumber.value
  {
    State(if u.message.Some? then u.message.value else s.message,
          if u.someNumber.Some? then u.someNumber.value else s.someNumber)
  }

  /** Node "a": writes the incoming message's length to `someNumber` and replaces the message. */
  function NodeA(s: State): (u: Update)
    ensures u.someNumber == Some(|s.message|)
    ensures u.message == Some(MsgA)
  {
    Update(Some(MsgA), Some(|s.message|))
  }

  /** Node "b": writes only the message. */
  function NodeB(s: State): (u: Update)
    ensures u.someNumber.None? && u.message == Some(MsgB)
  {
    Update(Some(MsgB), None)
  }

  /** Node "c": writes only the message. */
  function NodeC(s: State): (u: Update)
    ensures u.someNumber.None? && u.message == Some(MsgC)
  {
    Update(Some(MsgC), None)
  }

  /** The decision after "a": "goToC" exactly when the number is zero, else "goToB"; always a key of the table. */
  function ShouldGoToC(s: State): (key: string)
    ensures key == "goToC" <==> s.someNumber == 0
    ensures key == "goToB" <==> s.someNumber != 0
    ensures key in Routes
  {
    if s.someNumber == 0 then "goToC" else "goToB"
  }

  /** The routing table of the conditional edge leaving "a". */
  const Routes: map<string, string> := map["goToB" := "b", "goToC" := "c"]

  /** The unconditional edges. */
  const Edges: seq<Edge> := [Edge(Start, "a"), Edge("b", End), Edge("c", End)]

  /** The registered nodes. */
  const Nodes: set<string> := {"a", "b", "c"}

  /** The update of the node named `n` (one of "b", "c"). */
  function Branch(n: string, s: State): (u: Update)
    requires n in {"b", "c"}
    ensures u.someNumber.None?
  {
    if n == "b" then NodeB(s) else NodeC(s)
  }

  /** One run: the nodes visited, in order, and the final state. */
  datatype Trace = Trace(path: seq<string>, final: State)

  /** Library assumption: a run on this graph enters at "a", follows the table-selected branch, and ends. */
  function Run(init: State): (t: Trace)
    ensures |t.path| == 4 && t.path[0] == Start && t.path[1] == "a" && t.path[3] == End
    ensures t.path[2] == (if |init.message| == 0 then "c" else "b")
    ensures t.final.someNumber == |init.message|
    ensures t.final.message == (if |init.message| == 0 then MsgC else MsgB)
  {
    var s1 := Apply(init, NodeA(init));
    var next := Routes[ShouldGoToC(s1)];
    Trace([Start, "a", next, End], Apply(s1, Branch(next, s1)))
  }

  /** Every key the decision can return is in the routing table, and the table targets only registered nodes. */
  lemma RoutesCoverDecision(s: State)
    ensures ShouldGoToC(s) in Routes
    ensures Routes.Keys == {"goToB", "goToC"}
    ensures Routes.Values <= Nodes
    ensures Routes[ShouldGoToC(s)] == (if s.someNumber == 0 then "c" else "b")
  {
    assert Routes.Values == {"b", "c"} by {
      assert Routes["goToB"] == "b" && Routes["goToC"] == "c";
    }
  }

  /** The route after "a" follows from "a"'s own update: it depends only on the message length. */
  lemma RouteFollowsNodeA(s: State)
    ensures ShouldGoToC(Apply(s, NodeA(s))) == (if |s.message| == 0 then "goToC" else "goToB")
    ensures Apply(s, NodeA(s)).someNumber == |s.message|
  {
  }

  /** "b" and "c" leave `someNumber` as they found it. */
  lemma BranchesKeepNumber(n: string, s: State)
    requires n in {"b", "c"}
    ensures Apply(s, Branch(n, s)).someNumber == s.someNumber
    ensures Apply(s, Branch(n, s)).message == (if n == "b" then MsgB else MsgC)
  {
  }

  /**
   * Every run goes START -> a -> exactly one of b, c -> END along declared edges and
   * the table; it visits "c" exactly when the message is empty, and ends with the
   * message's length in `someNumber`.
   */
  lemma RunShape(init: State)
    ensures var t := Run(init);
      && |t.path| == 4
      && t.path[0] == Start && t.path[1] == "a" && t.path[3] == End
      && Edge(t.path[0], t.path[1]) in Edges
      && t.path[2] in Routes.Values
      && Edge(t.path[2], t.path[3]) in Edges
      && ("b" in t.path <==> "c" !in t.path)
      && ("c" in t.path <==> |init.message| == 0)
      && t.final.someNumber == |init.message|
      && t.final.message == (if |init.message| == 0 then MsgC else MsgB)
  {
    RouteFollowsNodeA(init);
    RoutesCoverDecision(Apply(init, NodeA(init)));
  }

  /** The initial `someNumber` never affects a run. */
  lemma RunIgnoresInitialNumber(message: string, k1: int, k2: int)
    ensures Run(State(message, k1)) == Run(State(message, k2))
  {
  }

  /** The two scripted runs: "Hello" with 0 goes through b; "" with 999 goes through c. */
  lemma ScriptedRuns()
    ensures Run(State("Hello", 0)).path == [Start, "a", "b", End]
    ensures Run(State("Hello", 0)).final == State(MsgB, 5)
    ensures Run(State("", 999)).path == [Start, "a", "c", End]
    ensures Run(State("", 999)).final == State(MsgC, 0)
  {
  }
}
