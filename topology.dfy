/**
 * Static graph topology as the demo scripts declare it: named nodes joined by
 * unconditional edges, plus the two sentinel node names of the graph library.
 */
module Topology {

  /** The entry sentinel (`START`, written "__start__"). */
  const Start := "__start__"

  /** The terminal sentinel (`END`, written "__end__"). */
  const End := "__end__"

  /** An unconditional edge, registered with `addEdge(src, dst)`. */
  datatype Edge = Edge(src: string, dst: string)

  /** The destinations of the edges leaving `n`. */
  function Successors(edges: seq<Edge>, n: string): set<string>
    decreases |edges|
  {
    if edges == [] then {}
    else (if edges[0].src == n then {edges[0].dst} else {}) + Successors(edges[1..], n)
  }

  /** The sources of the edges entering `n`, in registration order, one per edge. */
  function Predecessors(edges: seq<Edge>, n: string): seq<string>
    decreases |edges|
  {
    if edges == [] then []
    else (if edges[0].dst == n then [edges[0].src] else []) + Predecessors(edges[1..], n)
  }

  /** The nodes reached in one step from any node of `frontier`. */
  function NextFrontier(edges: seq<Edge>, frontier: set<string>): set<string>
    decreases |edges|
  {
    if edges == [] then {}
    else (if edges[0].src in frontier then {edges[0].dst} else {}) + NextFrontier(edges[1..], frontier)
  }

  /** `Successors` holds exactly the destinations of the registered edges from `n`. */
  lemma {:induction false} SuccessorsExactly(edges: seq<Edge>, n: string, d: string)
    ensures d in Successors(edges, n) <==> Edge(n, d) in edges
    decreases |edges|
  {
    if edges != [] {
      SuccessorsExactly(edges[1..], n, d);
      assert edges == [edges[0]] + edges[1..];
    }
  }

  /** `Predecessors` holds exactly the sources of the registered edges into `n`, one per edge. */
  lemma {:induction false} PredecessorsExactly(edges: seq<Edge>, n: string, s: string)
    ensures s in Predecessors(edges, n) <==> Edge(s, n) in edges
    ensures |Predecessors(edges, n)| <= |edges|
    ensures multiset(Predecessors(edges, n))[s] == multiset(edges)[Edge(s, n)]
    decreases |edges|
  {
    if edges != [] {
      PredecessorsExactly(edges[1..], n, s);
      assert edges == [edges[0]] + edges[1..];
      assert multiset(edges) == multiset([edges[0]]) + multiset(edges[1..]);
      var head := if edges[0].dst == n then [edges[0].src] else [];
      assert multiset(Predecessors(edges, n)) == multiset(head) + multiset(Predecessors(edges[1..], n));
    }
  }

  /** The next frontier is the union of the successors of the frontier's nodes. */
  lemma {:induction false} NextFrontierExactly(edges: seq<Edge>, frontier: set<string>, d: string)
    ensures d in NextFrontier(edges, frontier) <==> exists s :: s in frontier && Edge(s, d) in edges
    decreases |edges|
  {
    if edges != [] {
      NextFrontierExactly(edges[1..], frontier, d);
      assert edges == [edges[0]] + edges[1..];
      if d in NextFrontier(edges, frontier) && !(d in NextFrontier(edges[1..], frontier)) {
        assert edges[0].src in frontier && Edge(edges[0].src, d) == edges[0];
      }
    }
  }
}
