/**
 * The fan-out / join demo graph: "a" fans out to "c" and "b", which both lead to "d".
 * The `message` field is a list of strings merged by the reducer
 * `(x, y) => x.concat("#", y)`, so every node's contribution is appended after a "#".
 *
 * The graph library is not modelled. Its behaviour enters only through `Channel`
 * (an empty reducer channel stores the first value written as it is, later values
 * go through the reducer in write order) and `Run` (supersteps {a}, {c, b}, {d},
 * with the order in which the library applies c's and b's writes left as a parameter).
 */
module MultiTasking {
  import opened Wrappers
  import opened Topology

  /** The `message` reducer: `x.concat("#", y)` flattens the array `y`, so the result is x, "#", then y. */
  function Concat(x: seq<string>, y: seq<string>): (r: seq<string>)
    ensures |r| == |x| + 1 + |y|
    ensures r[..|x|] == x
    ensures r[|x|] == "#"
    ensures r[|x| + 1..] == y
  {
    x + ["#"] + y
  }

  /** Applying a sequence of updates with the reducer, one after another. */
  function Fold(x: seq<string>, updates: seq<seq<string>>): (r: seq<string>)
    ensures |r| == |x| + Added(updates)
    ensures r[..|x|] == x
    decreases |updates|
  {
    if updates == [] then x else Fold(Concat(x, updates[0]), updates[1..])
  }

  /** Each update preceded by its "#" separator, all run together. */
  function Separated(updates: seq<seq<string>>): (r: seq<string>)
    decreases |updates|
  {
    if updates == [] then [] else ["#"] + updates[0] + Separated(updates[1..])
  }

  /** Library assumption: a reducer channel with no value yet stores the first write as it is. */
  function Channel(current: Option<seq<string>>, writes: seq<seq<string>>): (r: Option<seq<string>>)
    ensures writes == [] ==> r == current
    ensures writes != [] ==> r.Some?
    ensures current.None? && |writes| == 1 ==> r == Some(writes[0])
    ensures current.None? && writes != [] ==> writes[0] <= r.value
    ensures current.Some? && writes != [] ==> current.value <= r.value
  {
    if writes == [] then current
    else if current.None? then Some(Fold(writes[0], writes[1..]))
    else Some(Fold(current.value, writes))
  }

  const ContribA := "A has finished."
  const ContribB := "B has finished."
  const ContribC := "C has finished."
  const ContribD := "D has finished."

  /** Node "a": whatever the state, it writes a one-entry list. Likewise b, c and d. */
  function NodeA(state: seq<string>): (update: seq<string>)
    ensures update == [ContribA]
  {
    [ContribA]
  }

  function NodeB(state: seq<string>): (update: seq<string>)
    ensures update == [ContribB]
  {
    [ContribB]
  }

  function NodeC(state: seq<string>): (update: seq<string>)
    ensures update == [ContribC]
  {
    [ContribC]
  }

  function NodeD(state: seq<string>): (update: seq<string>)
    ensures update == [ContribD]
  {
    [ContribD]
  }

  /** The nodes registered with `addNode`. */
  const Registered: set<string> := {"a", "b", "c", "d"}

  /** The update a registered node writes when it runs on `state`. */
  function NodeUpdate(n: string, state: seq<string>): (update: seq<string>)
    requires n in Registered
    ensures |update| == 1
  {
    if n == "a" then NodeA(state)
    else if n == "b" then NodeB(state)
    else if n == "c" then NodeC(state)
    else NodeD(state)
  }

  /** The updates of the nodes of one superstep, each computed from the state the superstep starts from. */
  function Updates(nodes: seq<string>, state: seq<string>): (r: seq<seq<string>>)
    requires forall n :: n in nodes ==> n in Registered
    ensures |r| == |nodes|
    ensures forall i :: 0 <= i < |nodes| ==> r[i] == NodeUpdate(nodes[i], state)
    decreases |nodes|
  {
    if nodes == [] then [] else [NodeUpdate(nodes[0], state)] + Updates(nodes[1..], state)
  }

  /** Library assumption: a superstep runs its nodes on the same state, then folds their writes in the given order. */
  function Superstep(state: seq<string>, nodes: seq<string>): (r: seq<string>)
    requires forall n :: n in nodes ==> n in Registered
    ensures |r| == |state| + 2 * |nodes|
    ensures r[..|state|] == state
  {
    var updates := Updates(nodes, state);
    AddedOfSingletons(updates);
    Fold(state, updates)
  }

  /** Each one-entry update adds two elements: its separator and its entry. */
  lemma {:induction false} AddedOfSingletons(updates: seq<seq<string>>)
    requires forall i :: 0 <= i < |updates| ==> |updates[i]| == 1
    ensures Added(updates) == 2 * |updates|
    decreases |updates|
  {
    if updates != [] {
      AddedOfSingletons(updates[1..]);
    }
  }

  /** The edges, in registration order. */
  const Edges: seq<Edge> :=
    [Edge(Start, "a"), Edge("a", "c"), Edge("a", "b"), Edge("c", "d"), Edge("b", "d"), Edge("d", End)]

  /** The supersteps a run goes through: each is the set of successors of the one before. */
  const Schedule: seq<set<string>> := [{Start}, {"a"}, {"c", "b"}, {"d"}, {End}]

  /**
   * Library assumption: the nodes of `Schedule[1]`, `Schedule[2]` and `Schedule[3]`, each
   * superstep listed in the order its writes are applied; `cFirst` fixes that order within {c, b}.
   */
  function Order(cFirst: bool): (r: seq<seq<string>>)
    ensures |r| == 3
    ensures forall i, n :: 0 <= i < |r| && n in r[i] ==> n in Registered
  {
    [["a"], if cFirst then ["c", "b"] else ["b", "c"], ["d"]]
  }

  /** One run: the value of `message` after each superstep, ending with the final one. */
  datatype Trace = Trace(afterA: seq<string>, afterBC: seq<string>, final: seq<string>)

  /** A run: the input seeds the empty channel, then the three supersteps of `Order` follow one another. */
  function Run(input: seq<string>, cFirst: bool): (t: Trace)
    ensures input <= t.afterA && |t.afterA| == |input| + 2
    ensures t.afterA <= t.afterBC && |t.afterBC| == |t.afterA| + 4
    ensures t.afterBC <= t.final && |t.final| == |t.afterBC| + 2
  {
    var order := Order(cFirst);
    var s0 := Channel(None, [input]).value;
    var s1 := Superstep(s0, order[0]);
    var s2 := Superstep(s1, order[1]);
    var s3 := Superstep(s2, order[2]);
    Trace(s1, s2, s3)
  }

  /** Each superstep of a run runs exactly the nodes the schedule activates, each once. */
  lemma RunFollowsSchedule(cFirst: bool, i: nat)
    requires i < 3
    ensures (set n | n in Order(cFirst)[i]) == Schedule[i + 1]
    ensures |Order(cFirst)[i]| == |Schedule[i + 1]|
  {
    var nodes := Order(cFirst)[i];
    if i == 1 {
      assert forall n :: n in nodes <==> n == "c" || n == "b";
      assert |Schedule[2]| == 2 by {
        assert Schedule[2] == {"c"} + {"b"};
      }
    } else {
      assert forall n :: n in nodes <==> n == nodes[0];
    }
  }

  /** Folding updates appends each of them, in order, after its own separator. */
  lemma {:induction false} FoldIsSeparated(x: seq<string>, updates: seq<seq<string>>)
    ensures Fold(x, updates) == x + Separated(updates)
    decreases |updates|
  {
    if updates != [] {
      FoldIsSeparated(Concat(x, updates[0]), updates[1..]);
      assert Concat(x, updates[0]) + Separated(updates[1..]) == x + Separated(updates);
    }
  }

  /** Grouping does not matter: folding `us` then `vs` equals folding `us + vs`. */
  lemma {:induction false} FoldGrouping(x: seq<string>, us: seq<seq<string>>, vs: seq<seq<string>>)
    ensures Fold(Fold(x, us), vs) == Fold(x, us + vs)
    decreases |us|
  {
    if us != [] {
      FoldGrouping(Concat(x, us[0]), us[1..], vs);
      assert (us + vs)[0] == us[0];
      assert (us + vs)[1..] == us[1..] + vs;
    } else {
      assert us + vs == vs;
    }
  }

  /** The reducer is associative, so a grouped merge equals a sequential one. */
  lemma ReducerAssociative(x: seq<string>, y: seq<string>, z: seq<string>)
    ensures Concat(Concat(x, y), z) == Concat(x, Concat(y, z))
    ensures Fold(x, [y, z]) == Concat(x, Concat(y, z))
  {
    FoldTwo(x, y, z);
    assert Concat(Concat(x, y), z) == x + ["#"] + y + ["#"] + z;
    assert Concat(x, Concat(y, z)) == x + ["#"] + y + ["#"] + z;
  }

  /** Folding two updates applies the reducer twice. */
  lemma FoldTwo(x: seq<string>, y: seq<string>, z: seq<string>)
    ensures Fold(x, [y, z]) == Concat(Concat(x, y), z)
  {
    assert [y, z][1..] == [z];
    assert [z][1..] == [];
    assert Fold(Concat(x, y), [z]) == Fold(Concat(Concat(x, y), z), []);
  }

  /** Folding one update applies the reducer once. */
  lemma FoldOne(x: seq<string>, y: seq<string>)
    ensures Fold(x, [y]) == Concat(x, y)
  {
    assert [y][1..] == [];
  }

  /** The number of elements the updates add, separators included. */
  function Added(updates: seq<seq<string>>): nat
    decreases |updates|
  {
    if updates == [] then 0 else 1 + |updates[0]| + Added(updates[1..])
  }

  /** Nothing is dropped: the fold keeps `x` as a prefix and every element of every update. */
  lemma {:induction false} FoldKeepsAll(x: seq<string>, updates: seq<seq<string>>)
    ensures |Fold(x, updates)| == |x| + Added(updates)
    ensures Fold(x, updates)[..|x|] == x
    ensures forall i, j :: 0 <= i < |updates| && 0 <= j < |updates[i]| ==> updates[i][j] in Fold(x, updates)
    decreases |updates|
  {
    FoldIsSeparated(x, updates);
    SeparatedKeepsAll(updates);
  }

  lemma {:induction false} SeparatedKeepsAll(updates: seq<seq<string>>)
    ensures |Separated(updates)| == Added(updates)
    ensures forall i, j :: 0 <= i < |updates| && 0 <= j < |updates[i]| ==> updates[i][j] in Separated(updates)
    decreases |updates|
  {
    if updates != [] {
      SeparatedKeepsAll(updates[1..]);
      forall i, j | 0 <= i < |updates| && 0 <= j < |updates[i]|
        ensures updates[i][j] in Separated(updates)
      {
        if i == 0 {
          assert Separated(updates)[1 + j] == updates[0][j];
        } else {
          assert updates[i] == updates[1..][i - 1];
          assert updates[i][j] in Separated(updates[1..]);
        }
      }
    }
  }

  /** The separated form of two one-element updates. */
  lemma SeparatedPair(p: string, q: string)
    ensures Separated([[p], [q]]) == ["#", p, "#", q]
  {
    assert [[p], [q]][1..] == [[q]];
    assert [[q]][1..] == [];
    assert Separated([[q]]) == ["#"] + [q] + Separated([]);
  }

  /** Each node returns a one-element list that does not depend on the state it is given. */
  lemma NodesIgnoreState(s: seq<string>, t: seq<string>)
    ensures NodeA(s) == NodeA(t) && NodeB(s) == NodeB(t) && NodeC(s) == NodeC(t) && NodeD(s) == NodeD(t)
    ensures |NodeA(s)| == 1 && |NodeB(s)| == 1 && |NodeC(s)| == 1 && |NodeD(s)| == 1
  {
  }

  /** Merging b's and c's updates in either order keeps both; only their relative order differs. */
  lemma MergeOrderKeepsBoth(x: seq<string>)
    ensures multiset(Fold(x, [NodeB(x), NodeC(x)])) == multiset(Fold(x, [NodeC(x), NodeB(x)]))
    ensures ContribB in Fold(x, [NodeC(x), NodeB(x)]) && ContribC in Fold(x, [NodeC(x), NodeB(x)])
    ensures ContribB in Fold(x, [NodeB(x), NodeC(x)]) && ContribC in Fold(x, [NodeB(x), NodeC(x)])
    ensures Fold(x, [NodeB(x), NodeC(x)]) != Fold(x, [NodeC(x), NodeB(x)])
  {
    var bc := Fold(x, [NodeB(x), NodeC(x)]);
    var cb := Fold(x, [NodeC(x), NodeB(x)]);
    SeparatedPair(ContribB, ContribC);
    SeparatedPair(ContribC, ContribB);
    FoldIsSeparated(x, [NodeB(x), NodeC(x)]);
    FoldIsSeparated(x, [NodeC(x), NodeB(x)]);
    assert bc[|x| + 1] != cb[|x| + 1];
  }

  /** The entry sentinel leads to "a" only. */
  lemma EntryToA()
    ensures Successors(Edges, Start) == {"a"}
  {
    forall d ensures d in Successors(Edges, Start) <==> d in {"a"} {
      SuccessorsExactly(Edges, Start, d);
    }
  }

  /** "a" fans out to both c and b. */
  lemma FanOutFromA()
    ensures Successors(Edges, "a") == {"c", "b"}
  {
    forall d ensures d in Successors(Edges, "a") <==> d in {"c", "b"} {
      SuccessorsExactly(Edges, "a", d);
    }
  }

  /** Each of c and b leads to d, and to nothing else. */
  lemma BranchLeadsToD(n: string)
    requires n == "c" || n == "b"
    ensures Successors(Edges, n) == {"d"}
  {
    forall d ensures d in Successors(Edges, n) <==> d in {"d"} {
      SuccessorsExactly(Edges, n, d);
    }
  }

  /** d has in-degree 2: one edge from c and one from b, in that order. */
  lemma JoinInDegree()
    ensures Predecessors(Edges, "d") == ["c", "b"]
  {
    assert Predecessors(Edges[5..], "d") == [];
    assert Predecessors(Edges[4..], "d") == ["b"];
    assert Predecessors(Edges[3..], "d") == ["c", "b"];
    assert Predecessors(Edges[1..], "d") == ["c", "b"];
  }

  /** d's only successor is the end sentinel. */
  lemma DToEnd()
    ensures Successors(Edges, "d") == {End}
  {
    forall d ensures d in Successors(Edges, "d") <==> d in {End} {
      SuccessorsExactly(Edges, "d", d);
    }
  }

  /** The superstep after the entry is {a}. */
  lemma FirstSuperstep()
    ensures NextFrontier(Edges, {Start}) == Schedule[1]
  {
    forall d ensures d in NextFrontier(Edges, {Start}) <==> d in Schedule[1] {
      NextFrontierExactly(Edges, {Start}, d);
    }
  }

  /** The superstep after {a} is {c, b}: both branches run together. */
  lemma SecondSuperstep()
    ensures NextFrontier(Edges, {"a"}) == Schedule[2]
  {
    forall d ensures d in NextFrontier(Edges, {"a"}) <==> d in Schedule[2] {
      NextFrontierExactly(Edges, {"a"}, d);
    }
  }

  /** The superstep after {c, b} is {d}: the two edges into d merge into one activation. */
  lemma ThirdSuperstep()
    ensures NextFrontier(Edges, {"c", "b"}) == Schedule[3]
  {
    forall d ensures d in NextFrontier(Edges, {"c", "b"}) <==> d in Schedule[3] {
      NextFrontierExactly(Edges, {"c", "b"}, d);
    }
  }

  /** The superstep after {d} is the end. */
  lemma LastSuperstep()
    ensures NextFrontier(Edges, {"d"}) == Schedule[4]
  {
    forall d ensures d in NextFrontier(Edges, {"d"}) <==> d in Schedule[4] {
      NextFrontierExactly(Edges, {"d"}, d);
    }
  }

  /** The join node d is scheduled in one superstep only: the one after the superstep holding both of its predecessors. */
  lemma JoinRunsOnce()
    ensures "d" in Schedule[3]
    ensures forall i :: 0 <= i < |Schedule| && "d" in Schedule[i] ==> i == 3
    ensures forall p :: p in Predecessors(Edges, "d") ==> p in Schedule[2]
    ensures |Predecessors(Edges, "d")| == 2
  {
    JoinInDegree();
    assert "d" !in Schedule[0] && "d" !in Schedule[1] && "d" !in Schedule[2] && "d" !in Schedule[4];
  }

  /** The final value of a run, written out. */
  lemma RunSpelledOut(input: seq<string>, cFirst: bool)
    ensures Run(input, cFirst).final == input + Appended(cFirst)
  {
    RunFirstStep(input, cFirst);
    RunSecondStep(input, cFirst);
    RunLastStep(input, cFirst);
  }

  /** The superstep {a} appends a's entry to the input. */
  lemma RunFirstStep(input: seq<string>, cFirst: bool)
    ensures Run(input, cFirst).afterA == input + ["#", ContribA]
  {
    assert Channel(None, [input]).value == input;
    SuperstepOfOne(input, "a");
  }

  /** The superstep {c, b} appends both entries, in the order `cFirst` selects. */
  lemma RunSecondStep(input: seq<string>, cFirst: bool)
    ensures Run(input, cFirst).afterBC
         == Run(input, cFirst).afterA
            + (if cFirst then ["#", ContribC, "#", ContribB] else ["#", ContribB, "#", ContribC])
  {
    var s1 := Run(input, cFirst).afterA;
    if cFirst {
      SuperstepOfTwo(s1, "c", "b");
    } else {
      SuperstepOfTwo(s1, "b", "c");
    }
  }

  /** The superstep {d} appends d's entry. */
  lemma RunLastStep(input: seq<string>, cFirst: bool)
    ensures Run(input, cFirst).final == Run(input, cFirst).afterBC + ["#", ContribD]
  {
    SuperstepOfOne(Run(input, cFirst).afterBC, "d");
  }

  /** A superstep of one node appends a separator and that node's entry. */
  lemma SuperstepOfOne(state: seq<string>, n: string)
    requires n in Registered
    ensures Superstep(state, [n]) == state + ["#"] + NodeUpdate(n, state)
  {
    assert Updates([n], state) == [NodeUpdate(n, state)];
    FoldOne(state, NodeUpdate(n, state));
  }

  /** A superstep of two nodes appends both entries, each after a separator, in the given order. */
  lemma SuperstepOfTwo(state: seq<string>, m: string, n: string)
    requires m in Registered && n in Registered
    ensures Superstep(state, [m, n]) == state + ["#"] + NodeUpdate(m, state) + ["#"] + NodeUpdate(n, state)
  {
    assert Updates([m, n], state) == [NodeUpdate(m, state), NodeUpdate(n, state)];
    FoldTwo(state, NodeUpdate(m, state), NodeUpdate(n, state));
  }

  /** The contributions a run appends after its input, in the order `cFirst` selects. */
  function Appended(cFirst: bool): seq<string> {
    ["#", ContribA] + (if cFirst then ["#", ContribC, "#", ContribB] else ["#", ContribB, "#", ContribC])
    + ["#", ContribD]
  }

  /**
   * A run keeps the input as a prefix, adds each node's contribution exactly once
   * (four separators, then A, B, C and D) and ends with d's.
   */
  lemma RunKeepsAllContributions(input: seq<string>, cFirst: bool)
    ensures var f := Run(input, cFirst).final;
      && |f| == |input| + 8
      && f[..|input|] == input
      && f[|f| - 1] == ContribD
      && multiset(f) == multiset(input) + multiset{"#", "#", "#", "#", ContribA, ContribB, ContribC, ContribD}
  {
    RunSpelledOut(input, cFirst);
    var tail := Appended(cFirst);
    AppendedHoldsEachOnce(cFirst);
    assert (input + tail)[..|input|] == input;
    assert multiset(input + tail) == multiset(input) + multiset(tail);
  }

  /** The appended part: eight entries, each contribution once after its separator, d's last. */
  lemma AppendedHoldsEachOnce(cFirst: bool)
    ensures |Appended(cFirst)| == 8
    ensures Appended(cFirst)[7] == ContribD
    ensures multiset(Appended(cFirst)) == multiset{"#", "#", "#", "#", ContribA, ContribB, ContribC, ContribD}
  {
  }

  /** The order in which b's and c's writes are applied changes the order of their contributions, nothing else. */
  lemma RunOrderOnlyPermutes(input: seq<string>)
    ensures multiset(Run(input, true).final) == multiset(Run(input, false).final)
    ensures Run(input, true).final != Run(input, false).final
  {
    RunSpelledOut(input, true);
    RunSpelledOut(input, false);
    var t := Appended(true);
    var f := Appended(false);
    assert multiset(t) == multiset(f);
    assert multiset(input + t) == multiset(input) + multiset(t);
    assert multiset(input + f) == multiset(input) + multiset(f);
    assert (input + t)[|input| + 3] == t[3] == ContribC;
    assert (input + f)[|input| + 3] == f[3] == ContribB;
  }

  /** The scripted run, with b's writes applied before c's. */
  lemma ScriptedRun()
    ensures Run(["Initial Message"], false).final
         == ["Initial Message", "#", ContribA, "#", ContribB, "#", ContribC, "#", ContribD]
  {
    RunSpelledOut(["Initial Message"], false);
  }
}
