# Verified model of the LangGraph demo scripts' decision and merge logic

The repository is a set of demo scripts that drive a graph-based LLM-orchestration
library. The scripts themselves contain a handful of self-contained decision and merge
functions, and this project models those functions in Dafny and proves their behaviour:

- **CIC lookup classifier** (`src/graphs.ts`, module `CicLookup`). The `cic_new_lookup_tool` function turns
  the outcome of an HTTP lookup into a record. The outcome is either a response of any status or a thrown error.
  The record's `status` (REGISTERED, NOT_REGISTERED, INVALID_INPUT, UPSTREAM_ERROR) and `nextAction`
  (CONTINUE, ASK_TO_REGISTER, ASK_RETRY, ESCALATE) come from closed enumerations.
  The model covers the `build` defaults-merge (`{ ...base, ...partial }` followed by schema validation),
  the priority-ordered decision cascade and the `catch` classification.
  The JavaScript operators the code relies on (`?.`, `??`, `!= null`, `String(x)`, `!!x`) are
  modelled over a small JSON value type in module `Js`.
- **Branching graph** (`src/advanced-graph.ts`, module `AdvancedGraph`). Node `a` records the message length.
  The decision `shouldGoToC` and its routing table then send the run to `b` or `c`.
- **Fan-out / join graph** (`src/multi-tasking.ts`, module `MultiTasking`). The `#`-separated list-concatenation
  reducer, the four constant nodes and the edge list in which `a` fans out to `c` and `b` and both join at `d`.
- **Tool-calling agent** (`src/test-agent.ts`, module `TestAgent`). The `shouldContinue` decision, the
  message-append reducer, the shape of `callModel`'s update and the edges.

Module `Topology` holds the edge representation shared by the three graphs, and `Wrappers` holds `Option` and `Result`.

The graph library itself (scheduling, channels, compilation) is not part of this repository.
Each graph module writes down what the library is assumed to do on that one graph, and nothing more:
- `AdvancedGraph.Apply`: a field without a reducer takes the last value written.
- `MultiTasking.Channel`: an empty reducer channel stores its first write as it is.
- `AdvancedGraph.Run` and `MultiTasking.Run`: the supersteps of each demo run.

The lemmas about runs are proved relative to those assumptions.

Notes on the code as written:
- `cic_new_lookup_tool` is modelled, but the tool list at `src/graphs.ts:280` registers the older pass-through `cic_lookup_tool`.
- The schema validation inside `build` runs within the `try` block. So a "00" response whose user fields are
  neither strings nor null (for example a numeric `phone`) is reported as "Network error contacting CIC
  services" with `ok = false` (`CicLookup.RegisteredSchemaRejected`).
- `String(code)` of a numeric code is never "00" or "01". So a response whose `code` is the number 0 or 1 is
  not classified by its code (`CicLookup.NumericCodeFallsThrough`).

## Model

| member | source | states |
|---|---|---|
| `Js.IsNullish` | src/graphs.ts:121 | a value that is `== null` has no properties: optional access on it yields `undefined` for every key |
| `Js.Truthy` | src/graphs.ts:213 | `!!v` is false for null and undefined and true for every object |
| `Js.Get` | src/graphs.ts:147-150 | optional property access yields `undefined` on non-objects and missing keys, else the property's value |
| `Js.Coalesce` | src/graphs.ts:147-150 | `a ?? b` is `a` unless `a` is null/undefined; the result is nullish only when both operands are |
| `Js.Decimal` | src/graphs.ts:121 | `String(n)` of a natural number is a non-empty string of decimal digits |
| `Js.DecimalRoundTrip` | src/graphs.ts:121 | reading the decimal numeral back gives the number it was written from |
| `Js.DecimalNoLeadingZero` | src/graphs.ts:121 | a numeral starts with '0' exactly when the number is 0, and then it is "0" |
| `Js.NumberNeverZeroLed` | src/graphs.ts:121 | `String(n)` of an integral number is never "00" or "01" |
| `Js.IntToString` | src/graphs.ts:121 | `String(n)` starts with '-' exactly for a negative number; the digits after it read back as \|n\| |
| `Js.ToJsString` | src/graphs.ts:121 | `String(v)` returns a string unchanged and spells null/undefined |
| `CicLookup.ParseNullableString` | src/graphs.ts:62-65 | `z.string().nullable()` accepts exactly strings and null, mapping a string to itself and null to none |
| `CicLookup.ParseUser` | src/graphs.ts:60-68 | the user object passes validation exactly when all four fields are strings or null; each validated field is the string given, or none for null; a failure names a user field, `phone` when phone is the bad one |
| `CicLookup.ParseRecord` | src/graphs.ts:48-70 | record validation succeeds exactly when the user is null or conforms; the scalar fields are copied and the validated user is the one `ParseUser` gives |
| `CicLookup.Overlay` | src/graphs.ts:106 | one key of `{ ...base, ...partial }`: the partial's value when it has the key, the base's otherwise |
| `CicLookup.Spread` | src/graphs.ts:106 | `{ ...base, ...partial }` key by key: every given key wins and every omitted key keeps the base's value; an empty partial gives the base |
| `CicLookup.Build` | src/graphs.ts:93-107 | every key the partial omits takes its default and every key it gives wins; validation fails exactly for a given user object with a non-string, non-null field; a given user object comes out as its validated contents |
| `CicLookup.ResponseData` | src/graphs.ts:120 | `response.data ?? {}` is never nullish and keeps any non-nullish body |
| `CicLookup.RegisteredUser` | src/graphs.ts:146-151 | the "00" user: phone is the response's string phone, or the queried phone when it is missing; fullName is null only when both fullName and name are missing; no field is undefined |
| `CicLookup.Decide` | src/graphs.ts:119-210 | every branch gives ok = (status < 500), the status and the api code, a status, action and message; a user object is given exactly for codes "00"/"01" and statuses 400/404 below 500 |
| `CicLookup.Classify` | src/graphs.ts:119-210 | a validated record carries the HTTP status and ok = (status < 500); validation can fail only for code "00" below 500 |
| `CicLookup.IsTimeout` | src/graphs.ts:213-217 | only an object carrying `isAxiosError` and `code` is a timeout |
| `CicLookup.Caught` | src/graphs.ts:211-228 | the catch record: not ok, no status/code/user, UPSTREAM_ERROR, ASK_RETRY; the timeout message exactly for a timeout, the network message otherwise |
| `CicLookup.Lookup` | src/graphs.ts:109-229 | a thrown error gives the catch record; ok only for a response below 500, whose status is reported; no status exactly when the message is a transport one; a reported status carries the response's code |
| `CicLookup.ApiCodeOf` | src/graphs.ts:121 | `apiCode` is null exactly when `code` is null or undefined, and a string code is kept as it is |
| `CicLookup.FirstString` | src/graphs.ts:147-150 | the result is the first string among the values, if any |
| `CicLookup.Thrown` | src/graphs.ts:211-217 | the error a failed validation throws is never classified as a timeout |
| `CicLookup.ServerErrorFirst` | src/graphs.ts:124-135 | any status >= 500 gives ok=false, UPSTREAM_ERROR, ASK_RETRY and no user, whatever the code |
| `CicLookup.RegisteredByCode` | src/graphs.ts:138-154 | below 500 with code "00": ok, REGISTERED, CONTINUE; phone is the response's if a string else the queried one; fullName falls back to name, then null |
| `CicLookup.RegisteredSchemaRejected` | src/graphs.ts:146-151 | a "00" user record with a non-string, non-null field ends in the network-error record |
| `CicLookup.NotRegisteredByCode` | src/graphs.ts:156-168 | below 500 with code "01": ok, NOT_REGISTERED, ASK_TO_REGISTER, user with only the queried phone |
| `CicLookup.InvalidInputOn400` | src/graphs.ts:171-183 | HTTP 400 without code "00"/"01": INVALID_INPUT, ASK_RETRY, all-null user |
| `CicLookup.NotRegisteredOn404` | src/graphs.ts:186-198 | HTTP 404 without code "00"/"01": NOT_REGISTERED, ASK_TO_REGISTER, same status and user as code "01" |
| `CicLookup.FallbackEscalates` | src/graphs.ts:200-210 | every other response: ok, UPSTREAM_ERROR, ESCALATE, no user |
| `CicLookup.CodeBeforeClientStatus` | src/graphs.ts:137-198 | a 400 or 404 carrying code "00"/"01" is classified by the code, never as invalid input or not found |
| `CicLookup.TransportFailureClassified` | src/graphs.ts:211-228 | a thrown error gives ok=false, no status/code/user, UPSTREAM_ERROR, ASK_RETRY; the timeout message exactly for an axios ECONNABORTED error |
| `CicLookup.NotOkExactly` | src/graphs.ts:109-229 | ok is false exactly for a thrown error, a 5xx, or a "00" user record the schema rejects |
| `CicLookup.ActionFollowsStatus` | src/graphs.ts:119-228 | on every path the action agrees with the status, and a user record is present exactly when the status is not UPSTREAM_ERROR |
| `CicLookup.NumericCodeFallsThrough` | src/graphs.ts:121-210 | a numeric code never matches "00"/"01", so (outside 5xx, 400, 404) the lookup escalates |
| `CicLookup.ExampleRegistered` | src/graphs.ts:138-154 | a concrete "00" response yields the response phone and `name` as full name |
| `CicLookup.ExampleNotFoundWithCode` | src/graphs.ts:156-198 | a concrete 404 with code "01" gets the code-"01" message |
| `CicLookup.ExampleNumericCode` | src/graphs.ts:121 | a concrete numeric code 0 on HTTP 200 escalates |
| `Topology.SuccessorsExactly` | src/multi-tasking.ts:36-42 | the successors of a node are exactly the destinations of its registered edges |
| `Topology.PredecessorsExactly` | src/multi-tasking.ts:36-42 | the predecessors of a node are exactly the sources of its incoming edges, one entry per incoming edge (each source occurs as often as its edge is registered) |
| `Topology.NextFrontierExactly` | src/multi-tasking.ts:36-42 | the next frontier is the union of the successors of the frontier's nodes |
| `AdvancedGraph.Apply` | src/advanced-graph.ts:4-7 | assumed library semantics: a written field is overwritten, an unwritten one is kept |
| `AdvancedGraph.NodeA` | src/advanced-graph.ts:10-18 | writes the incoming message's length to someNumber and the fixed message |
| `AdvancedGraph.NodeB` | src/advanced-graph.ts:20-23 | writes only the message |
| `AdvancedGraph.NodeC` | src/advanced-graph.ts:25-28 | writes only the message |
| `AdvancedGraph.ShouldGoToC` | src/advanced-graph.ts:30-40 | "goToC" exactly when someNumber is 0, "goToB" otherwise, always a key of the routing table |
| `AdvancedGraph.RoutesCoverDecision` | src/advanced-graph.ts:49-52 | the table covers every key the decision can return and targets only registered nodes |
| `AdvancedGraph.RouteFollowsNodeA` | src/advanced-graph.ts:10-40 | after node a, the route depends only on the incoming message's length |
| `AdvancedGraph.BranchesKeepNumber` | src/advanced-graph.ts:20-28 | b and c leave someNumber untouched |
| `AdvancedGraph.Run` | src/advanced-graph.ts:42-55 | a run visits START, a, then c for an empty message and b otherwise, then END; it ends with the message length and that branch's message |
| `AdvancedGraph.RunShape` | src/advanced-graph.ts:47-55 | every run is START, a, exactly one of b/c, END along declared edges; c exactly for an empty message |
| `AdvancedGraph.RunIgnoresInitialNumber` | src/advanced-graph.ts:67 | the initial someNumber never affects a run |
| `AdvancedGraph.ScriptedRuns` | src/advanced-graph.ts:63-74 | "Hello"/0 goes through b with number 5; ""/999 goes through c with number 0 |
| `MultiTasking.Concat` | src/multi-tasking.ts:4-6 | the reducer's result has length \|x\|+1+\|y\|, x as prefix, "#" next, y as suffix |
| `MultiTasking.Channel` | src/multi-tasking.ts:53 | assumed library semantics: no writes keep the channel; a single first write is stored as it is; later writes extend what is stored |
| `MultiTasking.Fold` | src/multi-tasking.ts:5 | applying updates in turn keeps the prior list as prefix and adds one "#" plus the entries of each update |
| `MultiTasking.NodeA` | src/multi-tasking.ts:9-12 | node a writes the one-entry list "A has finished.", whatever the state |
| `MultiTasking.NodeB` | src/multi-tasking.ts:14-17 | node b writes the one-entry list "B has finished.", whatever the state |
| `MultiTasking.NodeC` | src/multi-tasking.ts:19-22 | node c writes the one-entry list "C has finished.", whatever the state |
| `MultiTasking.NodeD` | src/multi-tasking.ts:24-28 | node d writes the one-entry list "D has finished.", whatever the state |
| `MultiTasking.Updates` | src/multi-tasking.ts:30-34 | the writes of one superstep: one per node, each computed from the state the superstep starts from |
| `MultiTasking.Superstep` | src/multi-tasking.ts:5 | a superstep keeps the state as prefix and adds a "#" and an entry per node |
| `MultiTasking.Order` | src/multi-tasking.ts:36-42 | the three supersteps after the entry, each listing only registered nodes |
| `MultiTasking.Run` | src/multi-tasking.ts:36-53 | the input seeds the channel; each superstep extends the history of the one before: by 2, then 4, then 2 entries |
| `MultiTasking.RunFollowsSchedule` | src/multi-tasking.ts:36-42 | superstep i of a run runs exactly the nodes of the schedule's superstep i+1, each once |
| `MultiTasking.SuperstepOfOne` | src/multi-tasking.ts:5 | a one-node superstep appends "#" and the node's entry |
| `MultiTasking.SuperstepOfTwo` | src/multi-tasking.ts:5 | a two-node superstep appends both entries, each after a "#", in the given order |
| `MultiTasking.RunFirstStep` | src/multi-tasking.ts:37 | the superstep {a} appends a's entry to the input |
| `MultiTasking.RunSecondStep` | src/multi-tasking.ts:38-39 | the superstep {c, b} appends both entries in the chosen write order |
| `MultiTasking.RunLastStep` | src/multi-tasking.ts:40-41 | the superstep {d} appends d's entry once |
| `MultiTasking.FoldIsSeparated` | src/multi-tasking.ts:5 | folding updates appends each one, in order, after its own "#" |
| `MultiTasking.FoldGrouping` | src/multi-tasking.ts:5 | folding `us` then `vs` equals folding `us + vs` |
| `MultiTasking.ReducerAssociative` | src/multi-tasking.ts:5 | the reducer is associative |
| `MultiTasking.FoldKeepsAll` | src/multi-tasking.ts:5 | a fold keeps the prior list as prefix and every element of every update |
| `MultiTasking.SeparatedKeepsAll` | src/multi-tasking.ts:5 | the separated form has one "#" per update plus every update's elements |
| `MultiTasking.NodesIgnoreState` | src/multi-tasking.ts:9-28 | every node returns a one-element list independent of its input |
| `MultiTasking.MergeOrderKeepsBoth` | src/multi-tasking.ts:14-22 | merging b's and c's updates in either order keeps both; the orders give different lists with equal multisets |
| `MultiTasking.EntryToA` | src/multi-tasking.ts:37 | the entry leads to a only |
| `MultiTasking.FanOutFromA` | src/multi-tasking.ts:38-39 | a fans out to both c and b |
| `MultiTasking.BranchLeadsToD` | src/multi-tasking.ts:40-41 | each of c and b leads only to d |
| `MultiTasking.JoinInDegree` | src/multi-tasking.ts:40-41 | d's incoming edges come from c and b: in-degree 2 |
| `MultiTasking.DToEnd` | src/multi-tasking.ts:42 | d's only successor is the end |
| `MultiTasking.FirstSuperstep` | src/multi-tasking.ts:37 | the superstep after the entry is {a} |
| `MultiTasking.SecondSuperstep` | src/multi-tasking.ts:38-39 | the superstep after {a} is {c, b} |
| `MultiTasking.ThirdSuperstep` | src/multi-tasking.ts:40-41 | the superstep after {c, b} is {d} |
| `MultiTasking.LastSuperstep` | src/multi-tasking.ts:42 | the superstep after {d} is the end |
| `MultiTasking.JoinRunsOnce` | src/multi-tasking.ts:36-42 | d is in the fourth superstep and in no other, the one after the superstep holding both of its predecessors |
| `MultiTasking.RunSpelledOut` | src/multi-tasking.ts:50-58 | a run appends A, then b's and c's contributions in the write order, then D, each after a "#" |
| `MultiTasking.RunKeepsAllContributions` | src/multi-tasking.ts:50-58 | a run keeps its input as prefix, adds each node's contribution exactly once and ends with D's |
| `MultiTasking.RunOrderOnlyPermutes` | src/multi-tasking.ts:36-42 | the write order within {c, b} changes the order of contributions only |
| `MultiTasking.ScriptedRun` | src/multi-tasking.ts:53 | the scripted input yields the nine-element history |
| `TestAgent.RequestsTools` | src/test-agent.ts:50-53 | a message asks for tools only with a non-empty tool_calls array; a missing, non-array or empty tool_calls never does |
| `TestAgent.ShouldContinue` | src/test-agent.ts:46-58 | "tools" exactly when the last message exists and has a non-empty tool_calls array, END otherwise; always a declared target |
| `TestAgent.Append` | src/test-agent.ts:38-42 | the reducer's result has length \|x\|+\|y\|, x as prefix and y as suffix |
| `TestAgent.CallModel` | src/test-agent.ts:60-64 | the update holds exactly one message, the model's reply |
| `TestAgent.DecisionReadsLastOnly` | src/test-agent.ts:47-48 | two histories with the same last message get the same decision |
| `TestAgent.AppendKeepsAll` | src/test-agent.ts:40 | the reducer drops nothing: its multiset is the sum of both inputs' |
| `TestAgent.RouteFollowsReply` | src/test-agent.ts:46-64 | after the agent node the history grows by one and the route follows from the reply alone |
| `TestAgent.NoToolRequestEnds` | src/test-agent.ts:46-58 | an empty history, a missing or non-array tool_calls, or an empty array all route to END |
| `TestAgent.ToolsReturnToAgent` | src/test-agent.ts:71 | "tools" always returns to "agent" |
| `TestAgent.EntryToAgent` | src/test-agent.ts:69 | the entry leads to "agent" only |
| `TestAgent.AgentOnlyConditional` | src/test-agent.ts:66-71 | "agent" has no unconditional edge; its successor is chosen by the decision |

## Left out

- The graph library (`StateGraph`, `compile`, `invoke`, `drawMermaid`, `ToolNode`, `createReactAgent`) is not part of this model. Its behaviour on each demo graph is written down as an assumption (`AdvancedGraph.Apply`, `AdvancedGraph.Run`, `MultiTasking.Channel`, `MultiTasking.Run`). Registration errors, routing-key errors and general scheduling are not modelled.
- `MultiTasking.Run`: the order in which the library applies c's and b's writes within one superstep is a parameter (`MultiTasking.Order`), because the scripts do not fix it.
- The model calls (ChatGroq, ChatOpenAI, ChatGoogleGenerativeAI, `bindTools`), the Tavily search and the tool node are external services. A model reply is a parameter of `TestAgent.CallModel`. The agent's loop between "agent" and "tools" is run by the library and is not modelled.
- The axios request is network I/O. Its outcome is the `Outcome` parameter of `CicLookup.Lookup`, and the request options (URL, `timeout`, `validateStatus`) are not modelled. `validateStatus: () => true` is reflected only in that every status arrives as a response.
- The older `cic_lookup_tool` (src/graphs.ts:243-270) is a pass-through over the network with no logic of its own.
- `add_numbers_tool` and `String(phoneNumber)` (src/graphs.ts:74-91) are floating-point arithmetic and formatting. The queried phone is a given string.
- The `raw` debug field of the lookup record and every `console.log` are left out.
- `Js.IntToString`: JavaScript numbers are integral in this model. The formatting of fractional, exponent-form, NaN and infinite numbers is not modelled.
- `Js.Get`: arrays are treated as plain objects. Built-in properties of primitives (such as a string's `length`) are not modelled; none of the keys the code reads is one of them.
- `Js.ToJsString`: every object (arrays included) formats as "[object Object]". A custom `toString` and a `toString` that throws are not modelled.
- `AdvancedGraph.NodeA`: the message length counts characters. JavaScript counts UTF-16 code units, which differs for characters outside the Basic Multilingual Plane.
- The other scripts are not part of this model: file streaming, embeddings and retrieval, prompt templating, summarisation, and the constant nodes of `src/simple-graph.ts`. They consist only of library and service calls.
