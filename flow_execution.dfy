/** Running a flow (`FlowExecutionService.execute_flow`): the active flow is looked up,
    its connections are validated, input nodes take their values from the input data,
    and sweeps over the node list process every node whose incoming sources are all
    processed, until every node is; the output nodes' values are then collected under
    their output keys. */
module FlowExecution {
  import opened Common
  import opened FlowService
  import opened FlowValidation

  /** A node of a validated flow: its id, its type and its data. */
  datatype Vertex = Vertex(id: string, nodeType: Option<string>, data: map<string, string>)

  /** How `execute_flow` ends: the output dictionary, a `ValueError`, a `KeyError` on a
      missing node value, or a `while` loop that never ends. */
  datatype Execution = Completed(outputs: map<string, string>) | ValueError(message: string) | KeyError(key: string) | Diverges

  /** The bookkeeping of the sweeps: `processed` and `node_values`. */
  datatype Progress = Progress(processed: set<string>, values: map<string, string>)

  /** How the sweeps end: all nodes processed, a missing value, or a sweep that processed
      nothing (after which every later sweep processes nothing either). */
  datatype Sweeping = Finished(values: map<string, string>) | Missing(key: string) | Stalled

  function Vertices(nodes: seq<Node>): (vs: seq<Vertex>)
    requires forall k :: 0 <= k < |nodes| ==> nodes[k].id.Some?
    ensures |vs| == |nodes|
    ensures forall k :: 0 <= k < |nodes| ==> vs[k] == Vertex(nodes[k].id.value, nodes[k].nodeType, nodes[k].data)
  {
    seq(|nodes|, k requires 0 <= k < |nodes| => Vertex(nodes[k].id.value, nodes[k].nodeType, nodes[k].data))
  }

  function VertexIds(vs: seq<Vertex>): (ids: set<string>)
    ensures forall x :: x in ids <==> exists k :: 0 <= k < |vs| && vs[k].id == x
  {
    set k | 0 <= k < |vs| :: vs[k].id
  }

  predicate DistinctIds(vs: seq<Vertex>) {
    forall i, j :: 0 <= i < j < |vs| ==> vs[i].id != vs[j].id
  }

  /** The sources of the links into `v`, in link order (`incoming_edges[v]`). */
  function Sources(links: seq<Link>, v: string): (ss: seq<string>)
    ensures forall u :: u in ss <==> (u, v) in links
  {
    if links == [] then []
    else
      var rest := Sources(links[..|links| - 1], v);
      var last := links[|links| - 1];
      assert links == links[..|links| - 1] + [last];
      if last.1 == v then rest + [last.0] else rest
  }

  function InputKey(v: Vertex): string {
    Get(v.data, "input_key", "default_input")
  }

  function OutputKey(v: Vertex): string {
    Get(v.data, "output_key", "default_output")
  }

  /** No input node after the k-th has the k-th node's id. */
  predicate LastOfId(vs: seq<Vertex>, k: int)
    requires 0 <= k < |vs|
  {
    forall j :: k < j < |vs| && vs[j].nodeType == Some("input") ==> vs[j].id != vs[k].id
  }

  /** No output node after the k-th has the k-th node's output key. */
  predicate LastOfKey(vs: seq<Vertex>, k: int)
    requires 0 <= k < |vs|
  {
    forall j :: k < j < |vs| && vs[j].nodeType == Some("output") ==> OutputKey(vs[j]) != OutputKey(vs[k])
  }

  /** `node_values` before the sweeps: every input node holds the input data's value
      under its input key, or "". */
  function InputValues(vs: seq<Vertex>, inputData: map<string, string>): map<string, string> {
    if vs == [] then map[]
    else
      var last := vs[|vs| - 1];
      var rest := InputValues(vs[..|vs| - 1], inputData);
      if last.nodeType == Some("input") then rest[last.id := Get(inputData, InputKey(last), "")] else rest
  }

  /** `output_data`: every output node's value (or "") under its output key. */
  function Outputs(vs: seq<Vertex>, values: map<string, string>): map<string, string> {
    if vs == [] then map[]
    else
      var last := vs[|vs| - 1];
      var rest := Outputs(vs[..|vs| - 1], values);
      if last.nodeType == Some("output") then rest[OutputKey(last) := Get(values, last.id, "")] else rest
  }

  /** The initial values are keyed by exactly the input nodes' ids. */
  lemma {:induction false} InputValuesKeys(vs: seq<Vertex>, inputData: map<string, string>)
    ensures forall x :: x in InputValues(vs, inputData) <==>
      exists k :: 0 <= k < |vs| && vs[k].id == x && vs[k].nodeType == Some("input")
  {
    if vs != [] {
      var n := |vs| - 1;
      var init := vs[..n];
      InputValuesKeys(init, inputData);
      var rest := InputValues(init, inputData);
      assert InputValues(vs, inputData)
        == if vs[n].nodeType == Some("input") then rest[vs[n].id := Get(inputData, InputKey(vs[n]), "")] else rest;
      forall x | x in InputValues(vs, inputData)
        ensures exists k :: 0 <= k < |vs| && vs[k].id == x && vs[k].nodeType == Some("input")
      {
        if !(x == vs[n].id && vs[n].nodeType == Some("input")) {
          assert x in rest;
          var k :| 0 <= k < |init| && init[k].id == x && init[k].nodeType == Some("input");
          assert vs[k] == init[k];
        }
      }
      forall x | exists k :: 0 <= k < |vs| && vs[k].id == x && vs[k].nodeType == Some("input")
        ensures x in InputValues(vs, inputData)
      {
        var k :| 0 <= k < |vs| && vs[k].id == x && vs[k].nodeType == Some("input");
        if k < n {
          assert init[k] == vs[k];
        }
      }
    }
  }

  /** The last input node with an id decides the initial value under that id. */
  lemma {:induction false} InputValuesLast(vs: seq<Vertex>, inputData: map<string, string>, k: int)
    requires 0 <= k < |vs| && vs[k].nodeType == Some("input") && LastOfId(vs, k)
    ensures vs[k].id in InputValues(vs, inputData)
    ensures InputValues(vs, inputData)[vs[k].id] == Get(inputData, InputKey(vs[k]), "")
  {
    var n := |vs| - 1;
    var init := vs[..n];
    var rest := InputValues(init, inputData);
    assert InputValues(vs, inputData)
      == if vs[n].nodeType == Some("input") then rest[vs[n].id := Get(inputData, InputKey(vs[n]), "")] else rest;
    if k < n {
      assert init[k] == vs[k];
      assert LastOfId(init, k) by {
        forall j | k < j < |init| && init[j].nodeType == Some("input")
          ensures init[j].id != init[k].id
        {
          assert init[j] == vs[j];
        }
      }
      InputValuesLast(init, inputData, k);
      if vs[n].nodeType == Some("input") {
        assert vs[n].id != vs[k].id;
      }
    }
  }

  /** The output dictionary is keyed by exactly the output nodes' output keys. */
  lemma {:induction false} OutputsKeys(vs: seq<Vertex>, values: map<string, string>)
    ensures forall key :: key in Outputs(vs, values) <==>
      exists k :: 0 <= k < |vs| && OutputKey(vs[k]) == key && vs[k].nodeType == Some("output")
  {
    if vs != [] {
      var n := |vs| - 1;
      var init := vs[..n];
      OutputsKeys(init, values);
      var rest := Outputs(init, values);
      assert Outputs(vs, values)
        == if vs[n].nodeType == Some("output") then rest[OutputKey(vs[n]) := Get(values, vs[n].id, "")] else rest;
      forall key | key in Outputs(vs, values)
        ensures exists k :: 0 <= k < |vs| && OutputKey(vs[k]) == key && vs[k].nodeType == Some("output")
      {
        if !(key == OutputKey(vs[n]) && vs[n].nodeType == Some("output")) {
          assert key in rest;
          var k :| 0 <= k < |init| && OutputKey(init[k]) == key && init[k].nodeType == Some("output");
          assert vs[k] == init[k];
        }
      }
      forall key | exists k :: 0 <= k < |vs| && OutputKey(vs[k]) == key && vs[k].nodeType == Some("output")
        ensures key in Outputs(vs, values)
      {
        var k :| 0 <= k < |vs| && OutputKey(vs[k]) == key && vs[k].nodeType == Some("output");
        if k < n {
          assert init[k] == vs[k];
        }
      }
    }
  }

  /** The last output node with an output key decides the output under that key. */
  lemma {:induction false} OutputsLast(vs: seq<Vertex>, values: map<string, string>, k: int)
    requires 0 <= k < |vs| && vs[k].nodeType == Some("output") && LastOfKey(vs, k)
    ensures OutputKey(vs[k]) in Outputs(vs, values)
    ensures Outputs(vs, values)[OutputKey(vs[k])] == Get(values, vs[k].id, "")
  {
    var n := |vs| - 1;
    var init := vs[..n];
    var rest := Outputs(init, values);
    assert Outputs(vs, values)
      == if vs[n].nodeType == Some("output") then rest[OutputKey(vs[n]) := Get(values, vs[n].id, "")] else rest;
    if k < n {
      assert init[k] == vs[k];
      assert LastOfKey(init, k) by {
        forall j | k < j < |init| && init[j].nodeType == Some("output")
          ensures OutputKey(init[j]) != OutputKey(init[k])
        {
          assert init[j] == vs[j];
        }
      }
      OutputsLast(init, values, k);
      if vs[n].nodeType == Some("output") {
        assert OutputKey(vs[n]) != OutputKey(vs[k]);
      }
    }
  }

  function NoChatInputMessage(): string {
    "No input provided " + "to chatbot node"
  }

  /** `str(node_type)`: the type, or `None` when the node has none. */
  function TypeText(nodeType: Option<string>): string {
    if nodeType.Some? then nodeType.value else "None"
  }

  function UnsupportedMessage(nodeType: Option<string>): string {
    "Unsupported node type: " + TypeText(nodeType)
  }

  /** The chatbot node's value: the answer to the first source's value, or the error text
      of whatever the call (or the lookup of that value) raised. */
  function ChatValue(incoming: seq<string>, values: map<string, string>, chat: string -> Result<string>): string {
    if incoming == [] then NoChatInputMessage()
    else if incoming[0] !in values then "Error: " + KeyErrorText(incoming[0])
    else match chat(values[incoming[0]])
      case Ok(answer) => answer
      case Err(e) => "Error: " + e
  }

  /** Processing one ready node: input nodes keep their value, output and transform
      nodes copy the first source's value (a `KeyError` when it has none), chatbot
      nodes ask the chatbot, and any other type is reported as unsupported. Err
      carries the missing key. */
  function Step(v: Vertex, incoming: seq<string>, values: map<string, string>, chat: string -> Result<string>): Result<map<string, string>> {
    if v.nodeType == Some("input") then Ok(values)
    else if v.nodeType == Some("output") || v.nodeType == Some("transform") then
      if incoming == [] then Ok(values)
      else if incoming[0] !in values then Err(incoming[0])
      else Ok(values[v.id := values[incoming[0]]])
    else if v.nodeType == Some("chatbot") then Ok(values[v.id := ChatValue(incoming, values, chat)])
    else Ok(values[v.id := UnsupportedMessage(v.nodeType)])
  }

  /** One iteration of the inner `for` loop: a node already processed, or with a source
      not yet processed, is skipped; otherwise it is processed and marked. */
  function Visit(v: Vertex, links: seq<Link>, st: Progress, chat: string -> Result<string>): (r: Result<Progress>)
    ensures r.Ok? ==> st.processed <= r.value.processed <= st.processed + {v.id}
    ensures r.Ok? && v.id in r.value.processed - st.processed ==>
      forall u :: (u, v.id) in links ==> u in st.processed
    ensures v.id !in st.processed && (forall u :: (u, v.id) in links ==> u in st.processed) ==>
      r.Err? || v.id in r.value.processed
  {
    var incoming := Sources(links, v.id);
    if v.id in st.processed || !(forall k :: 0 <= k < |incoming| ==> incoming[k] in st.processed) then Ok(st)
    else
      match Step(v, incoming, st.values, chat)
      case Err(key) => Err(key)
      case Ok(values) => Ok(Progress(st.processed + {v.id}, values))
  }

  /** One pass of the inner `for` loop over the nodes in order. */
  function Sweep(vs: seq<Vertex>, links: seq<Link>, st: Progress, chat: string -> Result<string>): (r: Result<Progress>)
    ensures r.Ok? ==> st.processed <= r.value.processed
    ensures r.Ok? ==> forall x :: x in r.value.processed ==> x in st.processed || exists k :: 0 <= k < |vs| && vs[k].id == x
  {
    if vs == [] then Ok(st)
    else
      var n := |vs| - 1;
      match Sweep(vs[..n], links, st, chat)
      case Err(key) => Err(key)
      case Ok(st1) => Visit(vs[n], links, st1, chat)
  }

  /** The `while` loop: sweeps until the processed set is as large as the node list. */
  function Sweeps(vs: seq<Vertex>, links: seq<Link>, st: Progress, chat: string -> Result<string>): Sweeping
    requires st.processed <= VertexIds(vs)
    decreases VertexIds(vs) - st.processed
  {
    if |st.processed| >= |vs| then Finished(st.values)
    else
      match Sweep(vs, links, st, chat)
      case Err(key) => Missing(key)
      case Ok(st1) =>
        if st1.processed == st.processed then Stalled
        else
          assert VertexIds(vs) - st1.processed < VertexIds(vs) - st.processed by {
            var x :| x in st1.processed && x !in st.processed;
            assert x in VertexIds(vs) - st.processed;
          }
          Sweeps(vs, links, st1, chat)
  }

  /** The run of a validated flow, from the input values to the output dictionary. */
  function Evaluate(vs: seq<Vertex>, links: seq<Link>, inputData: map<string, string>, chat: string -> Result<string>): Execution {
    match Sweeps(vs, links, Progress({}, InputValues(vs, inputData)), chat)
    case Finished(values) => Completed(Outputs(vs, values))
    case Missing(key) => KeyError(key)
    case Stalled => Diverges
  }

  function NotFoundMessage(flowId: int): string {
    "Flow with ID " + IntToString(flowId) + " not found " + "or not active"
  }

  function InvalidMessage(error: string): string {
    "Invalid flow " + "configuration: " + error
  }

  /** What `execute_flow` does with the flow the query found (None when there is no
      active flow with that id). */
  ghost function ExecuteSpec(found: Option<Flow>, flowId: int, inputData: map<string, string>, chat: string -> Result<string>): Execution
    requires found.Some? ==> Checkable(found.value.flowData)
  {
    if found.None? then ValueError(NotFoundMessage(flowId))
    else
      var check := ConnectionCheck(found.value.flowData);
      if !check.0 then ValueError(InvalidMessage(check.1))
      else
        var nodes, edges := found.value.flowData.nodes.items, found.value.flowData.edges.items;
        GraphCheckValid(nodes, edges);
        Evaluate(Vertices(nodes), Links(edges), inputData, chat)
  }

  /** An error in some pass of the sweep is the error of the whole sweep. */
  lemma {:induction false} SweepKeepsError(vs: seq<Vertex>, links: seq<Link>, st: Progress, chat: string -> Result<string>, i: nat)
    requires i <= |vs| && Sweep(vs[..i], links, st, chat).Err?
    ensures Sweep(vs, links, st, chat) == Sweep(vs[..i], links, st, chat)
  {
    if i < |vs| {
      var n := |vs| - 1;
      assert vs[..n][..i] == vs[..i];
      SweepKeepsError(vs[..n], links, st, chat, i);
    } else {
      assert vs[..i] == vs;
    }
  }

  /** The edge lists of `execute_flow`: an empty list for every node, then every edge's
      source appended to its target's list. */
  method BuildIncoming(vs: seq<Vertex>, links: seq<Link>) returns (incoming: map<string, seq<string>>)
    requires forall k :: 0 <= k < |links| ==> links[k].1 in VertexIds(vs)
    ensures incoming.Keys == VertexIds(vs)
    ensures forall v :: v in incoming ==> incoming[v] == Sources(links, v)
  {
    incoming := map[];
    for i := 0 to |vs|
      invariant forall x :: x in incoming <==> exists k :: 0 <= k < i && vs[k].id == x
      invariant forall x :: x in incoming ==> incoming[x] == []
    {
      incoming := incoming[vs[i].id := []];
    }
    for k := 0 to |links|
      invariant incoming.Keys == VertexIds(vs)
      invariant forall x :: x in incoming ==> incoming[x] == Sources(links[..k], x)
    {
      var source, target := links[k].0, links[k].1;
      assert links[..k + 1][..k] == links[..k];
      incoming := incoming[target := incoming[target] + [source]];
    }
    assert links[..|links|] == links;
  }

  /** One pass of the inner `for` loop. */
  method SweepOnce(vs: seq<Vertex>, links: seq<Link>, incoming: map<string, seq<string>>, st: Progress,
                   chat: string -> Result<string>) returns (r: Result<Progress>)
    requires incoming.Keys == VertexIds(vs)
    requires forall v :: v in incoming ==> incoming[v] == Sources(links, v)
    ensures r == Sweep(vs, links, st, chat)
  {
    var processed, values := st.processed, st.values;
    for i := 0 to |vs|
      invariant Sweep(vs[..i], links, st, chat) == Ok(Progress(processed, values))
    {
      assert vs[..i + 1][..i] == vs[..i];
      var v := vs[i];
      if v.id in processed {
        continue;
      }
      assert v.id in VertexIds(vs);
      var sources := incoming[v.id];
      if forall k :: 0 <= k < |sources| ==> sources[k] in processed {
        var step := Step(v, sources, values, chat);
        if step.Err? {
          SweepKeepsError(vs, links, st, chat, i + 1);
          return Err(step.error);
        }
        values := step.value;
        processed := processed + {v.id};
      }
    }
    assert vs[..|vs|] == vs;
    r := Ok(Progress(processed, values));
  }

  /** The `while` loop over the sweeps, returning when a sweep processes nothing (where
      the source loops forever). */
  method SweepAll(vs: seq<Vertex>, links: seq<Link>, incoming: map<string, seq<string>>, values: map<string, string>,
                  chat: string -> Result<string>) returns (outcome: Sweeping)
    requires incoming.Keys == VertexIds(vs)
    requires forall v :: v in incoming ==> incoming[v] == Sources(links, v)
    ensures outcome == Sweeps(vs, links, Progress({}, values), chat)
  {
    var st := Progress({}, values);
    while |st.processed| < |vs|
      invariant st.processed <= VertexIds(vs)
      invariant Sweeps(vs, links, st, chat) == Sweeps(vs, links, Progress({}, values), chat)
      decreases VertexIds(vs) - st.processed
    {
      var next := SweepOnce(vs, links, incoming, st, chat);
      if next.Err? {
        return Missing(next.error);
      }
      if next.value.processed == st.processed {
        return Stalled;
      }
      st := next.value;
    }
    outcome := Finished(st.values);
  }

  /** The part of `execute_flow` after validation: the edge lists, the input values, the
      sweeps and the output collection. */
  method Run(vs: seq<Vertex>, links: seq<Link>, inputData: map<string, string>, chat: string -> Result<string>)
    returns (result: Execution)
    requires forall k :: 0 <= k < |links| ==> links[k].1 in VertexIds(vs)
    ensures result == Evaluate(vs, links, inputData, chat)
  {
    var incoming := BuildIncoming(vs, links);
    var values: map<string, string> := map[];
    for i := 0 to |vs|
      invariant values == InputValues(vs[..i], inputData)
    {
      assert vs[..i + 1][..i] == vs[..i];
      if vs[i].nodeType == Some("input") {
        values := values[vs[i].id := Get(inputData, InputKey(vs[i]), "")];
      }
    }
    assert vs[..|vs|] == vs;
    var outcome := SweepAll(vs, links, incoming, values, chat);
    match outcome
    case Missing(key) => return KeyError(key);
    case Stalled => return Diverges;
    case Finished(finalValues) =>
      var outputs: map<string, string> := map[];
      for i := 0 to |vs|
        invariant outputs == Outputs(vs[..i], finalValues)
      {
        assert vs[..i + 1][..i] == vs[..i];
        if vs[i].nodeType == Some("output") {
          outputs := outputs[OutputKey(vs[i]) := Get(finalValues, vs[i].id, "")];
        }
      }
      assert vs[..|vs|] == vs;
      result := Completed(outputs);
  }

  /** `execute_flow`: the active flow with that id, or a `ValueError`; its validation, or
      a `ValueError` carrying the validation message; then the run. */
  method ExecuteFlow(table: FlowTable, flowId: int, inputData: map<string, string>, chat: string -> Result<string>)
    returns (result: Execution)
    requires table.Valid()
    requires table.GetFlowById(flowId).Some? ==> Checkable(table.GetFlowById(flowId).value.flowData)
    ensures result == ExecuteSpec(table.GetFlowById(flowId), flowId, inputData, chat)
  {
    var found := table.GetFlowById(flowId);
    if found.None? {
      return ValueError(NotFoundMessage(flowId));
    }
    var valid, error := ValidateConnections(found.value.flowData);
    if !valid {
      return ValueError(InvalidMessage(error));
    }
    var nodes, edges := found.value.flowData.nodes.items, found.value.flowData.edges.items;
    GraphCheckValid(nodes, edges);
    var vs := Vertices(nodes);
    forall k | 0 <= k < |edges|
      ensures Links(edges)[k].1 in VertexIds(vs)
    {
      var j :| 0 <= j < |nodes| && nodes[j].id == Some(edges[k].target.value);
      assert vs[j].id == edges[k].target.value;
    }
    result := Run(vs, Links(edges), inputData, chat);
  }

  // ---------------------------------------------------------------------------
  // When the sweeps end.

  /** The ids of a node list with one more node. */
  lemma IdsSnoc(vs: seq<Vertex>)
    requires vs != []
    ensures VertexIds(vs) == VertexIds(vs[..|vs| - 1]) + {vs[|vs| - 1].id}
  {
    var n := |vs| - 1;
    var prefix := vs[..n];
    forall x | x in VertexIds(vs)
      ensures x in VertexIds(prefix) + {vs[n].id}
    {
      var k :| 0 <= k < |vs| && vs[k].id == x;
      if k < n {
        assert prefix[k].id == x;
      }
    }
    forall x | x in VertexIds(prefix)
      ensures x in VertexIds(vs)
    {
      var k :| 0 <= k < n && prefix[k].id == x;
      assert vs[k].id == x;
    }
  }

  /** A node list with one more node has distinct ids exactly when the shorter list has
      and the new id is new. */
  lemma DistinctSnoc(vs: seq<Vertex>)
    requires vs != []
    ensures DistinctIds(vs) <==> DistinctIds(vs[..|vs| - 1]) && vs[|vs| - 1].id !in VertexIds(vs[..|vs| - 1])
  {
    var n := |vs| - 1;
    var prefix := vs[..n];
    if DistinctIds(vs) {
      forall i, j | 0 <= i < j < n
        ensures prefix[i].id != prefix[j].id
      {
        assert prefix[i] == vs[i] && prefix[j] == vs[j];
      }
      forall k | 0 <= k < n
        ensures prefix[k].id != vs[n].id
      {
        assert prefix[k] == vs[k];
      }
    }
    if DistinctIds(prefix) && vs[n].id !in VertexIds(prefix) {
      forall i, j | 0 <= i < j < |vs|
        ensures vs[i].id != vs[j].id
      {
        assert prefix[i] == vs[i];
        if j < n {
          assert prefix[j] == vs[j];
        }
      }
    }
  }

  /** There are at most as many ids as nodes, exactly as many when the ids are
      distinct. */
  lemma {:induction false} IdsCount(vs: seq<Vertex>)
    ensures |VertexIds(vs)| <= |vs|
    ensures DistinctIds(vs) <==> |VertexIds(vs)| == |vs|
  {
    if vs != [] {
      var n := |vs| - 1;
      IdsCount(vs[..n]);
      IdsSnoc(vs);
      DistinctSnoc(vs);
    }
  }

  /** A node that is not processed and all of whose sources are processed gets processed
      in the next sweep, unless the sweep raises. */
  lemma {:induction false} SweepReaches(vs: seq<Vertex>, links: seq<Link>, st: Progress, chat: string -> Result<string>, j: nat)
    requires j < |vs| && vs[j].id !in st.processed
    requires forall u :: (u, vs[j].id) in links ==> u in st.processed
    ensures Sweep(vs, links, st, chat).Err? || vs[j].id in Sweep(vs, links, st, chat).value.processed
  {
    var n := |vs| - 1;
    var prev := Sweep(vs[..n], links, st, chat);
    if prev.Ok? {
      if j < n {
        assert vs[..n][j] == vs[j];
        SweepReaches(vs[..n], links, st, chat, j);
      }
    }
  }

  /** Some link into `u` starts inside `U`. */
  ghost predicate FedFrom(links: seq<Link>, U: set<string>, u: string) {
    exists s :: s in U && (s, u) in links
  }

  /** A walk against the links that stays inside `U`, when every node of `U` has a source
      in `U`. */
  lemma BackWalk(links: seq<Link>, U: set<string>, n: nat) returns (w: seq<string>)
    requires U != {}
    requires forall u :: u in U ==> FedFrom(links, U, u)
    ensures |w| == n + 1 && forall k :: 0 <= k < |w| ==> w[k] in U
    ensures forall k :: 0 <= k < n ==> (w[k + 1], w[k]) in links
  {
    if n == 0 {
      var u :| u in U;
      w := [u];
    } else {
      var prev := BackWalk(links, U, n - 1);
      assert prev[n - 1] in U;
      var s :| s in U && (s, prev[n - 1]) in links;
      w := prev + [s];
      forall k | 0 <= k < n
        ensures (w[k + 1], w[k]) in links
      {
        if k < n - 1 {
          assert w[k] == prev[k] && w[k + 1] == prev[k + 1];
        }
      }
    }
  }

  /** More elements than the set has values repeat one. */
  lemma {:induction false} Pigeonhole(w: seq<string>, S: set<string>) returns (i: nat, j: nat)
    requires forall k :: 0 <= k < |w| ==> w[k] in S
    requires |w| > |S|
    ensures i < j < |w| && w[i] == w[j]
  {
    var n := |w| - 1;
    var last := w[n];
    if k :| 0 <= k < n && w[k] == last {
      i, j := k, n;
    } else {
      forall k | 0 <= k < n
        ensures w[..n][k] in S - {last}
      {
        assert w[..n][k] == w[k];
      }
      i, j := Pigeonhole(w[..n], S - {last});
    }
  }

  /** A backward walk that repeats a node, read forwards, is a cycle. */
  lemma RepeatCycle(links: seq<Link>, w: seq<string>, i: nat, j: nat)
    requires i < j < |w| && w[i] == w[j]
    requires forall k :: 0 <= k < |w| - 1 ==> (w[k + 1], w[k]) in links
    ensures HasCycle(links)
  {
    var c := seq(j - i + 1, m requires 0 <= m <= j - i => w[j - m]);
    forall m | 0 <= m < |c| - 1
      ensures (c[m], c[m + 1]) in links
    {
      assert c[m] == w[(j - m - 1) + 1] && c[m + 1] == w[j - m - 1];
    }
    assert IsCycle(links, c);
  }

  /** Without cycles, some unprocessed node has all its sources processed. */
  lemma ReadyExists(links: seq<Link>, ids: set<string>, processed: set<string>) returns (u: string)
    requires forall k :: 0 <= k < |links| ==> links[k].0 in ids
    requires !HasCycle(links)
    requires !(ids <= processed)
    ensures u in ids && u !in processed && forall s :: (s, u) in links ==> s in processed
  {
    var U := ids - processed;
    var y :| y in ids && y !in processed;
    assert y in U;
    if forall x :: x in U ==> FedFrom(links, U, x) {
      var w := BackWalk(links, U, |U|);
      var i, j := Pigeonhole(w, U);
      RepeatCycle(links, w, i, j);
      assert false;
    }
    var x :| x in U && !FedFrom(links, U, x);
    forall s | (s, x) in links
      ensures s in processed
    {
      var k :| 0 <= k < |links| && links[k] == (s, x);
    }
    u := x;
  }

  /** With distinct ids, sources among the nodes and no cycle, every sweep before the
      last processes some node, so the `while` loop ends. */
  lemma {:induction false} NeverStalls(vs: seq<Vertex>, links: seq<Link>, st: Progress, chat: string -> Result<string>)
    requires DistinctIds(vs)
    requires forall k :: 0 <= k < |links| ==> links[k].0 in VertexIds(vs)
    requires !HasCycle(links)
    requires st.processed <= VertexIds(vs)
    ensures !Sweeps(vs, links, st, chat).Stalled?
    decreases VertexIds(vs) - st.processed
  {
    if |st.processed| < |vs| {
      IdsCount(vs);
      var missed := Missed(st.processed, VertexIds(vs));
      var u := ReadyExists(links, VertexIds(vs), st.processed);
      var j :| 0 <= j < |vs| && vs[j].id == u;
      SweepReaches(vs, links, st, chat, j);
      var next := Sweep(vs, links, st, chat);
      if next.Ok? {
        assert u in next.value.processed - st.processed;
        assert u in VertexIds(vs) - st.processed;
        NeverStalls(vs, links, next.value, chat);
      }
    }
  }

  /** Duplicate ids keep the processed set smaller than the node list, so the `while`
      loop never finishes. */
  lemma {:induction false} DuplicatesNeverFinish(vs: seq<Vertex>, links: seq<Link>, st: Progress, chat: string -> Result<string>)
    requires !DistinctIds(vs)
    requires st.processed <= VertexIds(vs)
    ensures !Sweeps(vs, links, st, chat).Finished?
    decreases VertexIds(vs) - st.processed
  {
    IdsCount(vs);
    SubsetCard(st.processed, VertexIds(vs));
    var next := Sweep(vs, links, st, chat);
    if next.Ok? && next.value.processed != st.processed {
      var x :| x in next.value.processed && x !in st.processed;
      assert x in VertexIds(vs) - st.processed;
      DuplicatesNeverFinish(vs, links, next.value, chat);
    }
  }

  /** A run of an acyclic flow with distinct node ids ends: it completes or raises. */
  lemma AcyclicRunsEnd(vs: seq<Vertex>, links: seq<Link>, inputData: map<string, string>, chat: string -> Result<string>)
    requires DistinctIds(vs)
    requires forall k :: 0 <= k < |links| ==> links[k].0 in VertexIds(vs)
    requires !HasCycle(links)
    ensures !Evaluate(vs, links, inputData, chat).Diverges?
  {
    NeverStalls(vs, links, Progress({}, InputValues(vs, inputData)), chat);
  }

  /** A run of a flow with two nodes of the same id never completes: it raises or loops
      forever. */
  lemma DuplicateIdsNeverComplete(vs: seq<Vertex>, links: seq<Link>, inputData: map<string, string>, chat: string -> Result<string>)
    requires !DistinctIds(vs)
    ensures !Evaluate(vs, links, inputData, chat).Completed?
  {
    DuplicatesNeverFinish(vs, links, Progress({}, InputValues(vs, inputData)), chat);
  }

  /** A validated flow whose node ids are distinct never makes `execute_flow` loop
      forever. */
  lemma ValidatedFlowsEnd(found: Option<Flow>, flowId: int, inputData: map<string, string>, chat: string -> Result<string>)
    requires found.Some? && Checkable(found.value.flowData)
    requires var d := found.value.flowData;
      d.nodes.List? ==> forall i, j :: 0 <= i < j < |d.nodes.items| ==> d.nodes.items[i].id != d.nodes.items[j].id
    ensures !ExecuteSpec(found, flowId, inputData, chat).Diverges?
  {
    var d := found.value.flowData;
    if ConnectionCheck(d).0 {
      var nodes, edges := d.nodes.items, d.edges.items;
      GraphCheckValid(nodes, edges);
      var vs := Vertices(nodes);
      var links := Links(edges);
      forall k | 0 <= k < |links|
        ensures links[k].0 in VertexIds(vs)
      {
        var j :| 0 <= j < |nodes| && nodes[j].id == Some(links[k].0);
        assert vs[j].id == links[k].0;
      }
      AcyclicRunsEnd(vs, links, inputData, chat);
    }
  }

  /** A flow with two nodes of the same id never completes `execute_flow`, even when it
      passes validation, which does not look for duplicate ids. */
  lemma DuplicateNodesNeverComplete(found: Option<Flow>, flowId: int, inputData: map<string, string>, chat: string -> Result<string>, i: nat, j: nat)
    requires found.Some? && Checkable(found.value.flowData)
    requires var d := found.value.flowData;
      d.nodes.List? && i < j < |d.nodes.items| && d.nodes.items[i].id == d.nodes.items[j].id
    ensures !ExecuteSpec(found, flowId, inputData, chat).Completed?
  {
    var d := found.value.flowData;
    if ConnectionCheck(d).0 {
      var nodes, edges := d.nodes.items, d.edges.items;
      GraphCheckValid(nodes, edges);
      var vs := Vertices(nodes);
      assert vs[i].id == vs[j].id;
      DuplicateIdsNeverComplete(vs, Links(edges), inputData, chat);
    }
  }

  /** The flow of the service's example run: an input node feeding a chatbot node feeding
      an output node. The output key holds the chatbot's answer to the input value. */
  lemma ChatPipeline(a: string, b: string, c: string, inData: map<string, string>, chatData: map<string, string>,
                     outData: map<string, string>, inputData: map<string, string>, chat: string -> Result<string>)
    requires a != b && b != c && a != c
    ensures var vs := [Vertex(a, Some("input"), inData), Vertex(b, Some("chatbot"), chatData), Vertex(c, Some("output"), outData)];
      var question := Get(inputData, Get(inData, "input_key", "default_input"), "");
      var answer := match chat(question) case Ok(r) => r case Err(e) => "Error: " + e;
      Evaluate(vs, [(a, b), (b, c)], inputData, chat) == Completed(map[Get(outData, "output_key", "default_output") := answer])
  {
    var va, vb, vc := Vertex(a, Some("input"), inData), Vertex(b, Some("chatbot"), chatData), Vertex(c, Some("output"), outData);
    var vs := [va, vb, vc];
    var links := [(a, b), (b, c)];
    var question := Get(inputData, Get(inData, "input_key", "default_input"), "");
    var answer := match chat(question) case Ok(r) => r case Err(e) => "Error: " + e;
    var values0 := map[a := question];
    PipelineEnds(va, vb, vc, inputData, values0[b := answer][c := answer]);
    var s3 := PipelineSweep(a, b, c, va, vb, vc, values0, chat);
    assert s3.values == values0[b := answer][c := answer];
    assert |s3.processed| == 3;
    FullSweepFinishes(vs, links, Progress({}, values0), s3, chat);
    assert Outputs(vs, s3.values) == map[Get(outData, "output_key", "default_output") := answer];
  }

  /** A sweep that leaves as many nodes processed as there are nodes ends the loop. */
  lemma FullSweepFinishes(vs: seq<Vertex>, links: seq<Link>, st: Progress, st1: Progress, chat: string -> Result<string>)
    requires st.processed <= VertexIds(vs) && |st.processed| < |vs|
    requires Sweep(vs, links, st, chat) == Ok(st1) && |st1.processed| >= |vs|
    ensures Sweeps(vs, links, st, chat) == Finished(st1.values)
  {
    assert st1.processed <= VertexIds(vs);
  }

  /** The input values and the output dictionary of the pipeline. */
  lemma PipelineEnds(va: Vertex, vb: Vertex, vc: Vertex, inputData: map<string, string>, values: map<string, string>)
    requires va.nodeType == Some("input") && vb.nodeType == Some("chatbot") && vc.nodeType == Some("output")
    ensures InputValues([va, vb, vc], inputData) == map[va.id := Get(inputData, InputKey(va), "")]
    ensures Outputs([va, vb, vc], values) == map[OutputKey(vc) := Get(values, vc.id, "")]
  {
    var vs := [va, vb, vc];
    assert vs[..2] == [va, vb] && [va, vb][..1] == [va] && [va][..0] == [];
    assert InputValues([], inputData) == map[] && Outputs([], values) == map[];
    assert InputValues([va], inputData) == map[va.id := Get(inputData, InputKey(va), "")];
    assert InputValues([va, vb], inputData) == InputValues([va], inputData);
    assert Outputs([va], values) == map[];
    assert Outputs([va, vb], values) == map[];
  }

  /** The sources of the pipeline's nodes. */
  lemma PipelineSources(a: string, b: string, c: string)
    requires a != b && b != c && a != c
    ensures Sources([(a, b), (b, c)], a) == [] && Sources([(a, b), (b, c)], b) == [a] && Sources([(a, b), (b, c)], c) == [b]
  {
    var links := [(a, b), (b, c)];
    assert links[..1] == [(a, b)] && [(a, b)][..0] == [];
    assert Sources([], a) == [] && Sources([], b) == [] && Sources([], c) == [];
    assert Sources([(a, b)], a) == [];
    assert Sources([(a, b)], b) == [] + [a];
    assert Sources([(a, b)], c) == [];
  }

  /** The first sweep over the pipeline processes all three nodes. */
  lemma PipelineSweep(a: string, b: string, c: string, va: Vertex, vb: Vertex, vc: Vertex,
                      values0: map<string, string>, chat: string -> Result<string>) returns (s3: Progress)
    requires a != b && b != c && a != c && a in values0
    requires va.id == a && va.nodeType == Some("input")
    requires vb.id == b && vb.nodeType == Some("chatbot")
    requires vc.id == c && vc.nodeType == Some("output")
    ensures var answer := match chat(values0[a]) case Ok(r) => r case Err(e) => "Error: " + e;
      s3 == Progress({a, b, c}, values0[b := answer][c := answer])
      && Sweep([va, vb, vc], [(a, b), (b, c)], Progress({}, values0), chat) == Ok(s3)
  {
    var links := [(a, b), (b, c)];
    var vs := [va, vb, vc];
    var answer := match chat(values0[a]) case Ok(r) => r case Err(e) => "Error: " + e;
    PipelineSources(a, b, c);
    assert vs[..2] == [va, vb] && [va, vb][..1] == [va] && [va][..0] == [];
    var s0 := Progress({}, values0);
    var s1 := Progress({a}, values0);
    var s2 := Progress({a, b}, values0[b := answer]);
    s3 := Progress({a, b, c}, values0[b := answer][c := answer]);
    assert s0.processed + {a} == s1.processed && s1.processed + {b} == s2.processed && s2.processed + {c} == s3.processed;
    PipelineVisits(a, b, c, va, vb, vc, values0, chat);
    assert Sweep([], links, s0, chat) == Ok(s0);
    assert Sweep([va], links, s0, chat) == Ok(s1);
    assert Sweep([va, vb], links, s0, chat) == Ok(s2);
  }

  /** Each node of the pipeline is ready in its turn. */
  lemma PipelineVisits(a: string, b: string, c: string, va: Vertex, vb: Vertex, vc: Vertex,
                       values0: map<string, string>, chat: string -> Result<string>)
    requires a != b && b != c && a != c && a in values0
    requires va.id == a && va.nodeType == Some("input")
    requires vb.id == b && vb.nodeType == Some("chatbot")
    requires vc.id == c && vc.nodeType == Some("output")
    ensures var answer := match chat(values0[a]) case Ok(r) => r case Err(e) => "Error: " + e;
      var links := [(a, b), (b, c)];
      && Visit(va, links, Progress({}, values0), chat) == Ok(Progress({a}, values0))
      && Visit(vb, links, Progress({a}, values0), chat) == Ok(Progress({a, b}, values0[b := answer]))
      && Visit(vc, links, Progress({a, b}, values0[b := answer]), chat)
         == Ok(Progress({a, b, c}, values0[b := answer][c := answer]))
  {
    var answer := match chat(values0[a]) case Ok(r) => r case Err(e) => "Error: " + e;
    PipelineSources(a, b, c);
    assert {} + {a} == {a} && {a} + {b} == {a, b} && {a, b} + {c} == {a, b, c};
    assert Step(va, [], values0, chat) == Ok(values0);
    assert ChatValue([a], values0, chat) == answer;
    assert Step(vb, [a], values0, chat) == Ok(values0[b := answer]);
    assert Step(vc, [b], values0[b := answer], chat) == Ok(values0[b := answer][c := answer]);
  }
}
