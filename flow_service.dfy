/** The flow table (`flow_service`): flows are created active, listed and fetched only
    while active, updated field by field, and soft-deleted by clearing the active flag.
    Also the basic shape check of a flow configuration. */
module FlowService {
  import opened Common

  // ---------------------------------------------------------------------------
  // The flow configuration, as the JSON the `flow_data` column holds.

  /** A node object: its "id" and "type" members when present (ids are strings here),
      its "data" object (`{}` when absent) and its printed form `str(node)`. */
  datatype Node = Node(id: Option<string>, nodeType: Option<string>, data: map<string, string>, printed: string)

  /** An edge object: its "id", "source" and "target" members when present and its
      printed form `str(edge)`. */
  datatype Edge = Edge(id: Option<string>, source: Option<string>, target: Option<string>, printed: string)

  /** A member of the configuration object: absent, a list, or another JSON value. */
  datatype Member<T> = Absent | List(items: seq<T>) | NotList

  /** The configuration: an object with its "nodes" and "edges" members, or any other
      JSON value (null included). */
  datatype FlowData = FlowObject(nodes: Member<Node>, edges: Member<Edge>) | NotObject

  /** What `validate_flow_config` accepts: an object whose "nodes" and "edges" are lists,
      every node with an "id" and a "type", every edge with an "id", a "source" and a
      "target". */
  predicate WellFormedConfig(d: FlowData) {
    && d.FlowObject? && d.nodes.List? && d.edges.List?
    && (forall i :: 0 <= i < |d.nodes.items| ==> d.nodes.items[i].id.Some? && d.nodes.items[i].nodeType.Some?)
    && (forall i :: 0 <= i < |d.edges.items| ==>
          d.edges.items[i].id.Some? && d.edges.items[i].source.Some? && d.edges.items[i].target.Some?)
  }

  /** `validate_flow_config`: the type checks, then the node loop and the edge loop, each
      returning False at the first element that lacks a key. */
  method ValidateFlowConfig(d: FlowData) returns (valid: bool)
    ensures valid <==> WellFormedConfig(d)
  {
    if !d.FlowObject? {
      return false;
    }
    if !d.nodes.List? {
      return false;
    }
    if !d.edges.List? {
      return false;
    }
    var nodes, edges := d.nodes.items, d.edges.items;
    for i := 0 to |nodes|
      invariant forall k :: 0 <= k < i ==> nodes[k].id.Some? && nodes[k].nodeType.Some?
    {
      if nodes[i].id.None? || nodes[i].nodeType.None? {
        return false;
      }
    }
    for i := 0 to |edges|
      invariant forall k :: 0 <= k < i ==> edges[k].id.Some? && edges[k].source.Some? && edges[k].target.Some?
    {
      if edges[i].id.None? || edges[i].source.None? || edges[i].target.None? {
        return false;
      }
    }
    return true;
  }

  // ---------------------------------------------------------------------------
  // Rows and requests.

  /** A row of the `flows` table. The name, description and active columns are nullable. */
  datatype Flow = Flow(id: int, name: Option<string>, description: Option<string>, flowData: FlowData,
                       isActive: Option<bool>)

  /** The `is_active == True` filter. */
  predicate Active(f: Flow) {
    f.isActive == Some(true)
  }

  /** The body of a create request. */
  datatype FlowCreate = FlowCreate(name: string, description: Option<string>, flowData: FlowData)

  /** The body of an update request: `None` for a field left unset; a set field carries
      its value, which may be null. */
  datatype FlowUpdate = FlowUpdate(name: Option<Option<string>>, description: Option<Option<string>>,
                                   flowData: Option<FlowData>, isActive: Option<Option<bool>>)

  /** One `(key, value)` item of `flow_data.dict(exclude_unset=True)`. */
  datatype Assignment =
    | SetName(name: Option<string>)
    | SetDescription(description: Option<string>)
    | SetFlowData(flowData: FlowData)
    | SetActive(isActive: Option<bool>)

  /** The set fields of an update, in the schema's field order. */
  function Assignments(u: FlowUpdate): (items: seq<Assignment>)
    ensures |items| <= 4
  {
    (if u.name.Some? then [SetName(u.name.value)] else [])
    + (if u.description.Some? then [SetDescription(u.description.value)] else [])
    + (if u.flowData.Some? then [SetFlowData(u.flowData.value)] else [])
    + (if u.isActive.Some? then [SetActive(u.isActive.value)] else [])
  }

  /** `setattr(db_flow, key, value)`. */
  function Assign(f: Flow, a: Assignment): Flow {
    match a
    case SetName(n) => f.(name := n)
    case SetDescription(d) => f.(description := d)
    case SetFlowData(d) => f.(flowData := d)
    case SetActive(b) => f.(isActive := b)
  }

  function AssignAll(f: Flow, items: seq<Assignment>): Flow
    decreases |items|
  {
    if items == [] then f else AssignAll(Assign(f, items[0]), items[1..])
  }

  /** The flow as the update leaves it: every set field takes the update's value and
      every other field, the id among them, keeps its value. */
  function Updated(f: Flow, u: FlowUpdate): Flow {
    Flow(f.id,
         if u.name.Some? then u.name.value else f.name,
         if u.description.Some? then u.description.value else f.description,
         if u.flowData.Some? then u.flowData.value else f.flowData,
         if u.isActive.Some? then u.isActive.value else f.isActive)
  }

  lemma {:induction false} AssignAllAppend(f: Flow, items: seq<Assignment>, a: Assignment)
    ensures AssignAll(f, items + [a]) == Assign(AssignAll(f, items), a)
    decreases |items|
  {
    if items == [] {
      assert [a][1..] == [];
    } else {
      assert (items + [a])[1..] == items[1..] + [a];
      AssignAllAppend(Assign(f, items[0]), items[1..], a);
    }
  }

  /** Applying the set fields one by one changes exactly those fields. */
  lemma AssignmentsUpdate(f: Flow, u: FlowUpdate)
    ensures AssignAll(f, Assignments(u)) == Updated(f, u)
  {
    var n := if u.name.Some? then [SetName(u.name.value)] else [];
    var d := if u.description.Some? then [SetDescription(u.description.value)] else [];
    var g := if u.flowData.Some? then [SetFlowData(u.flowData.value)] else [];
    var b := if u.isActive.Some? then [SetActive(u.isActive.value)] else [];
    AssignAllSplit(f, n, d + g + b);
    AssignAllSplit(AssignAll(f, n), d, g + b);
    AssignAllSplit(AssignAll(AssignAll(f, n), d), g, b);
    assert Assignments(u) == n + (d + (g + b));
  }

  lemma {:induction false} AssignAllSplit(f: Flow, xs: seq<Assignment>, ys: seq<Assignment>)
    ensures AssignAll(f, xs + ys) == AssignAll(AssignAll(f, xs), ys)
    decreases |xs|
  {
    if xs == [] {
      assert xs + ys == ys;
    } else {
      assert (xs + ys)[1..] == xs[1..] + ys;
      AssignAllSplit(Assign(f, xs[0]), xs[1..], ys);
    }
  }

  // ---------------------------------------------------------------------------
  // Queries over the rows.

  /** The active rows, in row order. */
  function ActiveRows(rows: seq<Flow>): (active: seq<Flow>)
    ensures |active| <= |rows|
    ensures forall f :: f in active <==> f in rows && Active(f)
  {
    if rows == [] then []
    else (if Active(rows[0]) then [rows[0]] else []) + ActiveRows(rows[1..])
  }

  /** The first active row with the id, if any. */
  function FindActive(rows: seq<Flow>, flowId: int): (r: Option<Flow>)
    ensures r.Some? ==> r.value in rows && r.value.id == flowId && Active(r.value)
    ensures r.None? ==> forall i :: 0 <= i < |rows| ==> !(rows[i].id == flowId && Active(rows[i]))
  {
    if rows == [] then None
    else if rows[0].id == flowId && Active(rows[0]) then Some(rows[0])
    else FindActive(rows[1..], flowId)
  }

  /** `.offset(skip).limit(limit)`. */
  function Page(active: seq<Flow>, skip: nat, limit: nat): (page: seq<Flow>)
    ensures |page| == Min(limit, Max(0, |active| - skip))
    ensures forall k :: 0 <= k < |page| ==> page[k] == active[skip + k]
  {
    if skip >= |active| then [] else if |active| - skip <= limit then active[skip..] else active[skip..skip + limit]
  }

  /** The rows are numbered in insertion order, from 1. */
  ghost predicate Numbered(rows: seq<Flow>) {
    forall i :: 0 <= i < |rows| ==> rows[i].id == i + 1
  }

  /** With numbered rows the lookup is the row at `flowId - 1`, when it is active. */
  lemma {:induction false} FindNumbered(rows: seq<Flow>, flowId: int)
    requires Numbered(rows)
    ensures FindActive(rows, flowId)
         == if 1 <= flowId <= |rows| && Active(rows[flowId - 1]) then Some(rows[flowId - 1]) else None
  {
    var r := FindActive(rows, flowId);
    if r.Some? {
      var i :| 0 <= i < |rows| && rows[i] == r.value;
      assert i == flowId - 1;
    }
  }

  // ---------------------------------------------------------------------------
  // The table.

  class FlowTable {
    /** The rows in insertion order; the i-th row has the autoincrement id i + 1.
        Nothing is ever removed. */
    var rows: seq<Flow>

    ghost predicate Valid()
      reads this
    {
      Numbered(rows)
    }

    constructor ()
      ensures Valid() && rows == []
    {
      rows := [];
    }

    /** `get_flows(skip, limit)`: the active flows, `skip` of them dropped, at most
        `limit` returned. */
    function GetFlows(skip: nat, limit: nat): (flows: seq<Flow>)
      reads this
      ensures |flows| == Min(limit, Max(0, |ActiveRows(rows)| - skip))
      ensures forall k :: 0 <= k < |flows| ==> flows[k] in rows && Active(flows[k])
      ensures forall k :: 0 <= k < |flows| ==> flows[k] == ActiveRows(rows)[skip + k]
    {
      Page(ActiveRows(rows), skip, limit)
    }

    /** `get_flow_by_id`: the row with the id while it is active. */
    function GetFlowById(flowId: int): (r: Option<Flow>)
      reads this
      requires Valid()
      ensures r == if 1 <= flowId <= |rows| && Active(rows[flowId - 1]) then Some(rows[flowId - 1]) else None
    {
      FindNumbered(rows, flowId);
      FindActive(rows, flowId)
    }

    /** `create_flow`: a new active row with the next id, holding the request's fields
        as given. */
    method CreateFlow(data: FlowCreate) returns (flow: Flow)
      requires Valid()
      modifies this
      ensures Valid()
      ensures flow == Flow(|old(rows)| + 1, Some(data.name), data.description, data.flowData, Some(true))
      ensures rows == old(rows) + [flow]
      ensures GetFlowById(flow.id) == Some(flow)
    {
      flow := Flow(|rows| + 1, Some(data.name), data.description, data.flowData, Some(true));
      rows := rows + [flow];
    }

    /** `update_flow`: None for a missing or inactive flow; otherwise every set field of
        the request is assigned, one `setattr` at a time, and the row is returned. */
    method UpdateFlow(flowId: int, update: FlowUpdate) returns (r: Option<Flow>)
      requires Valid()
      modifies this
      ensures Valid() && |rows| == |old(rows)|
      ensures old(GetFlowById(flowId)).None? ==> r == None && rows == old(rows)
      ensures old(GetFlowById(flowId)).Some? ==>
        var f := Updated(old(rows)[flowId - 1], update);
        r == Some(f) && rows == old(rows)[flowId - 1 := f]
    {
      var found := GetFlowById(flowId);
      if found.None? {
        return None;
      }
      var i := flowId - 1;
      var items := Assignments(update);
      var f := rows[i];
      for k := 0 to |items|
        invariant rows == old(rows)
        invariant f == AssignAll(old(rows)[i], items[..k])
      {
        assert items[..k + 1] == items[..k] + [items[k]];
        AssignAllAppend(old(rows)[i], items[..k], items[k]);
        f := Assign(f, items[k]);
      }
      assert items[..|items|] == items;
      AssignmentsUpdate(old(rows)[i], update);
      rows := rows[i := f];
      r := Some(f);
    }

    /** `delete_flow`: an active flow has its flag cleared and True is returned; the row
        stays, but the lookup no longer finds it. Otherwise False and nothing changes. */
    method DeleteFlow(flowId: int) returns (deleted: bool)
      requires Valid()
      modifies this
      ensures Valid() && |rows| == |old(rows)|
      ensures deleted == old(GetFlowById(flowId)).Some?
      ensures deleted ==> rows == old(rows)[flowId - 1 := old(rows)[flowId - 1].(isActive := Some(false))]
      ensures !deleted ==> rows == old(rows)
      ensures GetFlowById(flowId) == None
    {
      var found := GetFlowById(flowId);
      if found.None? {
        return false;
      }
      rows := rows[flowId - 1 := found.value.(isActive := Some(false))];
      return true;
    }
  }

  /** Deleting a flow hides it from the listing as well: the active rows after the
      deletion are those before it without the deleted row. */
  lemma DeleteHidesFromListing(rows: seq<Flow>, i: nat)
    requires i < |rows| && Active(rows[i])
    ensures ActiveRows(rows[i := rows[i].(isActive := Some(false))]) == ActiveRows(rows[..i]) + ActiveRows(rows[i + 1..])
    ensures ActiveRows(rows) == ActiveRows(rows[..i]) + ([rows[i]] + ActiveRows(rows[i + 1..]))
  {
    var deleted := rows[i].(isActive := Some(false));
    assert rows == rows[..i] + ([rows[i]] + rows[i + 1..]);
    assert rows[i := deleted] == rows[..i] + ([deleted] + rows[i + 1..]);
    ActiveRowsAppend(rows[..i], [rows[i]] + rows[i + 1..]);
    ActiveRowsAppend(rows[..i], [deleted] + rows[i + 1..]);
    assert ([rows[i]] + rows[i + 1..])[1..] == rows[i + 1..];
    assert ([deleted] + rows[i + 1..])[1..] == rows[i + 1..];
  }

  lemma {:induction false} ActiveRowsAppend(xs: seq<Flow>, ys: seq<Flow>)
    ensures ActiveRows(xs + ys) == ActiveRows(xs) + ActiveRows(ys)
    decreases |xs|
  {
    if xs == [] {
      assert xs + ys == ys;
    } else {
      assert (xs + ys)[1..] == xs[1..] + ys;
      ActiveRowsAppend(xs[1..], ys);
    }
  }
}
