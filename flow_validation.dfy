/** Connection checks of a flow (`FlowExecutionService.validate_connections` and
    `_has_cycles`): every node has an id, every edge joins two existing nodes, input
    nodes feed something, output nodes are fed, and the graph of edges has no
    directed cycle, which a depth-first search with a recursion stack decides. */
module FlowValidation {
  import opened Common
  import opened FlowService

  // ---------------------------------------------------------------------------
  // Directed graphs as lists of (source, target) links.

  type Link = (string, string)

  /** A closed walk along the links: at least one step, ending where it starts. */
  predicate IsCycle(links: seq<Link>, walk: seq<string>) {
    && |walk| >= 2 && walk[0] == walk[|walk| - 1]
    && forall k :: 0 <= k < |walk| - 1 ==> (walk[k], walk[k + 1]) in links
  }

  ghost predicate HasCycle(links: seq<Link>) {
    exists walk :: IsCycle(links, walk)
  }

  /** The targets of the links leaving `u`, in link order (`adjacency[u]`). */
  function Targets(links: seq<Link>, u: string): (ts: seq<string>)
    ensures forall v :: v in ts <==> (u, v) in links
  {
    if links == [] then []
    else
      var rest := Targets(links[..|links| - 1], u);
      var last := links[|links| - 1];
      assert links == links[..|links| - 1] + [last];
      if last.0 == u then rest + [last.1] else rest
  }

  /** A walk on which a rank strictly falls at every step has no repeated ends, so
      rising ranks along the links rule out cycles. */
  lemma {:induction false} RankFalls(links: seq<Link>, rank: map<string, nat>, walk: seq<string>, k: nat)
    requires forall x, y :: x in rank && (x, y) in links ==> y in rank && rank[y] < rank[x]
    requires 1 <= k < |walk| && walk[0] in rank
    requires forall j :: 0 <= j < |walk| - 1 ==> (walk[j], walk[j + 1]) in links
    ensures walk[k] in rank && rank[walk[k]] + k <= rank[walk[0]]
  {
    if k > 1 {
      RankFalls(links, rank, walk, k - 1);
    }
    assert (walk[k - 1], walk[k]) in links;
  }

  lemma RankedAcyclic(links: seq<Link>, rank: map<string, nat>)
    requires forall x, y :: x in rank && (x, y) in links ==> y in rank && rank[y] < rank[x]
    requires forall k :: 0 <= k < |links| ==> links[k].0 in rank
    ensures !HasCycle(links)
  {
    if HasCycle(links) {
      var walk :| IsCycle(links, walk);
      assert (walk[0], walk[1]) in links;
      var i :| 0 <= i < |links| && links[i] == (walk[0], walk[1]);
      RankFalls(links, rank, walk, |walk| - 1);
    }
  }

  /** A recursion stack that reaches back to one of its own nodes closes a cycle. */
  lemma StackCycle(links: seq<Link>, path: seq<string>, j: nat, v: string)
    requires j < |path| && path[j] == v
    requires forall k :: 0 <= k < |path| - 1 ==> (path[k], path[k + 1]) in links
    requires (path[|path| - 1], v) in links
    ensures HasCycle(links)
  {
    var walk := path[j..] + [v];
    forall k | 0 <= k < |walk| - 1
      ensures (walk[k], walk[k + 1]) in links
    {
      if k < |path| - 1 - j {
        assert walk[k] == path[j + k] && walk[k + 1] == path[j + k + 1];
      } else {
        assert walk[k] == path[|path| - 1] && walk[k + 1] == v;
      }
    }
    assert IsCycle(links, walk);
  }

  // ---------------------------------------------------------------------------
  // `_has_cycles`.

  /** The adjacency lists: `[]` for every node, then every link's target appended to
      its source's list. */
  method BuildAdjacency(ids: seq<string>, links: seq<Link>) returns (adjacency: map<string, seq<string>>)
    requires forall k :: 0 <= k < |links| ==> links[k].0 in ids
    ensures forall u :: u in adjacency <==> u in ids
    ensures forall u :: u in adjacency ==> adjacency[u] == Targets(links, u)
  {
    adjacency := map[];
    for i := 0 to |ids|
      invariant forall u :: u in adjacency <==> u in ids[..i]
      invariant forall u :: u in adjacency ==> adjacency[u] == []
    {
      assert ids[..i + 1] == ids[..i] + [ids[i]];
      adjacency := adjacency[ids[i] := []];
    }
    assert ids[..|ids|] == ids;
    for k := 0 to |links|
      invariant forall u :: u in adjacency <==> u in ids
      invariant forall u :: u in adjacency ==> adjacency[u] == Targets(links[..k], u)
    {
      var source, target := links[k].0, links[k].1;
      assert links[..k + 1][..k] == links[..k];
      adjacency := adjacency[source := adjacency[source] + [target]];
    }
    assert links[..|links|] == links;
  }

  /** The adjacency lists hold exactly the links, and every link joins two of their keys. */
  ghost predicate GraphMatches(links: seq<Link>, adjacency: map<string, seq<string>>) {
    && (forall u, v :: u in adjacency ==> (v in adjacency[u] <==> (u, v) in links))
    && (forall k :: 0 <= k < |links| ==> links[k].0 in adjacency && links[k].1 in adjacency)
  }

  /** What the search keeps true: the stack is a linked path of visited nodes, and the
      finished nodes (visited and off the stack) carry finishing times that fall along
      every link, so no link leads from a finished node back to an unfinished one. */
  ghost predicate SearchState(links: seq<Link>, nodes: set<string>, visited: set<string>, onStack: set<string>,
                              path: seq<string>, finish: map<string, nat>, clock: nat)
  {
    && onStack <= visited <= nodes
    && (forall x :: x in onStack <==> x in path)
    && (forall k :: 0 <= k < |path| - 1 ==> (path[k], path[k + 1]) in links)
    && (forall x :: x in finish <==> x in visited && x !in onStack)
    && (forall x :: x in finish ==> finish[x] < clock)
    && (forall x, y :: x in finish && (x, y) in links ==> y in finish && finish[y] < finish[x])
  }

  /** Entering a node that is new and linked from the top of the stack. */
  lemma Push(links: seq<Link>, nodes: set<string>, visited: set<string>, onStack: set<string>,
             path: seq<string>, finish: map<string, nat>, clock: nat, u: string)
    requires SearchState(links, nodes, visited, onStack, path, finish, clock)
    requires u in nodes && u !in visited
    requires path != [] ==> (path[|path| - 1], u) in links
    ensures SearchState(links, nodes, visited + {u}, onStack + {u}, path + [u], finish, clock)
  {
    var path' := path + [u];
    forall k | 0 <= k < |path'| - 1
      ensures (path'[k], path'[k + 1]) in links
    {
      if k < |path| - 1 {
        assert path'[k] == path[k] && path'[k + 1] == path[k + 1];
      }
    }
  }

  /** Leaving a node all of whose links lead to finished nodes: it finishes last. */
  lemma Pop(links: seq<Link>, nodes: set<string>, visited: set<string>, onStack: set<string>,
            path: seq<string>, finish: map<string, nat>, clock: nat, u: string)
    requires SearchState(links, nodes, visited, onStack + {u}, path + [u], finish, clock)
    requires u !in onStack && u !in path && u in visited
    requires forall v :: (u, v) in links ==> v in finish
    ensures SearchState(links, nodes, visited, onStack, path, finish[u := clock], clock + 1)
  {
    var path' := path + [u];
    forall k | 0 <= k < |path| - 1
      ensures (path[k], path[k + 1]) in links
    {
      assert path[k] == path'[k] && path[k + 1] == path'[k + 1];
    }
    forall x | x in onStack
      ensures x in path
    {
      assert x != u && x in path';
    }
    forall x | x in path
      ensures x in onStack
    {
      assert x in path';
    }
  }

  /** The state shared by the nested `dfs_cycle` calls: `visited`, `rec_stack`, and, as
      ghost state, the stack as a path and the order in which nodes were finished. */
  class CycleSearch {
    const links: seq<Link>
    const adjacency: map<string, seq<string>>
    var visited: set<string>
    var onStack: set<string>
    /** The nodes of `rec_stack` in the order they were entered. */
    ghost var path: seq<string>
    /** For every finished node (visited, no longer on the stack), when it finished. */
    ghost var finish: map<string, nat>
    ghost var clock: nat

    ghost predicate Valid()
      reads this
    {
      GraphMatches(links, adjacency) && SearchState(links, adjacency.Keys, visited, onStack, path, finish, clock)
    }

    constructor (links: seq<Link>, adjacency: map<string, seq<string>>)
      requires GraphMatches(links, adjacency)
      ensures Valid() && this.links == links && this.adjacency == adjacency
      ensures visited == {} && onStack == {} && path == []
    {
      this.links := links;
      this.adjacency := adjacency;
      visited, onStack := {}, {};
      path, finish, clock := [], map[], 0;
    }

    /** `dfs_cycle(u)`: True as soon as a neighbour is found on the stack, in which case
        the links have a cycle; otherwise `u` and everything reached from it are
        finished and the stack is as before. */
    method Dfs(u: string) returns (found: bool)
      requires Valid() && u in adjacency && u !in visited
      requires path != [] ==> (path[|path| - 1], u) in links
      modifies this
      ensures found ==> HasCycle(links)
      ensures !found ==> Valid() && u in finish && onStack == old(onStack) && path == old(path)
      ensures !found ==> old(finish).Keys <= finish.Keys
      ensures old(visited) <= visited
      decreases adjacency.Keys - visited
    {
      ghost var path0, stack0, finish0 := path, onStack, finish;
      Push(links, adjacency.Keys, visited, onStack, path, finish, clock, u);
      visited := visited + {u};
      onStack := onStack + {u};
      path := path + [u];
      var neighbors := adjacency[u];
      var i := 0;
      while i < |neighbors|
        invariant i <= |neighbors|
        invariant Valid()
        invariant old(visited) + {u} <= visited
        invariant onStack == stack0 + {u} && path == path0 + [u]
        invariant finish0.Keys <= finish.Keys
        invariant forall k :: 0 <= k < i ==> neighbors[k] in finish
      {
        var v := neighbors[i];
        assert (u, v) in links;
        if v !in visited {
          assert u in adjacency.Keys - old(visited);
          found := Dfs(v);
          if found {
            return;
          }
        } else if v in onStack {
          ghost var j :| 0 <= j < |path| && path[j] == v;
          StackCycle(links, path, j, v);
          return true;
        }
        i := i + 1;
      }
      forall v | (u, v) in links
        ensures v in finish
      {
        assert v in neighbors;
      }
      Pop(links, adjacency.Keys, visited, stack0, path0, finish, clock, u);
      onStack := onStack - {u};
      assert onStack == stack0;
      path := path0;
      finish := finish[u := clock];
      clock := clock + 1;
      found := false;
    }
  }

  /** `_has_cycles`: a search from every node not yet visited, in node order. */
  method HasCycles(ids: seq<string>, links: seq<Link>) returns (found: bool)
    requires forall k :: 0 <= k < |links| ==> links[k].0 in ids && links[k].1 in ids
    ensures found == HasCycle(links)
  {
    var adjacency := BuildAdjacency(ids, links);
    var search := new CycleSearch(links, adjacency);
    for i := 0 to |ids|
      invariant search.Valid() && search.links == links && search.adjacency == adjacency
      invariant search.onStack == {} && search.path == []
      invariant forall k :: 0 <= k < i ==> ids[k] in search.visited
    {
      if ids[i] !in search.visited {
        found := search.Dfs(ids[i]);
        if found {
          return;
        }
      }
    }
    RankedAcyclic(links, search.finish);
    found := false;
  }

  // ---------------------------------------------------------------------------
  // `validate_connections`.

  /** The first index whose element satisfies `p`. */
  function FirstIndex<T>(s: seq<T>, p: T -> bool): (r: Option<nat>)
    ensures r.Some? ==> r.value < |s| && p(s[r.value]) && forall k :: 0 <= k < r.value ==> !p(s[k])
    ensures r.None? ==> forall k :: 0 <= k < |s| ==> !p(s[k])
  {
    if s == [] then None
    else if p(s[0]) then Some(0)
    else match FirstIndex(s[1..], p)
      case None => None
      case Some(i) => Some(i + 1)
  }

  /** The keys of `node_lookup`: the ids of the nodes that have one. */
  function NodeIds(nodes: seq<Node>): (ids: set<string>)
    ensures forall x :: x in ids <==> exists k :: 0 <= k < |nodes| && nodes[k].id == Some(x)
  {
    set k | 0 <= k < |nodes| && nodes[k].id.Some? :: nodes[k].id.value
  }

  /** The node ids in node order, once every node has one. */
  function IdList(nodes: seq<Node>): (ids: seq<string>)
    requires forall k :: 0 <= k < |nodes| ==> nodes[k].id.Some?
    ensures |ids| == |nodes| && forall k :: 0 <= k < |nodes| ==> ids[k] == nodes[k].id.value
  {
    seq(|nodes|, k requires 0 <= k < |nodes| => nodes[k].id.value)
  }

  /** The (source, target) pairs, once every edge has both. */
  function Links(edges: seq<Edge>): (links: seq<Link>)
    requires forall k :: 0 <= k < |edges| ==> edges[k].source.Some? && edges[k].target.Some?
    ensures |links| == |edges|
    ensures forall k :: 0 <= k < |edges| ==> links[k] == (edges[k].source.value, edges[k].target.value)
  {
    seq(|edges|, k requires 0 <= k < |edges| => (edges[k].source.value, edges[k].target.value))
  }
  function MissingSectionsMessage(): string {
    "Flow configuration must " + "include 'nodes' and " + "'edges'"
  }

  function CyclesMessage(): string {
    "Flow contains cycles, " + "which are not allowed"
  }

  function NodeMissingIdMessage(n: Node): string {
    "Node missing 'id': " + n.printed
  }

  function EdgeMissingEndMessage(e: Edge): string {
    "Edge missing 'source' " + "or 'target': " + e.printed
  }

  function UnknownSourceMessage(source: string): string {
    "Edge source '" + source + "' does not exist"
  }

  function UnknownTargetMessage(target: string): string {
    "Edge target '" + target + "' does not exist"
  }

  function NoOutgoingMessage(id: string): string {
    "Input node '" + id + "' has no " + "outgoing connections"
  }

  function NoIncomingMessage(id: string): string {
    "Output node '" + id + "' has no " + "incoming connections"
  }

  /** `any(edge["source"] == node_id for edge in edges)`. */
  predicate Feeds(edges: seq<Edge>, id: string) {
    exists k :: 0 <= k < |edges| && edges[k].source == Some(id)
  }

  /** `any(edge["target"] == node_id for edge in edges)`. */
  predicate Fed(edges: seq<Edge>, id: string) {
    exists k :: 0 <= k < |edges| && edges[k].target == Some(id)
  }

  /** The complaint about an edge, if any: a missing end, then an unknown source, then an
      unknown target. */
  function EdgeError(e: Edge, ids: set<string>): Option<string> {
    if e.source.None? || e.target.None? then Some(EdgeMissingEndMessage(e))
    else if e.source.value !in ids then Some(UnknownSourceMessage(e.source.value))
    else if e.target.value !in ids then Some(UnknownTargetMessage(e.target.value))
    else None
  }

  /** The complaint about a node's connections, if any: an input node must be the source
      of some edge, an output node the target of some edge. */
  function ConnectionError(id: string, nodeType: Option<string>, edges: seq<Edge>): Option<string> {
    if nodeType == Some("input") && !Feeds(edges, id) then Some(NoOutgoingMessage(id))
    else if nodeType == Some("output") && !Fed(edges, id) then Some(NoIncomingMessage(id))
    else None
  }

  /** The configurations whose checks the model follows: an object whose "nodes" and
      "edges" are lists when present. */
  predicate Checkable(d: FlowData) {
    d.FlowObject? && !d.nodes.NotList? && !d.edges.NotList?
  }

  /** What `validate_connections` returns, check by check; within a check the first
      offending element in list order decides the message. */
  ghost function ConnectionCheck(d: FlowData): (bool, string)
    requires Checkable(d)
  {
    if d.nodes.Absent? || d.edges.Absent? then (false, MissingSectionsMessage())
    else GraphCheck(d.nodes.items, d.edges.items)
  }

  predicate MissingId(n: Node) {
    n.id.None?
  }

  predicate BadEdge(ids: set<string>, e: Edge) {
    EdgeError(e, ids).Some?
  }

  predicate BadConnection(edges: seq<Edge>, n: Node) {
    n.id.Some? && ConnectionError(n.id.value, n.nodeType, edges).Some?
  }

  ghost function GraphCheck(nodes: seq<Node>, edges: seq<Edge>): (bool, string) {
    match FirstIndex(nodes, MissingId)
    case Some(i) => (false, NodeMissingIdMessage(nodes[i]))
    case None =>
      var ids := NodeIds(nodes);
      match FirstIndex(edges, e => BadEdge(ids, e))
      case Some(i) => (false, EdgeError(edges[i], ids).value)
      case None =>
        match FirstIndex(nodes, n => BadConnection(edges, n))
        case Some(i) => (false, ConnectionError(nodes[i].id.value, nodes[i].nodeType, edges).value)
        case None => if HasCycle(Links(edges)) then (false, CyclesMessage()) else (true, "")
  }

  /** The first node without an id decides the message. */
  lemma GraphCheckMissingId(nodes: seq<Node>, edges: seq<Edge>, i: nat)
    requires i < |nodes| && nodes[i].id.None? && forall k :: 0 <= k < i ==> nodes[k].id.Some?
    ensures GraphCheck(nodes, edges) == (false, NodeMissingIdMessage(nodes[i]))
  {
    assert FirstIndex(nodes, MissingId) == Some(i);
  }

  /** With every node named, the first bad edge decides the message. */
  lemma GraphCheckBadEdge(nodes: seq<Node>, edges: seq<Edge>, i: nat)
    requires forall k :: 0 <= k < |nodes| ==> nodes[k].id.Some?
    requires i < |edges| && EdgeError(edges[i], NodeIds(nodes)).Some?
    requires forall k :: 0 <= k < i ==> EdgeError(edges[k], NodeIds(nodes)).None?
    ensures GraphCheck(nodes, edges) == (false, EdgeError(edges[i], NodeIds(nodes)).value)
  {
    var ids := NodeIds(nodes);
    assert FirstIndex(nodes, MissingId) == None;
    assert FirstIndex(edges, e => BadEdge(ids, e)) == Some(i);
  }

  /** With every node named and every edge sound, the first node with a missing
      connection decides the message. */
  lemma GraphCheckBadConnection(nodes: seq<Node>, edges: seq<Edge>, i: nat)
    requires forall k :: 0 <= k < |nodes| ==> nodes[k].id.Some?
    requires forall k :: 0 <= k < |edges| ==> EdgeError(edges[k], NodeIds(nodes)).None?
    requires i < |nodes| && ConnectionError(nodes[i].id.value, nodes[i].nodeType, edges).Some?
    requires forall k :: 0 <= k < i ==> ConnectionError(nodes[k].id.value, nodes[k].nodeType, edges).None?
    ensures GraphCheck(nodes, edges) == (false, ConnectionError(nodes[i].id.value, nodes[i].nodeType, edges).value)
  {
    var ids := NodeIds(nodes);
    assert FirstIndex(nodes, MissingId) == None;
    assert FirstIndex(edges, e => BadEdge(ids, e)) == None;
    assert FirstIndex(nodes, n => BadConnection(edges, n)) == Some(i);
  }

  /** When every earlier check passes, the cycle search decides. */
  lemma GraphCheckCycles(nodes: seq<Node>, edges: seq<Edge>)
    requires forall k :: 0 <= k < |nodes| ==> nodes[k].id.Some?
    requires forall k :: 0 <= k < |edges| ==> EdgeError(edges[k], NodeIds(nodes)).None?
    requires forall k :: 0 <= k < |nodes| ==> ConnectionError(nodes[k].id.value, nodes[k].nodeType, edges).None?
    ensures GraphCheck(nodes, edges) == if HasCycle(Links(edges)) then (false, CyclesMessage()) else (true, "")
  {
    var ids := NodeIds(nodes);
    assert FirstIndex(nodes, MissingId) == None;
    assert FirstIndex(edges, e => BadEdge(ids, e)) == None;
    assert FirstIndex(nodes, n => BadConnection(edges, n)) == None;
  }

  /** A graph passes exactly when every node has an id, every edge joins two existing
      nodes, every input node is the source and every output node the target of some
      edge, and the links have no cycle; it then carries the empty message. */
  lemma GraphCheckValid(nodes: seq<Node>, edges: seq<Edge>)
    ensures GraphCheck(nodes, edges).0 <==>
      && (forall k :: 0 <= k < |nodes| ==> nodes[k].id.Some?)
      && (forall k :: 0 <= k < |edges| ==>
            && edges[k].source.Some? && edges[k].target.Some?
            && edges[k].source.value in NodeIds(nodes) && edges[k].target.value in NodeIds(nodes))
      && (forall k :: 0 <= k < |nodes| && nodes[k].nodeType == Some("input") ==> Feeds(edges, nodes[k].id.value))
      && (forall k :: 0 <= k < |nodes| && nodes[k].nodeType == Some("output") ==> Fed(edges, nodes[k].id.value))
      && !HasCycle(Links(edges))
    ensures GraphCheck(nodes, edges).0 ==> GraphCheck(nodes, edges).1 == ""
  {
    var ids := NodeIds(nodes);
    match FirstIndex(nodes, MissingId)
    case Some(i) =>
    case None =>
      match FirstIndex(edges, e => BadEdge(ids, e))
      case Some(i) =>
      case None =>
        match FirstIndex(nodes, n => BadConnection(edges, n))
        case Some(i) =>
          assert BadConnection(edges, nodes[i]);
        case None =>
          forall k | 0 <= k < |nodes|
            ensures ConnectionError(nodes[k].id.value, nodes[k].nodeType, edges).None?
          {
            assert !BadConnection(edges, nodes[k]);
          }
  }

  /** Sound edges join nodes of the id list. */
  lemma LinksWithinIds(nodes: seq<Node>, edges: seq<Edge>)
    requires forall k :: 0 <= k < |nodes| ==> nodes[k].id.Some?
    requires forall k :: 0 <= k < |edges| ==> EdgeError(edges[k], NodeIds(nodes)).None?
    ensures forall k :: 0 <= k < |edges| ==> edges[k].source.Some? && edges[k].target.Some?
    ensures var idList, links := IdList(nodes), Links(edges);
      forall k :: 0 <= k < |links| ==> links[k].0 in idList && links[k].1 in idList
  {
    var idList, links := IdList(nodes), Links(edges);
    forall k | 0 <= k < |links|
      ensures links[k].0 in idList && links[k].1 in idList
    {
      assert EdgeError(edges[k], NodeIds(nodes)).None?;
      var a :| 0 <= a < |nodes| && nodes[a].id == Some(links[k].0);
      var b :| 0 <= b < |nodes| && nodes[b].id == Some(links[k].1);
      assert idList[a] == links[k].0 && idList[b] == links[k].1;
    }
  }

  /** `validate_connections`: the node lookup, the edge loop, the connection loop and the
      cycle search, each returning at its first complaint. */
  method ValidateConnections(d: FlowData) returns (valid: bool, message: string)
    requires Checkable(d)
    ensures (valid, message) == ConnectionCheck(d)
  {
    if d.nodes.Absent? || d.edges.Absent? {
      return false, MissingSectionsMessage();
    }
    var nodes, edges := d.nodes.items, d.edges.items;
    var lookup: map<string, Node> := map[];
    for i := 0 to |nodes|
      invariant forall k :: 0 <= k < i ==> nodes[k].id.Some?
      invariant forall x :: x in lookup <==> exists k :: 0 <= k < i && nodes[k].id == Some(x)
    {
      if nodes[i].id.None? {
        GraphCheckMissingId(nodes, edges, i);
        return false, NodeMissingIdMessage(nodes[i]);
      }
      lookup := lookup[nodes[i].id.value := nodes[i]];
    }
    assert lookup.Keys == NodeIds(nodes);
    for i := 0 to |edges|
      invariant forall k :: 0 <= k < i ==> EdgeError(edges[k], lookup.Keys).None?
    {
      var e := edges[i];
      if e.source.None? || e.target.None? {
        GraphCheckBadEdge(nodes, edges, i);
        return false, EdgeMissingEndMessage(e);
      }
      if e.source.value !in lookup {
        GraphCheckBadEdge(nodes, edges, i);
        return false, UnknownSourceMessage(e.source.value);
      }
      if e.target.value !in lookup {
        GraphCheckBadEdge(nodes, edges, i);
        return false, UnknownTargetMessage(e.target.value);
      }
    }
    valid, message := CheckConnections(nodes, edges);
  }

  /** The rest of `validate_connections` once nodes and edges are sound: the connection
      loop, then the cycle search. */
  method CheckConnections(nodes: seq<Node>, edges: seq<Edge>) returns (valid: bool, message: string)
    requires forall k :: 0 <= k < |nodes| ==> nodes[k].id.Some?
    requires forall k :: 0 <= k < |edges| ==> EdgeError(edges[k], NodeIds(nodes)).None?
    ensures (valid, message) == GraphCheck(nodes, edges)
  {
    for i := 0 to |nodes|
      invariant forall k :: 0 <= k < i ==> ConnectionError(nodes[k].id.value, nodes[k].nodeType, edges).None?
    {
      var id := nodes[i].id.value;
      if nodes[i].nodeType == Some("input") {
        if !Feeds(edges, id) {
          GraphCheckBadConnection(nodes, edges, i);
          return false, NoOutgoingMessage(id);
        }
      } else if nodes[i].nodeType == Some("output") {
        if !Fed(edges, id) {
          GraphCheckBadConnection(nodes, edges, i);
          return false, NoIncomingMessage(id);
        }
      }
    }
    LinksWithinIds(nodes, edges);
    GraphCheckCycles(nodes, edges);
    var cyclic := HasCycles(IdList(nodes), Links(edges));
    if cyclic {
      return false, CyclesMessage();
    }
    return true, "";
  }
}
