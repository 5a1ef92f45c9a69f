/** The typed audit multigraph: a node table, an edge table, and two indexes of edge ids. */
module AuditGraph {
  import opened Wrappers
  import opened Seqs

  datatype AuditNode = AuditNode(nodeId: string, nodeType: string, name: string)

  datatype AuditEdge = AuditEdge(edgeId: string, source: string, target: string, edgeType: string)

  datatype Endpoint = Source | Target

  datatype GraphError =
    | MissingEndpoint(edgeId: string, endpoint: string, which: Endpoint)
    | DuplicateEdgeId(edgeId: string)

  datatype Tables = Tables(
    nodes: map<string, AuditNode>,
    edges: map<string, AuditEdge>,
    outAdj: map<string, seq<string>>,
    inAdj: map<string, seq<string>>)

  const NO_TABLES := Tables(map[], map[], map[], map[])

  // ----- the operations on values -----

  function Listed(adj: map<string, seq<string>>, n: string): seq<string> {
    if n in adj then adj[n] else []
  }

  function InsertNode(g: Tables, node: AuditNode): Tables {
    Tables(g.nodes[node.nodeId := node], g.edges,
           g.outAdj[node.nodeId := Listed(g.outAdj, node.nodeId)],
           g.inAdj[node.nodeId := Listed(g.inAdj, node.nodeId)])
  }

  /** The source is looked at first, then the target, then the id. */
  function EdgeError(g: Tables, edge: AuditEdge): Option<GraphError> {
    if edge.source !in g.nodes then Some(MissingEndpoint(edge.edgeId, edge.source, Source))
    else if edge.target !in g.nodes then Some(MissingEndpoint(edge.edgeId, edge.target, Target))
    else if edge.edgeId in g.edges then Some(DuplicateEdgeId(edge.edgeId))
    else
      None
  }

  function InsertEdge(g: Tables, edge: AuditEdge): Tables {
    if EdgeError(g, edge).Some? then g
    else
      Tables(g.nodes, g.edges[edge.edgeId := edge],
             g.outAdj[edge.source := Listed(g.outAdj, edge.source) + [edge.edgeId]],
             g.inAdj[edge.target := Listed(g.inAdj, edge.target) + [edge.edgeId]])
  }

  datatype GraphOp = NodeOp(node: AuditNode) | EdgeOp(edge: AuditEdge)

  function Apply(g: Tables, op: GraphOp): Tables {
    match op
    case NodeOp(node) => InsertNode(g, node)
    case EdgeOp(edge) => InsertEdge(g, edge)
  }

  function Run(ops: seq<GraphOp>): Tables {
    if ops == [] then NO_TABLES else Apply(Run(ops[..|ops| - 1]), ops[|ops| - 1])
  }

  function Neighbors(g: Tables, n: string): set<string> {
    set id | id in Listed(g.outAdj, n) && id in g.edges :: g.edges[id].target
  }

  function Predecessors(g: Tables, n: string): set<string> {
    set id | id in Listed(g.inAdj, n) && id in g.edges :: g.edges[id].source
  }

  // ----- the same graph without indexes: a list of edges -----

  function EdgeIds(edges: seq<AuditEdge>): seq<string> {
    seq(|edges|, i requires 0 <= i < |edges| => edges[i].edgeId)
  }

  function SourceOf(e: AuditEdge): string {
    e.source
  }

  function TargetOf(e: AuditEdge): string {
    e.target
  }

  function At(edges: seq<AuditEdge>, key: AuditEdge -> string, n: string): seq<AuditEdge> {
    Filter(e => key(e) == n, edges)
  }

  ghost function NamesAdded(ops: seq<GraphOp>): set<string> {
    set op | op in ops && op.NodeOp? :: op.node.nodeId
  }

  /** The edges that were let in, in the order they came: both ends named by then, and an id that no
      accepted edge has. */
  ghost function Accepted(ops: seq<GraphOp>): seq<AuditEdge> {
    if ops == [] then []
    else
      var front, op := ops[..|ops| - 1], ops[|ops| - 1];
      var before := Accepted(front);
      if op.EdgeOp? && op.edge.source in NamesAdded(front) && op.edge.target in NamesAdded(front)
         && op.edge.edgeId !in EdgeIds(before) then
        before + [op.edge]
      else
        before
  }

  ghost function TableFrom(edges: seq<AuditEdge>): map<string, AuditEdge> {
    if edges == [] then map[]
    else
      TableFrom(edges[..|edges| - 1])[edges[|edges| - 1].edgeId := edges[|edges| - 1]]
  }

  ghost function IndexFrom(names: set<string>, edges: seq<AuditEdge>, key: AuditEdge -> string): map<string, seq<string>> {
    map n | n in names :: EdgeIds(At(edges, key, n))
  }

  ghost predicate EndsIn(edges: seq<AuditEdge>, names: set<string>) {
    forall e :: e in edges ==> e.source in names && e.target in names
  }

  /** The tables hold these nodes and this list of edges: each edge under its id, and for every node
      the ids of its outgoing and of its incoming edges, in order. */
  ghost predicate Represents(g: Tables, names: set<string>, edges: seq<AuditEdge>) {
    && g.nodes.Keys == names
    && g.edges == TableFrom(edges)
    && g.outAdj == IndexFrom(names, edges, SourceOf)
    && g.inAdj == IndexFrom(names, edges, TargetOf)
    && NoDup(EdgeIds(edges))
    && EndsIn(edges, names)
  }

  lemma EdgeIdsPush(edges: seq<AuditEdge>, e: AuditEdge)
    ensures EdgeIds(edges + [e]) == EdgeIds(edges) + [e.edgeId]
  {}

  lemma IndexEdge(names: set<string>, edges: seq<AuditEdge>, e: AuditEdge, key: AuditEdge -> string)
    requires key(e) in names
    ensures IndexFrom(names, edges + [e], key) ==
            IndexFrom(names, edges, key)[key(e) := IndexFrom(names, edges, key)[key(e)] + [e.edgeId]]
  {
    assert (edges + [e])[..|edges|] == edges;
    forall n | n in names
      ensures EdgeIds(At(edges + [e], key, n)) == EdgeIds(At(edges, key, n)) + if key(e) == n then [e.edgeId] else []
    {
      EdgeIdsPush(At(edges, key, n), e);
    }
  }

  lemma NoneAt(edges: seq<AuditEdge>, key: AuditEdge -> string, n: string)
    requires forall e :: e in edges ==> key(e) != n
    ensures EdgeIds(At(edges, key, n)) == []
  {
    FilterNone(e => key(e) == n, edges);
  }

  lemma IndexNode(names: set<string>, edges: seq<AuditEdge>, n: string, key: AuditEdge -> string)
    requires forall e :: e in edges ==> key(e) in names
    ensures IndexFrom(names + {n}, edges, key) ==
            IndexFrom(names, edges, key)[n := Listed(IndexFrom(names, edges, key), n)]
  {
    if n !in names {
      NoneAt(edges, key, n);
    }
    var index := IndexFrom(names, edges, key);
    forall x | x in names + {n} ensures EdgeIds(At(edges, key, x)) == index[n := Listed(index, n)][x] {
      assert x in names ==> index[x] == EdgeIds(At(edges, key, x));
    }
  }

  lemma {:induction false} TableKeys(edges: seq<AuditEdge>)
    ensures TableFrom(edges).Keys == Elems(EdgeIds(edges))
  {
    if edges == [] {
    } else {
      var front, last := edges[..|edges| - 1], edges[|edges| - 1];
      assert edges == front + [last];
      TableKeys(front);
      EdgeIdsPush(front, last);
    }
  }

  lemma NodeKeepsTables(g: Tables, names: set<string>, edges: seq<AuditEdge>, node: AuditNode)
    requires Represents(g, names, edges)
    ensures Represents(InsertNode(g, node), names + {node.nodeId}, edges)
  {
    IndexNode(names, edges, node.nodeId, SourceOf);
    IndexNode(names, edges, node.nodeId, TargetOf);
  }

  lemma PushIsNew(edges: seq<AuditEdge>, e: AuditEdge)
    requires NoDup(EdgeIds(edges)) && e.edgeId !in EdgeIds(edges)
    ensures NoDup(EdgeIds(edges + [e])) && TableFrom(edges + [e]) == TableFrom(edges)[e.edgeId := e]
  {
    EdgeIdsPush(edges, e);
    assert (edges + [e])[..|edges|] == edges;
  }

  lemma EdgeKeepsTables(g: Tables, names: set<string>, edges: seq<AuditEdge>, e: AuditEdge)
    requires Represents(g, names, edges) && EdgeError(g, e).None?
    ensures Represents(InsertEdge(g, e), names, edges + [e])
  {
    TableKeys(edges);
    assert e.edgeId !in Elems(EdgeIds(edges));
    PushIsNew(edges, e);
    IndexEdge(names, edges, e, SourceOf);
    IndexEdge(names, edges, e, TargetOf);
  }

  /** After any sequence of insertions the indexed graph is the list of accepted edges. */
  lemma {:induction false} RunRepresentsAccepted(ops: seq<GraphOp>)
    ensures Represents(Run(ops), NamesAdded(ops), Accepted(ops))
  {
    if ops == [] {
    } else {
      var front, op := ops[..|ops| - 1], ops[|ops| - 1];
      RunRepresentsAccepted(front);
      assert ops == front + [op];
      NamesPush(front, op);
      StepRepresents(Run(front), front, op);
    }
  }

  lemma StepRepresents(g: Tables, front: seq<GraphOp>, op: GraphOp)
    requires Represents(g, NamesAdded(front), Accepted(front))
    ensures Represents(Apply(g, op), NamesAdded(front + [op]), Accepted(front + [op]))
  {
    var names, edges := NamesAdded(front), Accepted(front);
    assert (front + [op])[..|front|] == front;
    NamesPush(front, op);
    TableKeys(edges);
    match op {
      case NodeOp(node) =>
        NodeKeepsTables(g, names, edges, node);
      case EdgeOp(edge) =>
        assert edge.edgeId in EdgeIds(edges) <==> edge.edgeId in Elems(EdgeIds(edges));
        if EdgeError(g, edge).None? {
          EdgeKeepsTables(g, names, edges, edge);
        }
    }
  }

  lemma NamesPush(front: seq<GraphOp>, op: GraphOp)
    ensures NamesAdded(front + [op]) == NamesAdded(front) + if op.NodeOp? then {op.node.nodeId} else {}
  {}

  // ----- what follows for the graph -----

  /** Both indexes list exactly the edges that start, or end, at the node, none of them twice. */
  ghost predicate Indexed(g: Tables) {
    && g.outAdj.Keys == g.inAdj.Keys == g.nodes.Keys
    && (forall id :: id in g.edges ==> g.edges[id].edgeId == id && g.edges[id].source in g.nodes && g.edges[id].target in g.nodes)
    && (forall n :: n in g.nodes ==> NoDup(g.outAdj[n]) && NoDup(g.inAdj[n]))
    && (forall n, id :: n in g.nodes ==> (id in g.outAdj[n] <==> id in g.edges && g.edges[id].source == n))
    && (forall n, id :: n in g.nodes ==> (id in g.inAdj[n] <==> id in g.edges && g.edges[id].target == n))
  }

  lemma {:induction false} TableOf(edges: seq<AuditEdge>)
    requires NoDup(EdgeIds(edges))
    ensures forall e :: e in edges ==> e.edgeId in TableFrom(edges) && TableFrom(edges)[e.edgeId] == e
    ensures forall id :: id in TableFrom(edges) ==> TableFrom(edges)[id] in edges && TableFrom(edges)[id].edgeId == id
  {
    if edges == [] {
    } else {
      var front, last := edges[..|edges| - 1], edges[|edges| - 1];
      assert edges == front + [last];
      FrontIds(front, last);
      TableOf(front);
    }
  }

  lemma FrontIds(front: seq<AuditEdge>, last: AuditEdge)
    requires NoDup(EdgeIds(front + [last]))
    ensures NoDup(EdgeIds(front)) && forall e :: e in front ==> e.edgeId != last.edgeId
  {
    var ids := EdgeIds(front + [last]);
    EdgeIdsPush(front, last);
    forall i, j | 0 <= i < j < |front| ensures EdgeIds(front)[i] != EdgeIds(front)[j] {
      assert ids[i] == EdgeIds(front)[i] && ids[j] == EdgeIds(front)[j];
    }
    forall e | e in front ensures e.edgeId != last.edgeId {
      var i :| 0 <= i < |front| && front[i] == e;
      assert ids[i] == e.edgeId && ids[|front|] == last.edgeId;
    }
  }

  lemma {:induction false} FilteredNoDup(edges: seq<AuditEdge>, f: AuditEdge -> bool)
    requires NoDup(EdgeIds(edges))
    ensures NoDup(EdgeIds(Filter(f, edges)))
  {
    if edges == [] {
    } else {
      var front, last := edges[..|edges| - 1], edges[|edges| - 1];
      assert edges == front + [last];
      FrontIds(front, last);
      FilteredNoDup(front, f);
      FilterMembers(f, front);
      EdgeIdsPush(Filter(f, front), last);
      forall i | 0 <= i < |Filter(f, front)| ensures EdgeIds(Filter(f, front))[i] != last.edgeId {
        assert Filter(f, front)[i] in Filter(f, front);
      }
    }
  }

  lemma ListedExactly(edges: seq<AuditEdge>, key: AuditEdge -> string, n: string)
    requires NoDup(EdgeIds(edges))
    ensures NoDup(EdgeIds(At(edges, key, n)))
    ensures forall id :: id in EdgeIds(At(edges, key, n)) <==> id in TableFrom(edges) && key(TableFrom(edges)[id]) == n
  {
    var f := e => key(e) == n;
    FilteredNoDup(edges, f);
    FilterMembers(f, edges);
    TableOf(edges);
    var listed := At(edges, key, n);
    assert listed == Filter(f, edges);
    forall id ensures id in EdgeIds(listed) <==> id in TableFrom(edges) && key(TableFrom(edges)[id]) == n {
      if id in EdgeIds(listed) {
        var i :| 0 <= i < |listed| && EdgeIds(listed)[i] == id;
        assert listed[i] in listed;
      }
      if id in TableFrom(edges) && key(TableFrom(edges)[id]) == n {
        var i :| 0 <= i < |listed| && listed[i] == TableFrom(edges)[id];
        assert EdgeIds(listed)[i] == id;
      }
    }
  }

  /** The indexes agree with the edge table after any sequence of insertions. */
  lemma RunKeepsIndexes(ops: seq<GraphOp>)
    ensures Indexed(Run(ops))
  {
    RunRepresentsAccepted(ops);
    RepresentedIsIndexed(Run(ops), NamesAdded(ops), Accepted(ops));
  }

  lemma RepresentedIsIndexed(g: Tables, names: set<string>, edges: seq<AuditEdge>)
    requires Represents(g, names, edges)
    ensures Indexed(g)
  {
    TableOf(edges);
    forall n | n in names
      ensures NoDup(g.outAdj[n]) && forall id :: id in g.outAdj[n] <==> id in g.edges && g.edges[id].source == n
    {
      ListedExactly(edges, SourceOf, n);
    }
    forall n | n in names
      ensures NoDup(g.inAdj[n]) && forall id :: id in g.inAdj[n] <==> id in g.edges && g.edges[id].target == n
    {
      ListedExactly(edges, TargetOf, n);
    }
  }

  /** `m` is a neighbour of `n` exactly when `n` is a predecessor of `m`. */
  lemma NeighborsMirrorPredecessors(g: Tables, n: string, m: string)
    requires Indexed(g)
    ensures m in Neighbors(g, n) <==> n in Predecessors(g, m)
    ensures m in Neighbors(g, n) <==> exists id :: id in g.edges && g.edges[id].source == n && g.edges[id].target == m
  {}

  ghost function TotalDegree(order: seq<string>, adj: map<string, seq<string>>): nat {
    if order == [] then 0 else TotalDegree(order[..|order| - 1], adj) + |Listed(adj, order[|order| - 1])|
  }

  ghost function TotalFiltered(order: seq<string>, edges: seq<AuditEdge>, key: AuditEdge -> string): nat {
    if order == [] then 0
    else
      TotalFiltered(order[..|order| - 1], edges, key) + |At(edges, key, order[|order| - 1])|
  }

  lemma {:induction false} TotalPush(order: seq<string>, edges: seq<AuditEdge>, e: AuditEdge, key: AuditEdge -> string)
    requires NoDup(order)
    ensures TotalFiltered(order, edges + [e], key) == TotalFiltered(order, edges, key) + if key(e) in order then 1 else 0
  {
    if order == [] {
    } else {
      var front, n := order[..|order| - 1], order[|order| - 1];
      assert order == front + [n] && n !in front;
      TotalPush(front, edges, e, key);
      assert (edges + [e])[..|edges|] == edges;
    }
  }

  lemma {:induction false} TotalNone(order: seq<string>, key: AuditEdge -> string)
    ensures TotalFiltered(order, [], key) == 0
  {
    if order == [] {
    } else {
      TotalNone(order[..|order| - 1], key);
    }
  }

  lemma {:induction false} TotalAll(order: seq<string>, edges: seq<AuditEdge>, key: AuditEdge -> string)
    requires NoDup(order) && forall e :: e in edges ==> key(e) in order
    ensures TotalFiltered(order, edges, key) == |edges|
  {
    if edges == [] {
      TotalNone(order, key);
    } else {
      var front, last := edges[..|edges| - 1], edges[|edges| - 1];
      assert edges == front + [last];
      TotalAll(order, front, key);
      TotalPush(order, front, last, key);
    }
  }

  lemma {:induction false} DegreesAreFiltered(names: set<string>, edges: seq<AuditEdge>, key: AuditEdge -> string, order: seq<string>)
    requires forall n :: n in order ==> n in names
    ensures TotalDegree(order, IndexFrom(names, edges, key)) == TotalFiltered(order, edges, key)
  {
    if order == [] {
    } else {
      DegreesAreFiltered(names, edges, key, order[..|order| - 1]);
    }
  }

  lemma TotalIndexed(names: set<string>, edges: seq<AuditEdge>, key: AuditEdge -> string, order: seq<string>)
    requires NoDup(order) && Elems(order) == names && forall e :: e in edges ==> key(e) in names
    ensures TotalDegree(order, IndexFrom(names, edges, key)) == |edges|
  {
    assert forall n :: n in order <==> n in Elems(order);
    TotalAll(order, edges, key);
    DegreesAreFiltered(names, edges, key, order);
  }

  /** Handshake: counted over all nodes, there are as many outgoing as incoming entries, and as many
      as edges in the table. */
  lemma DegreesSumToEdges(ops: seq<GraphOp>, order: seq<string>)
    requires NoDup(order) && Elems(order) == Run(ops).nodes.Keys
    ensures TotalDegree(order, Run(ops).outAdj) == TotalDegree(order, Run(ops).inAdj) == |Run(ops).edges| == |Accepted(ops)|
  {
    var edges := Accepted(ops);
    RunRepresentsAccepted(ops);
    TotalIndexed(NamesAdded(ops), edges, SourceOf, order);
    TotalIndexed(NamesAdded(ops), edges, TargetOf, order);
    NoDupSize(EdgeIds(edges));
    TableKeys(edges);
    assert |Run(ops).edges| == |Run(ops).edges.Keys|;
  }

  /** Operation `i` is the last one to add a node of that id. */
  ghost predicate LastAdded(ops: seq<GraphOp>, id: string, i: int) {
    && 0 <= i < |ops| && ops[i].NodeOp? && ops[i].node.nodeId == id
    && forall j :: i < j < |ops| ==> !(ops[j].NodeOp? && ops[j].node.nodeId == id)
  }

  /** A node that is added again overwrites the one before, and nothing else touches it. */
  lemma {:induction false} LastNodeStays(ops: seq<GraphOp>, id: string)
    ensures id in Run(ops).nodes <==> exists i :: LastAdded(ops, id, i)
    ensures forall i :: LastAdded(ops, id, i) ==> Run(ops).nodes[id] == ops[i].node
  {
    if ops == [] {
    } else {
      var front, op := ops[..|ops| - 1], ops[|ops| - 1];
      LastNodeStays(front, id);
      if op.NodeOp? && op.node.nodeId == id {
        assert LastAdded(ops, id, |front|);
      } else {
        assert forall i :: LastAdded(front, id, i) <==> LastAdded(ops, id, i) by {
          assert forall i :: 0 <= i < |front| ==> front[i] == ops[i];
        }
      }
    }
  }

  // ----- the graph as an object -----

  class Graph {
    var nodes: map<string, AuditNode>
    var edges: map<string, AuditEdge>
    var outAdj: map<string, seq<string>>
    var inAdj: map<string, seq<string>>

    function View(): Tables
      reads this
    {
      Tables(nodes, edges, outAdj, inAdj)
    }

    constructor ()
      ensures View() == NO_TABLES
      ensures nodes == map[] && edges == map[] && outAdj == map[] && inAdj == map[]
    {
      nodes, edges, outAdj, inAdj := map[], map[], map[], map[];
    }

    /** An existing node of the same id is overwritten. */
    method AddNode(node: AuditNode)
      modifies this
      ensures View() == InsertNode(old(View()), node)
      ensures nodes == old(nodes)[node.nodeId := node] && edges == old(edges)
      ensures outAdj == if node.nodeId in old(outAdj) then old(outAdj) else old(outAdj)[node.nodeId := []]
      ensures inAdj == if node.nodeId in old(inAdj) then old(inAdj) else old(inAdj)[node.nodeId := []]
    {
      var id := node.nodeId;
      nodes := nodes[id := node];
      if id !in outAdj {
        outAdj := outAdj[id := []];
      }
      if id !in inAdj {
        inAdj := inAdj[id := []];
      }
      assert outAdj == old(outAdj)[id := Listed(old(outAdj), id)];
      assert inAdj == old(inAdj)[id := Listed(old(inAdj), id)];
    }

    method AddEdge(edge: AuditEdge) returns (r: Result<(), GraphError>)
      modifies this
      ensures View() == InsertEdge(old(View()), edge)
      ensures match EdgeError(old(View()), edge)
              case Some(e) => r == Err(e) && View() == old(View())
              case None => r == Ok(()) && edge.edgeId in edges && edges[edge.edgeId] == edge
      ensures edge.source !in old(nodes) ==> r == Err(MissingEndpoint(edge.edgeId, edge.source, Source))
      ensures edge.source in old(nodes) && edge.target !in old(nodes) ==>
                r == Err(MissingEndpoint(edge.edgeId, edge.target, Target))
      ensures edge.source in old(nodes) && edge.target in old(nodes) && edge.edgeId in old(edges) ==>
                r == Err(DuplicateEdgeId(edge.edgeId))
      ensures edge.source in old(nodes) && edge.target in old(nodes) && edge.edgeId !in old(edges) ==> r == Ok(())
      ensures nodes == old(nodes) && edges == if r.Ok? then old(edges)[edge.edgeId := edge] else old(edges)
      ensures r.Err? ==> outAdj == old(outAdj) && inAdj == old(inAdj)
      ensures r.Ok? ==>
                && outAdj == old(outAdj)[edge.source := (if edge.source in old(outAdj) then old(outAdj)[edge.source] else [])
                                                        + [edge.edgeId]]
                && inAdj == old(inAdj)[edge.target := (if edge.target in old(inAdj) then old(inAdj)[edge.target] else [])
                                                      + [edge.edgeId]]
    {
      if edge.source !in nodes {
        return Err(MissingEndpoint(edge.edgeId, edge.source, Source));
      }
      if edge.target !in nodes {
        return Err(MissingEndpoint(edge.edgeId, edge.target, Target));
      }
      if edge.edgeId in edges {
        return Err(DuplicateEdgeId(edge.edgeId));
      }
      outAdj := outAdj[edge.source := Listed(outAdj, edge.source) + [edge.edgeId]];
      inAdj := inAdj[edge.target := Listed(inAdj, edge.target) + [edge.edgeId]];
      edges := edges[edge.edgeId := edge];
      r := Ok(());
    }

    method NeighborsOf(n: string) returns (seen: set<string>)
      ensures seen == Neighbors(View(), n)
    {
      seen := {};
      var out := Listed(outAdj, n);
      for i := 0 to |out|
        invariant seen == set id | id in out[..i] && id in edges :: edges[id].target
      {
        assert out[..i + 1] == out[..i] + [out[i]];
        if out[i] in edges {
          seen := seen + {edges[out[i]].target};
        }
      }
      assert out[..|out|] == out;
    }

    method PredecessorsOf(n: string) returns (seen: set<string>)
      ensures seen == Predecessors(View(), n)
    {
      seen := {};
      var inp := Listed(inAdj, n);
      for i := 0 to |inp|
        invariant seen == set id | id in inp[..i] && id in edges :: edges[id].source
      {
        assert inp[..i + 1] == inp[..i] + [inp[i]];
        if inp[i] in edges {
          seen := seen + {edges[inp[i]].source};
        }
      }
      assert inp[..|inp|] == inp;
    }
  }
}
