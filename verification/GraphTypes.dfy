/** Nodes, edges and results of the graph export. */
module GraphTypes {
  import opened Wrappers
  import Seqs

  datatype Json = JBool(b: bool) | JNumber(n: real) | JString(s: string) | JOther

  datatype ExportNode = ExportNode(
    id: Option<nat>,
    nodeType: nat,
    typeName: string,
    layer: nat,
    properties: map<string, Json>)

  datatype ExportEdge = ExportEdge(source: nat, target: nat, edgeType: nat, weight: real)

  datatype ExportMetadata = ExportMetadata(
    totalNodes: nat,
    totalEdges: nat,
    nodesPerLayer: seq<nat>,
    edgeTypesProduced: seq<nat>)

  /** What the export says it dropped, what looks like a mistake in its setup, and what the
      synthesizers have to say. */
  datatype ExportWarning =
    | LayerTrimmed(layer: nat, original: nat, budget: nat)
    | DanglingRemoved(count: nat)
    | EdgesTruncated(original: nat, kept: nat)
    | EdgesSampled(original: nat, kept: nat, types: nat)
    | GovernanceSampled(original: nat, kept: nat, governance: nat)
    | DuplicateSynthesizer(name: string)
    | Note(text: string)

  /** The nodes, and the edges, that warnings say were dropped. */
  function NodesDropped(warnings: seq<ExportWarning>): int {
    if warnings == [] then 0
    else
      NodesDropped(warnings[..|warnings| - 1]) +
      match warnings[|warnings| - 1]
      case LayerTrimmed(_, original, budget) => original - budget
      case _ => 0
  }

  function EdgesDropped(warnings: seq<ExportWarning>): int {
    if warnings == [] then 0
    else
      EdgesDropped(warnings[..|warnings| - 1]) +
      match warnings[|warnings| - 1]
      case DanglingRemoved(count) => count
      case EdgesTruncated(original, kept) => original - kept
      case EdgesSampled(original, kept, _) => original - kept
      case GovernanceSampled(original, kept, _) => original - kept
      case _ => 0
  }

  lemma {:induction false} DroppedAdds(a: seq<ExportWarning>, b: seq<ExportWarning>)
    ensures NodesDropped(a + b) == NodesDropped(a) + NodesDropped(b)
    ensures EdgesDropped(a + b) == EdgesDropped(a) + EdgesDropped(b)
  {
    if b == [] {
      assert a + b == a;
    } else {
      DroppedAdds(a, b[..|b| - 1]);
      assert (a + b)[..|a + b| - 1] == a + b[..|b| - 1];
    }
  }

  /** Layers are numbered from 1; whatever lies outside 1 to 3 goes to the nearest. */
  function LayerIndex(n: ExportNode): (i: nat)
    ensures i < 3
  {
    if n.layer <= 1 then 0 else if n.layer == 2 then 1 else 2
  }

  function InLayer(nodes: seq<ExportNode>, i: nat): seq<ExportNode> {
    Seqs.Filter((n: ExportNode) => LayerIndex(n) == i, nodes)
  }

  function NodeIds(nodes: seq<ExportNode>): set<nat> {
    set n | n in nodes && n.id.Some? :: n.id.value
  }

  function OfType(edges: seq<ExportEdge>, t: nat): seq<ExportEdge> {
    Seqs.Filter((e: ExportEdge) => e.edgeType == t, edges)
  }

  function TypesOf(edges: seq<ExportEdge>): set<nat> {
    set e | e in edges :: e.edgeType
  }
}
