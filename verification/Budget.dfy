/** Node and edge budgets: each layer is cut to its share, edges that lost an end are dropped,
    and what is still too much is truncated, sampled by type, or filled by priority. */
module Budget {
  import opened Wrappers
  import opened Seqs
  import opened GraphTypes
  import opened IdMap

  datatype Strategy = Proportional | GovernancePriority | Truncate

  datatype BudgetConfig = BudgetConfig(maxNodes: nat, maxEdges: nat, layerSplit: seq<real>)

  /** `.round() as usize`: half away from zero, negatives saturate at zero. */
  function RoundToCount(x: real): nat {
    if x < 0.0 then 0 else (x + 0.5).Floor
  }

  function EffectiveMaxEdges(c: BudgetConfig): nat {
    if c.maxEdges > 0 then c.maxEdges
    else if c.maxNodes * 20 > 100_000 then c.maxNodes * 20
    else
      100_000
  }

  function LayerBudget(c: BudgetConfig, i: nat): nat
    requires |c.layerSplit| == 3
  {
    if i >= 3 then 0 else RoundToCount(c.maxNodes as real * c.layerSplit[i])
  }

  // ----- nodes -----

  function TrimmedLayer(c: BudgetConfig, nodes: seq<ExportNode>, i: nat): seq<ExportNode>
    requires |c.layerSplit| == 3
  {
    Take(InLayer(nodes, i), LayerBudget(c, i))
  }

  /** The first `n` layers, each cut to its budget, one after the other. */
  function TrimmedLayers(c: BudgetConfig, nodes: seq<ExportNode>, n: nat): seq<ExportNode>
    requires |c.layerSplit| == 3
  {
    if n == 0 then [] else TrimmedLayers(c, nodes, n - 1) + TrimmedLayer(c, nodes, n - 1)
  }

  function TrimNodes(c: BudgetConfig, nodes: seq<ExportNode>): seq<ExportNode>
    requires |c.layerSplit| == 3
  {
    if |nodes| <= c.maxNodes then nodes
    else
      TrimmedLayer(c, nodes, 0) + TrimmedLayer(c, nodes, 1) + TrimmedLayer(c, nodes, 2)
  }

  function LayerWarning(c: BudgetConfig, nodes: seq<ExportNode>, i: nat): seq<ExportWarning>
    requires |c.layerSplit| == 3
  {
    var original, budget := |InLayer(nodes, i)|, LayerBudget(c, i);
    if original > budget then [LayerTrimmed(i + 1, original, budget)] else []
  }

  function LayerWarnings(c: BudgetConfig, nodes: seq<ExportNode>, n: nat): seq<ExportWarning>
    requires |c.layerSplit| == 3
  {
    if n == 0 then [] else LayerWarnings(c, nodes, n - 1) + LayerWarning(c, nodes, n - 1)
  }

  function NodeWarnings(c: BudgetConfig, nodes: seq<ExportNode>): seq<ExportWarning>
    requires |c.layerSplit| == 3
  {
    if |nodes| <= c.maxNodes then []
    else
      LayerWarning(c, nodes, 0) + LayerWarning(c, nodes, 1) + LayerWarning(c, nodes, 2)
  }

  method PartitionByLayer(nodes: seq<ExportNode>) returns (buckets: seq<seq<ExportNode>>)
    ensures |buckets| == 3 && forall i :: 0 <= i < 3 ==> buckets[i] == InLayer(nodes, i)
  {
    buckets := [[], [], []];
    for k := 0 to |nodes|
      invariant |buckets| == 3 && forall i :: 0 <= i < 3 ==> buckets[i] == InLayer(nodes[..k], i)
    {
      var idx := LayerIndex(nodes[k]);
      forall i | 0 <= i < 3 ensures InLayer(nodes[..k + 1], i) == InLayer(nodes[..k], i) + if i == idx then [nodes[k]] else [] {
        FilterStep((n: ExportNode) => LayerIndex(n) == i, nodes, k);
      }
      buckets := buckets[idx := buckets[idx] + [nodes[k]]];
    }
    assert nodes[..|nodes|] == nodes;
  }

  method EnforceNodeBudget(c: BudgetConfig, nodes: seq<ExportNode>, ids: IdTable)
    returns (kept: seq<ExportNode>, warnings: seq<ExportWarning>)
    requires |c.layerSplit| == 3
    modifies ids
    ensures kept == TrimNodes(c, nodes) && warnings == NodeWarnings(c, nodes)
    ensures ids.View() == if |nodes| <= c.maxNodes then old(ids.View()) else Retain(old(ids.View()), NodeIds(kept))
  {
    if |nodes| <= c.maxNodes {
      return nodes, [];
    }
    var buckets := PartitionByLayer(nodes);
    kept, warnings := [], [];
    for i := 0 to 3
      invariant kept == TrimmedLayers(c, nodes, i) && warnings == LayerWarnings(c, nodes, i)
    {
      var bucket := buckets[i];
      var budget := LayerBudget(c, i);
      if |bucket| > budget {
        warnings := warnings + [LayerTrimmed(i + 1, |bucket|, budget)];
        bucket := bucket[..budget];
      }
      kept := kept + bucket;
    }
    ThreeLayers(c, nodes);
    ids.RetainNodes(NodeIds(kept));
  }

  ghost predicate ProperSplit(c: BudgetConfig) {
    && |c.layerSplit| == 3
    && (forall i :: 0 <= i < 3 ==> c.layerSplit[i] >= 0.0)
    && c.layerSplit[0] + c.layerSplit[1] + c.layerSplit[2] == 1.0
  }

  /** Three roundings overshoot by at most one. */
  lemma LayerBudgetsSum(c: BudgetConfig)
    requires ProperSplit(c)
    ensures LayerBudget(c, 0) + LayerBudget(c, 1) + LayerBudget(c, 2) <= c.maxNodes + 1
  {}

  lemma ThreeLayers(c: BudgetConfig, nodes: seq<ExportNode>)
    requires |c.layerSplit| == 3
    ensures TrimmedLayers(c, nodes, 3) == TrimmedLayer(c, nodes, 0) + TrimmedLayer(c, nodes, 1) + TrimmedLayer(c, nodes, 2)
    ensures LayerWarnings(c, nodes, 3) == LayerWarning(c, nodes, 0) + LayerWarning(c, nodes, 1) + LayerWarning(c, nodes, 2)
  {
    assert TrimmedLayers(c, nodes, 1) == TrimmedLayer(c, nodes, 0);
    assert TrimmedLayers(c, nodes, 2) == TrimmedLayer(c, nodes, 0) + TrimmedLayer(c, nodes, 1);
    assert LayerWarnings(c, nodes, 1) == LayerWarning(c, nodes, 0);
    assert LayerWarnings(c, nodes, 2) == LayerWarning(c, nodes, 0) + LayerWarning(c, nodes, 1);
  }

  lemma LayerOfTrimmed(c: BudgetConfig, nodes: seq<ExportNode>, i: nat, j: nat)
    requires |c.layerSplit| == 3
    ensures InLayer(TrimmedLayer(c, nodes, j), i) == if i == j then TrimmedLayer(c, nodes, i) else []
  {
    FilterMembers((n: ExportNode) => LayerIndex(n) == j, nodes);
    var kept := TrimmedLayer(c, nodes, j);
    assert forall n :: n in kept ==> n in InLayer(nodes, j);
    if i == j {
      FilterAll((n: ExportNode) => LayerIndex(n) == i, kept);
    } else {
      FilterNone((n: ExportNode) => LayerIndex(n) == i, kept);
    }
  }

  /** Trimming keeps, of each layer, exactly the first nodes that fit its budget, in input order. */
  lemma LayersOfTrim(c: BudgetConfig, nodes: seq<ExportNode>, i: nat)
    requires |c.layerSplit| == 3 && |nodes| > c.maxNodes && i < 3
    ensures InLayer(TrimNodes(c, nodes), i) == Take(InLayer(nodes, i), LayerBudget(c, i))
  {
    var f := (n: ExportNode) => LayerIndex(n) == i;
    var a, b, d := TrimmedLayer(c, nodes, 0), TrimmedLayer(c, nodes, 1), TrimmedLayer(c, nodes, 2);
    FilterAppend(f, a + b, d);
    FilterAppend(f, a, b);
    LayerOfTrimmed(c, nodes, i, 0);
    LayerOfTrimmed(c, nodes, i, 1);
    LayerOfTrimmed(c, nodes, i, 2);
  }

  /** Node budget: at most one node over the limit, each layer a prefix within its budget, and
      trimming again changes nothing. */
  lemma NodeBudget(c: BudgetConfig, nodes: seq<ExportNode>)
    requires ProperSplit(c)
    ensures |TrimNodes(c, nodes)| <= c.maxNodes + 1
    ensures TrimNodes(c, TrimNodes(c, nodes)) == TrimNodes(c, nodes)
    ensures |nodes| > c.maxNodes ==>
              forall i :: 0 <= i < 3 ==>
                            && InLayer(TrimNodes(c, nodes), i) <= InLayer(nodes, i)
                            && |InLayer(TrimNodes(c, nodes), i)| <= LayerBudget(c, i)
                            && (|InLayer(nodes, i)| <= LayerBudget(c, i) ==> InLayer(TrimNodes(c, nodes), i) == InLayer(nodes, i))
  {
    LayerBudgetsSum(c);
    if |nodes| > c.maxNodes {
      LayersOfTrim(c, nodes, 0);
      LayersOfTrim(c, nodes, 1);
      LayersOfTrim(c, nodes, 2);
    }
  }

  lemma {:induction false} LayersAddUp(nodes: seq<ExportNode>)
    ensures |nodes| == |InLayer(nodes, 0)| + |InLayer(nodes, 1)| + |InLayer(nodes, 2)|
  {
    if nodes == [] {
    } else {
      LayersAddUp(nodes[..|nodes| - 1]);
    }
  }

  /** Every node the budget drops is accounted for in its warnings. */
  lemma NodeLossIsReported(c: BudgetConfig, nodes: seq<ExportNode>)
    requires |c.layerSplit| == 3
    ensures NodesDropped(NodeWarnings(c, nodes)) == |nodes| - |TrimNodes(c, nodes)|
    ensures EdgesDropped(NodeWarnings(c, nodes)) == 0
  {
    if |nodes| > c.maxNodes {
      var a, b, d := LayerWarning(c, nodes, 0), LayerWarning(c, nodes, 1), LayerWarning(c, nodes, 2);
      LayerLoss(c, nodes, 0);
      LayerLoss(c, nodes, 1);
      LayerLoss(c, nodes, 2);
      DroppedAdds(a + b, d);
      DroppedAdds(a, b);
      LayersAddUp(nodes);
    }
  }

  lemma LayerLoss(c: BudgetConfig, nodes: seq<ExportNode>, i: nat)
    requires |c.layerSplit| == 3
    ensures NodesDropped(LayerWarning(c, nodes, i)) == |InLayer(nodes, i)| - |TrimmedLayer(c, nodes, i)|
    ensures EdgesDropped(LayerWarning(c, nodes, i)) == 0
  {
    if |InLayer(nodes, i)| > LayerBudget(c, i) {
      var w := LayerWarning(c, nodes, i);
      assert w[..0] == [];
      assert NodesDropped(w[..0]) == 0 && EdgesDropped(w[..0]) == 0;
    }
  }

  function LayerTotal(c: BudgetConfig): nat
    requires |c.layerSplit| == 3
  {
    LayerBudget(c, 0) + LayerBudget(c, 1) + LayerBudget(c, 2)
  }

  ghost predicate WithinLimit(c: BudgetConfig, nodes: seq<ExportNode>)
    requires |c.layerSplit| == 3
  {
    |TrimNodes(c, nodes)| <= c.maxNodes
  }

  function Copies(layer: nat, n: nat): seq<ExportNode> {
    seq(n, i => ExportNode(None, 0, "", layer, map[]))
  }

  lemma LayerOfCopies(layer: nat, n: nat, i: nat)
    requires 1 <= layer <= 3
    ensures InLayer(Copies(layer, n), i) == if i == layer - 1 then Copies(layer, n) else []
  {
    if i == layer - 1 {
      FilterAll((x: ExportNode) => LayerIndex(x) == i, Copies(layer, n));
    } else {
      FilterNone((x: ExportNode) => LayerIndex(x) == i, Copies(layer, n));
    }
  }

  /** As many nodes of each layer as its budget allows. */
  function FullLayers(c: BudgetConfig): seq<ExportNode>
    requires |c.layerSplit| == 3
  {
    Copies(1, LayerBudget(c, 0)) + Copies(2, LayerBudget(c, 1)) + Copies(3, LayerBudget(c, 2))
  }

  lemma FullLayersStay(c: BudgetConfig)
    requires |c.layerSplit| == 3
    ensures TrimNodes(c, FullLayers(c)) == FullLayers(c)
  {
    var a, b, d := Copies(1, LayerBudget(c, 0)), Copies(2, LayerBudget(c, 1)), Copies(3, LayerBudget(c, 2));
    forall i: nat | i < 3 ensures InLayer(FullLayers(c), i) == if i == 0 then a else if i == 1 then b else d {
      FilterAppend((x: ExportNode) => LayerIndex(x) == i, a + b, d);
      FilterAppend((x: ExportNode) => LayerIndex(x) == i, a, b);
      LayerOfCopies(1, |a|, i);
      LayerOfCopies(2, |b|, i);
      LayerOfCopies(3, |d|, i);
    }
  }

  /** The limit holds for every list of nodes exactly when the rounded layer budgets add up to it at
      most. */
  lemma NodeLimitHoldsIff(c: BudgetConfig)
    requires |c.layerSplit| == 3
    ensures (forall nodes :: WithinLimit(c, nodes)) <==> LayerTotal(c) <= c.maxNodes
  {
    if LayerTotal(c) > c.maxNodes {
      FullLayersStay(c);
      assert !WithinLimit(c, FullLayers(c));
    } else {
      forall nodes ensures WithinLimit(c, nodes) {}
    }
  }

  /** The extra node is real: a limit of 1 split in halves keeps one node of each of two layers. */
  lemma LimitCanBeExceeded(a: ExportNode, b: ExportNode)
    requires a.layer == 1 && b.layer == 2
    ensures TrimNodes(BudgetConfig(1, 0, [0.5, 0.5, 0.0]), [a, b]) == [a, b]
  {
    FilterPair((n: ExportNode) => LayerIndex(n) == 0, a, b);
    FilterPair((n: ExportNode) => LayerIndex(n) == 1, a, b);
    FilterPair((n: ExportNode) => LayerIndex(n) == 2, a, b);
  }
}
