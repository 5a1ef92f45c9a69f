/** The edge budget: dangling edges go first, then one of three sampling strategies. */
module EdgeSampling {
  import opened Seqs
  import opened GraphTypes
  import IdMap
  import opened Budget

  // ----- proportional sampling -----

  /** A type's exact share of `budget`, out of `total` edges. */
  function Share(count: nat, total: nat, budget: nat): real
    requires total > 0
  {
    count as real / total as real * budget as real
  }

  /** One edge is guaranteed, the share is rounded, and no type keeps more than it has. */
  function Keep(count: nat, total: nat, budget: nat): nat
    requires total > 0
  {
    var keep := 1 + RoundToCount(Share(count, total, budget));
    if keep <= count then keep else count
  }

  function Kept(t: nat, edges: seq<ExportEdge>, budget: nat): seq<ExportEdge>
    requires edges != []
  {
    Take(OfType(edges, t), Keep(|OfType(edges, t)|, |edges|, budget))
  }

  /** What the types contribute when the map of groups hands them out in `order`. */
  function KeptInOrder(order: seq<nat>, edges: seq<ExportEdge>, budget: nat): seq<ExportEdge>
    requires edges != []
  {
    if order == [] then []
    else
      KeptInOrder(order[..|order| - 1], edges, budget) + Kept(order[|order| - 1], edges, budget)
  }

  /** What is left of the limit once every type has its guaranteed edge. */
  function SharedBudget(types: nat, maxEdges: nat): nat {
    if types <= maxEdges then maxEdges - types else 0
  }

  function SampleInOrder(order: seq<nat>, edges: seq<ExportEdge>, maxEdges: nat): seq<ExportEdge>
    requires edges != []
  {
    Take(KeptInOrder(order, edges, SharedBudget(|order|, maxEdges)), maxEdges)
  }

  ghost predicate ListsTypes(order: seq<nat>, edges: seq<ExportEdge>) {
    NoDup(order) && Elems(order) == TypesOf(edges)
  }

  method GroupByType(edges: seq<ExportEdge>) returns (byType: map<nat, seq<ExportEdge>>)
    ensures byType.Keys == TypesOf(edges) && forall t :: t in byType ==> byType[t] == OfType(edges, t)
  {
    byType := map[];
    for i := 0 to |edges|
      invariant byType.Keys == TypesOf(edges[..i])
      invariant forall t :: t in byType ==> byType[t] == OfType(edges[..i], t)
    {
      var edge := edges[i];
      assert edges[..i + 1] == edges[..i] + [edge];
      ghost var before := byType;
      forall t ensures OfType(edges[..i + 1], t) == OfType(edges[..i], t) + if t == edge.edgeType then [edge] else [] {
        FilterStep((e: ExportEdge) => e.edgeType == t, edges, i);
      }
      if edge.edgeType !in byType {
        assert edge.edgeType !in TypesOf(edges[..i]);
        FilterNone((e: ExportEdge) => e.edgeType == edge.edgeType, edges[..i]);
      }
      var group := if edge.edgeType in byType then byType[edge.edgeType] else [];
      byType := byType[edge.edgeType := group + [edge]];
      assert TypesOf(edges[..i + 1]) == TypesOf(edges[..i]) + {edge.edgeType};
    }
    assert edges[..|edges|] == edges;
  }

  method CutGroup(group: seq<ExportEdge>, total: nat, remaining: nat) returns (kept: seq<ExportEdge>)
    requires total > 0
    ensures kept == Take(group, Keep(|group|, total, remaining))
  {
    var proportion := RoundToCount(|group| as real / total as real * remaining as real);
    var keep := 1 + proportion;
    if keep > |group| {
      keep := |group|;
    }
    kept := group[..keep];
  }

  method ProportionalSample(edges: seq<ExportEdge>, maxEdges: nat) returns (result: seq<ExportEdge>, ghost order: seq<nat>)
    requires edges != []
    ensures ListsTypes(order, edges) && result == SampleInOrder(order, edges, maxEdges)
    ensures |result| <= maxEdges && forall t :: OfType(result, t) <= OfType(edges, t)
    ensures |TypesOf(edges)| <= maxEdges < |edges| ==>
              |result| >= maxEdges - |TypesOf(edges)| && 2 * |TypesOf(result)| >= |TypesOf(edges)|
  {
    var byType := GroupByType(edges);
    var numTypes := |byType|;
    var remaining := if numTypes <= maxEdges then maxEdges - numTypes else 0;
    result, order := CutGroups(edges, byType, remaining);
    NoDupSize(order);
    if |result| > maxEdges {
      result := result[..maxEdges];
    }
    SampleFacts(order, edges, maxEdges);
  }

  /** Each group in turn, in whatever order the map hands them out. */
  method CutGroups(edges: seq<ExportEdge>, byType: map<nat, seq<ExportEdge>>, remaining: nat)
    returns (result: seq<ExportEdge>, ghost order: seq<nat>)
    requires edges != [] && byType.Keys == TypesOf(edges) && forall t :: t in byType ==> byType[t] == OfType(edges, t)
    ensures ListsTypes(order, edges) && result == KeptInOrder(order, edges, remaining)
  {
    result, order := [], [];
    var types := byType.Keys;
    while types != {}
      invariant types <= byType.Keys && NoDup(order) && Elems(order) == byType.Keys - types
      invariant result == KeptInOrder(order, edges, remaining)
    {
      var t :| t in types;
      var kept := CutGroup(byType[t], |edges|, remaining);
      ghost var before := order;
      order := order + [t];
      assert order[..|before|] == before && t !in Elems(before) && Elems(order) == Elems(before) + {t};
      types := types - {t};
      result := result + kept;
    }
  }

  // ----- how much is kept -----

  ghost function Counts(order: seq<nat>, edges: seq<ExportEdge>): nat {
    if order == [] then 0 else Counts(order[..|order| - 1], edges) + |OfType(edges, order[|order| - 1])|
  }

  /** At least the share, and at most one and a half edges more; never nothing. */
  lemma KeepBounds(count: nat, total: nat, budget: nat)
    requires 1 <= count && budget <= total && total > 0
    ensures Share(count, total, budget) <= Keep(count, total, budget) as real <= Share(count, total, budget) + 1.5
    ensures 1 <= Keep(count, total, budget) <= count
  {}

  lemma ShareAdds(a: nat, b: nat, total: nat, budget: nat)
    requires total > 0
    ensures Share(a + b, total, budget) == Share(a, total, budget) + Share(b, total, budget)
  {}

  lemma {:induction false} KeptLength(order: seq<nat>, edges: seq<ExportEdge>, budget: nat)
    requires edges != [] && budget <= |edges| && forall t :: t in order ==> t in TypesOf(edges)
    ensures var all := Share(Counts(order, edges), |edges|, budget);
            all <= |KeptInOrder(order, edges, budget)| as real <= all + 1.5 * |order| as real
  {
    if order == [] {
    } else {
      var front, t := order[..|order| - 1], order[|order| - 1];
      KeptLength(front, edges, budget);
      TypeIsPresent(edges, t);
      KeepBounds(|OfType(edges, t)|, |edges|, budget);
      ShareAdds(Counts(front, edges), |OfType(edges, t)|, |edges|, budget);
    }
  }

  lemma TypeIsPresent(edges: seq<ExportEdge>, t: nat)
    ensures t in TypesOf(edges) <==> OfType(edges, t) != []
  {
    FilterMembers((e: ExportEdge) => e.edgeType == t, edges);
    assert OfType(edges, t) != [] ==> OfType(edges, t)[0] in OfType(edges, t);
    if t in TypesOf(edges) {
      var e :| e in edges && e.edgeType == t;
      assert e in OfType(edges, t);
    }
  }

  lemma {:induction false} CountsPush(order: seq<nat>, edges: seq<ExportEdge>, e: ExportEdge)
    requires NoDup(order)
    ensures Counts(order, edges + [e]) == Counts(order, edges) + if e.edgeType in order then 1 else 0
  {
    if order == [] {
    } else {
      var front, t := order[..|order| - 1], order[|order| - 1];
      CountsPush(front, edges, e);
      assert (edges + [e])[..|edges|] == edges;
      assert order == front + [t] && t !in front;
    }
  }

  /** Every edge is counted under its type, once. */
  lemma {:induction false} CountsAll(order: seq<nat>, edges: seq<ExportEdge>)
    requires NoDup(order) && forall e :: e in edges ==> e.edgeType in order
    ensures Counts(order, edges) == |edges|
  {
    if edges == [] {
      CountsNone(order);
    } else {
      var front, e := edges[..|edges| - 1], edges[|edges| - 1];
      assert edges == front + [e];
      CountsAll(order, front);
      CountsPush(order, front, e);
    }
  }

  lemma {:induction false} CountsNone(order: seq<nat>)
    ensures Counts(order, []) == 0
  {
    if order == [] {
    } else {
      CountsNone(order[..|order| - 1]);
    }
  }

  // ----- which types survive the final cut -----

  lemma TypesConcat(a: seq<ExportEdge>, b: seq<ExportEdge>)
    ensures TypesOf(a + b) == TypesOf(a) + TypesOf(b)
  {}

  lemma KeptTypes(t: nat, edges: seq<ExportEdge>, budget: nat, m: nat)
    requires edges != [] && budget <= |edges| && t in TypesOf(edges)
    ensures |Kept(t, edges, budget)| >= 1
    ensures m >= 1 ==> TypesOf(Take(Kept(t, edges, budget), m)) == {t}
  {
    TypeIsPresent(edges, t);
    KeepBounds(|OfType(edges, t)|, |edges|, budget);
    FilterMembers((e: ExportEdge) => e.edgeType == t, edges);
    if m >= 1 {
      var s := Take(Kept(t, edges, budget), m);
      assert forall e :: e in s ==> e in OfType(edges, t);
      assert s[0] in s;
      assert TypesOf(s) == {t};
    }
  }

  lemma {:induction false} KeptInOrderTypes(order: seq<nat>, edges: seq<ExportEdge>, budget: nat)
    requires edges != [] && budget <= |edges| && forall t :: t in order ==> t in TypesOf(edges)
    ensures TypesOf(KeptInOrder(order, edges, budget)) == Elems(order)
  {
    if order == [] {
    } else {
      var front, t := order[..|order| - 1], order[|order| - 1];
      KeptInOrderTypes(front, edges, budget);
      var kept := Kept(t, edges, budget);
      KeptTypes(t, edges, budget, |kept|);
      assert Take(kept, |kept|) == kept;
      TypesConcat(KeptInOrder(front, edges, budget), kept);
      assert order == front + [t];
      assert Elems(order) == Elems(front) + {t};
    }
  }

  lemma TakeOfConcat<T>(a: seq<T>, b: seq<T>, m: nat)
    ensures Take(a + b, m) == if m <= |a| then Take(a, m) else a + Take(b, m - |a|)
  {}

  /** The types left by a cut after `m` edges: all those before the type the cut falls into, and
      that one too unless the cut falls right before it. */
  lemma CutTypes(front: seq<nat>, t: nat, edges: seq<ExportEdge>, budget: nat, m: nat)
    requires edges != [] && budget <= |edges| && forall x :: x in front + [t] ==> x in TypesOf(edges)
    ensures var a := KeptInOrder(front, edges, budget);
            && KeptInOrder(front + [t], edges, budget) == a + Kept(t, edges, budget)
            && |Kept(t, edges, budget)| >= 1
            && TypesOf(Take(a + Kept(t, edges, budget), m)) ==
               if m <= |a| then TypesOf(Take(a, m)) else Elems(front) + {t}
  {
    var a, b := KeptInOrder(front, edges, budget), Kept(t, edges, budget);
    assert (front + [t])[..|front|] == front;
    assert forall x :: x in front ==> x in front + [t];
    assert t in front + [t];
    KeptInOrderTypes(front, edges, budget);
    TakeOfConcat(a, b, m);
    if m <= |a| {
      KeptTypes(t, edges, budget, 0);
    } else {
      KeptTypes(t, edges, budget, m - |a|);
      TypesConcat(a, Take(b, m - |a|));
    }
  }

  /** A cut loses at most as many types as edges. */
  lemma {:induction false} CutLosesFewTypes(order: seq<nat>, edges: seq<ExportEdge>, budget: nat, m: nat)
    requires edges != [] && budget <= |edges| && NoDup(order) && forall t :: t in order ==> t in TypesOf(edges)
    ensures var all := KeptInOrder(order, edges, budget);
            && |TypesOf(Take(all, m))| <= |order|
            && (m <= |all| ==> |TypesOf(Take(all, m))| >= |order| - (|all| - m))
  {
    if order == [] {
    } else {
      var front, t := order[..|order| - 1], order[|order| - 1];
      assert order == front + [t] && t !in front;
      CutLosesFewTypes(front, edges, budget, m);
      CutTypes(front, t, edges, budget, m);
      NoDupSize(front);
      assert t !in Elems(front);
    }
  }

  // ----- each type's edges -----

  lemma {:induction false} FilterPrefix<T>(f: T -> bool, s: seq<T>, m: nat)
    ensures Filter(f, Take(s, m)) <= Filter(f, s)
  {
    if m <= |s| {
      FilterAppend(f, s[..m], s[m..]);
      assert s == s[..m] + s[m..];
    }
  }

  lemma OneTypeKept(u: nat, edges: seq<ExportEdge>, budget: nat, t: nat)
    requires edges != []
    ensures OfType(Kept(u, edges, budget), t) == if u == t then Kept(u, edges, budget) else []
    ensures Kept(u, edges, budget) <= OfType(edges, u)
  {
    FilterMembers((e: ExportEdge) => e.edgeType == u, edges);
    var kept := Kept(u, edges, budget);
    assert forall e :: e in kept ==> e in OfType(edges, u);
    if u == t {
      FilterAll((e: ExportEdge) => e.edgeType == t, kept);
    } else {
      FilterNone((e: ExportEdge) => e.edgeType == t, kept);
    }
  }

  lemma {:induction false} KeptOfType(order: seq<nat>, edges: seq<ExportEdge>, budget: nat, t: nat)
    requires edges != [] && NoDup(order)
    ensures OfType(KeptInOrder(order, edges, budget), t) == if t in order then Kept(t, edges, budget) else []
  {
    if order == [] {
    } else {
      var front, u := order[..|order| - 1], order[|order| - 1];
      assert order == front + [u] && u !in front;
      KeptOfType(front, edges, budget, t);
      FilterAppend((e: ExportEdge) => e.edgeType == t, KeptInOrder(front, edges, budget), Kept(u, edges, budget));
      OneTypeKept(u, edges, budget, t);
    }
  }

  /** Of each type the first edges are kept, in input order. */
  lemma SamplePrefixes(order: seq<nat>, edges: seq<ExportEdge>, maxEdges: nat, t: nat)
    requires edges != [] && NoDup(order)
    ensures OfType(SampleInOrder(order, edges, maxEdges), t) <= OfType(edges, t)
  {
    var all := KeptInOrder(order, edges, SharedBudget(|order|, maxEdges));
    KeptOfType(order, edges, SharedBudget(|order|, maxEdges), t);
    OneTypeKept(t, edges, SharedBudget(|order|, maxEdges), t);
    FilterPrefix((e: ExportEdge) => e.edgeType == t, all, maxEdges);
  }

  // ----- the sampling as a whole -----

  /** Before the final cut: at least the limit less one edge per type, and at most half an edge
      per type above the limit. */
  lemma KeptTotal(order: seq<nat>, edges: seq<ExportEdge>, maxEdges: nat)
    requires edges != [] && ListsTypes(order, edges) && |order| <= maxEdges < |edges|
    ensures var all := |KeptInOrder(order, edges, maxEdges - |order|)|;
            maxEdges - |order| <= all && 2 * all <= 2 * maxEdges + |order|
  {
    var budget := maxEdges - |order|;
    forall t | t in order ensures t in TypesOf(edges) {
      assert t in Elems(order);
    }
    forall e | e in edges ensures e.edgeType in order {
      assert e.edgeType in TypesOf(edges);
    }
    KeptLength(order, edges, budget);
    CountsAll(order, edges);
    WholeShare(|edges|, budget);
  }

  lemma WholeShare(total: nat, budget: nat)
    requires total > 0
    ensures Share(total, total, budget) == budget as real
  {}

  /** Proportional sampling, for any order of the groups: when the types fit the limit, at most as
      many edges as types short of it are kept, at least half of the types survive, and all of them
      when nothing has to be cut at the end. */
  lemma ProportionalSampling(order: seq<nat>, edges: seq<ExportEdge>, maxEdges: nat)
    requires edges != [] && ListsTypes(order, edges) && |order| <= maxEdges < |edges|
    ensures var result := SampleInOrder(order, edges, maxEdges);
            && maxEdges - |order| <= |result| <= maxEdges
            && 2 * |TypesOf(result)| >= |order|
            && (|KeptInOrder(order, edges, maxEdges - |order|)| <= maxEdges ==> TypesOf(result) == TypesOf(edges))
  {
    var budget := maxEdges - |order|;
    var all := KeptInOrder(order, edges, budget);
    forall t | t in order ensures t in TypesOf(edges) {
      assert t in Elems(order);
    }
    KeptTotal(order, edges, maxEdges);
    KeptInOrderTypes(order, edges, budget);
    NoDupSize(order);
    if |all| <= maxEdges {
      assert Take(all, maxEdges) == all;
    } else {
      CutLosesFewTypes(order, edges, budget, maxEdges);
    }
  }

  lemma SampleFacts(order: seq<nat>, edges: seq<ExportEdge>, maxEdges: nat)
    requires edges != [] && ListsTypes(order, edges)
    ensures var result := SampleInOrder(order, edges, maxEdges);
            && (forall t :: OfType(result, t) <= OfType(edges, t))
            && (|TypesOf(edges)| <= maxEdges < |edges| ==>
                  |result| >= maxEdges - |TypesOf(edges)| && 2 * |TypesOf(result)| >= |TypesOf(edges)|)
  {
    NoDupSize(order);
    forall t: nat {
      SamplePrefixes(order, edges, maxEdges, t);
    }
    if |order| <= maxEdges < |edges| {
      ProportionalSampling(order, edges, maxEdges);
    }
  }

  /** With more types than the limit, exactly the limit is kept, one edge of each of as many types. */
  lemma MoreTypesThanEdges(order: seq<nat>, edges: seq<ExportEdge>, maxEdges: nat)
    requires edges != [] && ListsTypes(order, edges) && maxEdges < |order|
    ensures |SampleInOrder(order, edges, maxEdges)| == maxEdges == |TypesOf(SampleInOrder(order, edges, maxEdges))|
  {
    forall t | t in order ensures t in TypesOf(edges) {
      assert t in Elems(order);
    }
    OneEach(order, edges);
    CutLosesFewTypes(order, edges, 0, maxEdges);
    TypesAtMostEdges(SampleInOrder(order, edges, maxEdges));
  }

  lemma {:induction false} OneEach(order: seq<nat>, edges: seq<ExportEdge>)
    requires edges != [] && forall t :: t in order ==> t in TypesOf(edges)
    ensures |KeptInOrder(order, edges, 0)| == |order|
  {
    if order == [] {
    } else {
      OneEach(order[..|order| - 1], edges);
      var t := order[|order| - 1];
      TypeIsPresent(edges, t);
      assert Share(|OfType(edges, t)|, |edges|, 0) == 0.0;
    }
  }

  lemma {:induction false} TypesAtMostEdges(s: seq<ExportEdge>)
    ensures |TypesOf(s)| <= |s|
  {
    if s == [] {
    } else {
      var front, last := s[..|s| - 1], s[|s| - 1];
      TypesAtMostEdges(front);
      assert s == front + [last];
      TypesConcat(front, [last]);
      assert TypesOf([last]) == {last.edgeType};
    }
  }

  lemma LastIsNew(front: seq<nat>, t: nat)
    requires NoDup(front + [t])
    ensures t !in front && NoDup(front) && Elems(front + [t]) == Elems(front) + {t}
  {
    var all := front + [t];
    assert all[|front|] == t;
    forall i | 0 <= i < |front| ensures front[i] != t {
      assert all[i] == front[i];
    }
    forall i, j | 0 <= i < j < |front| ensures front[i] != front[j] {
      assert all[i] == front[i] && all[j] == front[j];
    }
  }

  lemma TakeTypes(s: seq<ExportEdge>, m: nat)
    ensures TypesOf(Take(s, m)) <= TypesOf(s)
  {}

  /** The promise that every type keeps an edge holds exactly when the final cut does not reach
      past the last group: everything the other groups keep is below the limit. */
  lemma EveryTypeKeptIff(front: seq<nat>, t: nat, edges: seq<ExportEdge>, maxEdges: nat)
    requires edges != [] && ListsTypes(front + [t], edges) && |front| + 1 <= maxEdges < |edges|
    ensures TypesOf(SampleInOrder(front + [t], edges, maxEdges)) == TypesOf(edges) <==>
            |KeptInOrder(front, edges, maxEdges - |front| - 1)| < maxEdges
  {
    var budget := maxEdges - |front| - 1;
    LastIsNew(front, t);
    assert Elems(front + [t]) == TypesOf(edges);
    forall x | x in front + [t] ensures x in TypesOf(edges) {
      assert x in Elems(front + [t]);
    }
    OnlyLastCanBeLost(front, t, edges, budget, maxEdges);
  }

  lemma OnlyLastCanBeLost(front: seq<nat>, t: nat, edges: seq<ExportEdge>, budget: nat, m: nat)
    requires edges != [] && budget <= |edges| && t !in front && forall x :: x in front + [t] ==> x in TypesOf(edges)
    ensures TypesOf(Take(KeptInOrder(front + [t], edges, budget), m)) == Elems(front) + {t} <==>
            |KeptInOrder(front, edges, budget)| < m
  {
    CutTypes(front, t, edges, budget, m);
    var a := KeptInOrder(front, edges, budget);
    assert forall x :: x in front ==> x in front + [t];
    KeptInOrderTypes(front, edges, budget);
    TakeTypes(a, m);
    assert t !in Elems(front);
  }

  /** How many edges the types keep before the final cut; by `TotalKeptIsOrderFree`, in any order. */
  ghost function TotalKept(edges: seq<ExportEdge>, maxEdges: nat): nat
    requires edges != []
  {
    |KeptInOrder(TypeList(edges), edges, SharedBudget(|TypesOf(edges)|, maxEdges))|
  }

  lemma {:induction false} SameCounts(types: seq<nat>, a: seq<ExportEdge>, b: seq<ExportEdge>)
    requires forall t :: t in types ==> |OfType(a, t)| == |OfType(b, t)|
    ensures Counts(types, a) == Counts(types, b)
  {
    if types == [] {
    } else {
      SameCounts(types[..|types| - 1], a, b);
    }
  }

  lemma OnlyListedTypes(order: seq<nat>, edges: seq<ExportEdge>, budget: nat)
    requires edges != [] && budget <= |edges| && ListsTypes(order, edges)
    ensures forall e :: e in KeptInOrder(order, edges, budget) ==> e.edgeType in TypesOf(edges)
    ensures forall t :: t in order <==> t in TypesOf(edges)
  {
    assert forall t :: t in order <==> t in Elems(order);
    KeptInOrderTypes(order, edges, budget);
    assert forall e :: e in KeptInOrder(order, edges, budget) ==> e.edgeType in TypesOf(KeptInOrder(order, edges, budget));
  }

  /** Each order of the groups keeps equally many edges. */
  lemma TotalKeptIsOrderFree(a: seq<nat>, b: seq<nat>, edges: seq<ExportEdge>, budget: nat)
    requires edges != [] && budget <= |edges| && ListsTypes(a, edges) && ListsTypes(b, edges)
    ensures |KeptInOrder(a, edges, budget)| == |KeptInOrder(b, edges, budget)|
  {
    OnlyListedTypes(a, edges, budget);
    OnlyListedTypes(b, edges, budget);
    forall t | t in a ensures |OfType(KeptInOrder(a, edges, budget), t)| == |OfType(KeptInOrder(b, edges, budget), t)| {
      KeptOfType(a, edges, budget, t);
      KeptOfType(b, edges, budget, t);
    }
    SameCounts(a, KeptInOrder(a, edges, budget), KeptInOrder(b, edges, budget));
    CountsAll(a, KeptInOrder(a, edges, budget));
    CountsAll(a, KeptInOrder(b, edges, budget));
  }

  ghost predicate KeepsEveryType(order: seq<nat>, edges: seq<ExportEdge>, maxEdges: nat)
    requires edges != []
  {
    TypesOf(SampleInOrder(order, edges, maxEdges)) == TypesOf(edges)
  }

  /** One type's survivors do not reach the limit together with those of all the others. */
  ghost predicate OthersFit(t: nat, edges: seq<ExportEdge>, maxEdges: nat)
    requires edges != []
  {
    TotalKept(edges, maxEdges) - Keep(|OfType(edges, t)|, |edges|, SharedBudget(|TypesOf(edges)|, maxEdges)) < maxEdges
  }

  lemma LastOfOrder(front: seq<nat>, t: nat, edges: seq<ExportEdge>, maxEdges: nat)
    requires edges != [] && ListsTypes(front + [t], edges) && |TypesOf(edges)| <= maxEdges < |edges|
    ensures KeepsEveryType(front + [t], edges, maxEdges) <==> OthersFit(t, edges, maxEdges)
  {
    var budget := SharedBudget(|TypesOf(edges)|, maxEdges);
    NoDupSize(front + [t]);
    EveryTypeKeptIff(front, t, edges, maxEdges);
    TotalKeptIsOrderFree(front + [t], TypeList(edges), edges, budget);
    assert (front + [t])[..|front|] == front;
    assert |Kept(t, edges, budget)| == Keep(|OfType(edges, t)|, |edges|, budget);
  }

  lemma {:induction false} MoveToEnd(order: seq<nat>, t: nat) returns (front: seq<nat>)
    requires NoDup(order) && t in order
    ensures NoDup(front + [t]) && Elems(front + [t]) == Elems(order)
  {
    front := Filter((x: nat) => x != t, order);
    FilterMembers((x: nat) => x != t, order);
    FilterNoDup((x: nat) => x != t, order);
    assert forall x :: x in front + [t] <==> x in front || x == t;
  }

  /** Every order of the groups keeps every type if and only if, whichever type comes last, what all
      the others keep stays below the limit. */
  lemma EveryOrderKeepsIff(edges: seq<ExportEdge>, maxEdges: nat)
    requires edges != [] && |TypesOf(edges)| <= maxEdges < |edges|
    ensures (forall order: seq<nat> :: ListsTypes(order, edges) ==> KeepsEveryType(order, edges, maxEdges)) <==>
            forall t :: t in TypesOf(edges) ==> OthersFit(t, edges, maxEdges)
  {
    if forall t :: t in TypesOf(edges) ==> OthersFit(t, edges, maxEdges) {
      forall order: seq<nat> | ListsTypes(order, edges) ensures KeepsEveryType(order, edges, maxEdges) {
        KeptIfOthersFit(order, edges, maxEdges);
      }
    } else {
      var t :| t in TypesOf(edges) && !OthersFit(t, edges, maxEdges);
      var order := LosingOrder(t, edges, maxEdges);
    }
  }

  lemma KeptIfOthersFit(order: seq<nat>, edges: seq<ExportEdge>, maxEdges: nat)
    requires edges != [] && |TypesOf(edges)| <= maxEdges < |edges| && ListsTypes(order, edges)
    requires forall t :: t in TypesOf(edges) ==> OthersFit(t, edges, maxEdges)
    ensures KeepsEveryType(order, edges, maxEdges)
  {
    assert edges[0].edgeType in TypesOf(edges) && order != [];
    var front, t := order[..|order| - 1], order[|order| - 1];
    assert order == front + [t] && t in Elems(order);
    LastOfOrder(front, t, edges, maxEdges);
  }

  lemma LosingOrder(t: nat, edges: seq<ExportEdge>, maxEdges: nat) returns (order: seq<nat>)
    requires edges != [] && |TypesOf(edges)| <= maxEdges < |edges|
    requires t in TypesOf(edges) && !OthersFit(t, edges, maxEdges)
    ensures ListsTypes(order, edges) && !KeepsEveryType(order, edges, maxEdges)
  {
    assert t in Elems(TypeList(edges));
    var front := MoveToEnd(TypeList(edges), t);
    order := front + [t];
    LastOfOrder(front, t, edges, maxEdges);
  }

  function FourPairs(a: ExportEdge, b: ExportEdge, c: ExportEdge, d: ExportEdge): seq<ExportEdge> {
    [a, a] + [b, b] + [c, c] + [d, d]
  }

  ghost predicate FourTypes(a: ExportEdge, b: ExportEdge, c: ExportEdge, d: ExportEdge) {
    && a.edgeType != b.edgeType && a.edgeType != c.edgeType && a.edgeType != d.edgeType
    && b.edgeType != c.edgeType && b.edgeType != d.edgeType && c.edgeType != d.edgeType
  }

  /** Four types of two edges each and a limit of six: every type first keeps both edges, and the
      cut from eight to six then loses the type that came last, whichever that is. */
  lemma FourPairsLoseAType(a: ExportEdge, b: ExportEdge, c: ExportEdge, d: ExportEdge, order: seq<nat>)
    requires FourTypes(a, b, c, d) && ListsTypes(order, FourPairs(a, b, c, d))
    ensures TypesOf(SampleInOrder(order, FourPairs(a, b, c, d), 6)) != TypesOf(FourPairs(a, b, c, d))
  {
    FourGroups(a, b, c, d, order);
    LastOfFourIsLost(order, FourPairs(a, b, c, d));
  }

  lemma LastOfFourIsLost(order: seq<nat>, edges: seq<ExportEdge>)
    requires |edges| == 8 && ListsTypes(order, edges) && |order| == 4
    requires forall t :: t in order ==> |OfType(edges, t)| == 2
    ensures TypesOf(SampleInOrder(order, edges, 6)) != TypesOf(edges)
  {
    var front, last := order[..3], order[3];
    assert order == front + [last];
    AllKept(front, edges);
    EveryTypeKeptIff(front, last, edges, 6);
  }

  lemma FourPairTypes(a: ExportEdge, b: ExportEdge, c: ExportEdge, d: ExportEdge)
    ensures TypesOf(FourPairs(a, b, c, d)) == {a.edgeType, b.edgeType, c.edgeType, d.edgeType}
  {}

  lemma FourOf(s: set<nat>, a: nat, b: nat, c: nat, d: nat)
    requires s == {a, b, c, d} && a != b && a != c && a != d && b != c && b != d && c != d
    ensures |s| == 4
  {}

  lemma FourGroups(a: ExportEdge, b: ExportEdge, c: ExportEdge, d: ExportEdge, order: seq<nat>)
    requires FourTypes(a, b, c, d) && ListsTypes(order, FourPairs(a, b, c, d))
    ensures |order| == 4 && forall t :: t in order ==> |OfType(FourPairs(a, b, c, d), t)| == 2
  {
    var edges := FourPairs(a, b, c, d);
    FourPairTypes(a, b, c, d);
    FourOf(TypesOf(edges), a.edgeType, b.edgeType, c.edgeType, d.edgeType);
    NoDupSize(order);
    forall t | t in order ensures |OfType(edges, t)| == 2 {
      assert t in Elems(order);
      PairsOfType(a, b, c, d, t);
    }
  }

  lemma PairsOfType(a: ExportEdge, b: ExportEdge, c: ExportEdge, d: ExportEdge, t: nat)
    requires FourTypes(a, b, c, d) && t in {a.edgeType, b.edgeType, c.edgeType, d.edgeType}
    ensures |OfType(FourPairs(a, b, c, d), t)| == 2
  {
    var f := (e: ExportEdge) => e.edgeType == t;
    FilterAppend(f, [a, a] + [b, b] + [c, c], [d, d]);
    FilterAppend(f, [a, a] + [b, b], [c, c]);
    FilterAppend(f, [a, a], [b, b]);
    FilterPair(f, a, a);
    FilterPair(f, b, b);
    FilterPair(f, c, c);
    FilterPair(f, d, d);
  }

  /** A share of two out of eight edges, with two to hand out, rounds up to one. */
  lemma {:induction false} AllKept(order: seq<nat>, edges: seq<ExportEdge>)
    requires |edges| == 8 && forall t :: t in order ==> |OfType(edges, t)| == 2
    ensures |KeptInOrder(order, edges, 2)| == 2 * |order|
  {
    if order == [] {
    } else {
      AllKept(order[..|order| - 1], edges);
      assert Share(2, 8, 2) == 0.5;
      assert Keep(2, 8, 2) == 2;
    }
  }

  // ----- governance priority -----

  /** Governance linkage, cross-layer people and audit procedure linkage. */
  predicate IsGovernance(e: ExportEdge) {
    40 <= e.edgeType < 60 || 96 <= e.edgeType <= 120 || 138 <= e.edgeType <= 152
  }

  predicate IsProcess(e: ExportEdge) {
    !IsGovernance(e)
  }

  function GovernanceSample(edges: seq<ExportEdge>, maxEdges: nat): seq<ExportEdge> {
    var governance := Take(Filter(IsGovernance, edges), maxEdges);
    governance + Take(Filter(IsProcess, edges), maxEdges - |governance|)
  }

  method GovernancePrioritySample(edges: seq<ExportEdge>, maxEdges: nat) returns (result: seq<ExportEdge>)
    ensures result == GovernanceSample(edges, maxEdges)
  {
    var governance, process := Filter(IsGovernance, edges), Filter(IsProcess, edges);
    var govKeep := if |governance| <= maxEdges then |governance| else maxEdges;
    result := governance[..govKeep];
    var remaining := maxEdges - |result|;
    if remaining > 0 && process != [] {
      var procKeep := if remaining <= |process| then remaining else |process|;
      result := result + process[..procKeep];
    }
  }

  /** The limit is used up; governance edges go first, so a process edge is kept only when every
      governance edge is, and of either kind it is the first ones that stay. */
  lemma GovernanceSampling(edges: seq<ExportEdge>, maxEdges: nat)
    requires maxEdges <= |edges|
    ensures var result := GovernanceSample(edges, maxEdges);
            && |result| == maxEdges
            && Filter(IsGovernance, result) == Take(Filter(IsGovernance, edges), maxEdges)
            && Filter(IsProcess, result) <= Filter(IsProcess, edges)
            && (Filter(IsProcess, result) != [] ==> Filter(IsGovernance, result) == Filter(IsGovernance, edges))
  {
    var governance := Take(Filter(IsGovernance, edges), maxEdges);
    var process := Take(Filter(IsProcess, edges), maxEdges - |governance|);
    FilterSplit(IsGovernance, IsProcess, edges);
    TakeMembers(IsGovernance, edges, maxEdges);
    TakeMembers(IsProcess, edges, maxEdges - |governance|);
    TwoKinds(IsGovernance, IsProcess, governance, process);
  }

  lemma TakeMembers<T(!new)>(f: T -> bool, s: seq<T>, m: nat)
    ensures forall x :: x in Take(Filter(f, s), m) ==> f(x)
  {}

  lemma TwoKinds<T>(f: T -> bool, g: T -> bool, a: seq<T>, b: seq<T>)
    requires forall x :: x in a ==> f(x) && !g(x)
    requires forall x :: x in b ==> g(x) && !f(x)
    ensures Filter(f, a + b) == a && Filter(g, a + b) == b
  {
    FilterAppend(f, a, b);
    FilterAppend(g, a, b);
    FilterAll(f, a);
    FilterNone(g, a);
    FilterAll(g, b);
    FilterNone(f, b);
  }

  // ----- the whole edge budget -----

  /** The edges whose two ends are still numbered. */
  function Live(edges: seq<ExportEdge>, ids: set<nat>): seq<ExportEdge> {
    Filter((e: ExportEdge) => e.source in ids && e.target in ids, edges)
  }

  function Sampled(strategy: Strategy, order: seq<nat>, edges: seq<ExportEdge>, maxEdges: nat): seq<ExportEdge>
    requires edges != []
  {
    match strategy
    case Truncate => Take(edges, maxEdges)
    case Proportional => SampleInOrder(order, edges, maxEdges)
    case GovernancePriority => GovernanceSample(edges, maxEdges)
  }

  function EdgeBudget(c: BudgetConfig, strategy: Strategy, order: seq<nat>, edges: seq<ExportEdge>, ids: set<nat>): seq<ExportEdge> {
    var live := Live(edges, ids);
    if |live| <= EffectiveMaxEdges(c) then live else Sampled(strategy, order, live, EffectiveMaxEdges(c))
  }

  function SampleWarning(strategy: Strategy, order: seq<nat>, edges: seq<ExportEdge>, maxEdges: nat): ExportWarning
    requires edges != []
  {
    match strategy
    case Truncate => EdgesTruncated(|edges|, maxEdges)
    case Proportional => EdgesSampled(|edges|, |SampleInOrder(order, edges, maxEdges)|, |order|)
    case GovernancePriority =>
      GovernanceSampled(|edges|, |GovernanceSample(edges, maxEdges)|, |Take(Filter(IsGovernance, edges), maxEdges)|)
  }

  function DanglingWarnings(edges: seq<ExportEdge>, live: seq<ExportEdge>): seq<ExportWarning> {
    if |live| < |edges| then [DanglingRemoved(|edges| - |live|)] else []
  }

  function SampleWarnings(strategy: Strategy, order: seq<nat>, edges: seq<ExportEdge>, maxEdges: nat): seq<ExportWarning> {
    if |edges| <= maxEdges then [] else [SampleWarning(strategy, order, edges, maxEdges)]
  }

  function EdgeWarnings(c: BudgetConfig, strategy: Strategy, order: seq<nat>, edges: seq<ExportEdge>, ids: set<nat>): seq<ExportWarning> {
    var live := Live(edges, ids);
    DanglingWarnings(edges, live) + SampleWarnings(strategy, order, live, EffectiveMaxEdges(c))
  }

  /** Every edge the budget drops is accounted for in its warnings. */
  lemma EdgeLossIsReported(c: BudgetConfig, strategy: Strategy, order: seq<nat>, edges: seq<ExportEdge>, ids: set<nat>)
    ensures EdgesDropped(EdgeWarnings(c, strategy, order, edges, ids)) == |edges| - |EdgeBudget(c, strategy, order, edges, ids)|
    ensures NodesDropped(EdgeWarnings(c, strategy, order, edges, ids)) == 0
  {
    var live, maxEdges := Live(edges, ids), EffectiveMaxEdges(c);
    FilterMembers((e: ExportEdge) => e.source in ids && e.target in ids, edges);
    DroppedAdds(DanglingWarnings(edges, live), SampleWarnings(strategy, order, live, maxEdges));
    DanglingLoss(edges, live);
    SampleLoss(strategy, order, live, maxEdges);
  }

  lemma DanglingLoss(edges: seq<ExportEdge>, live: seq<ExportEdge>)
    requires |live| <= |edges|
    ensures EdgesDropped(DanglingWarnings(edges, live)) == |edges| - |live| && NodesDropped(DanglingWarnings(edges, live)) == 0
  {
    if |live| < |edges| {
      OneWarning(DanglingRemoved(|edges| - |live|));
    }
  }

  lemma SampleLoss(strategy: Strategy, order: seq<nat>, edges: seq<ExportEdge>, maxEdges: nat)
    ensures var warnings := SampleWarnings(strategy, order, edges, maxEdges);
            && NodesDropped(warnings) == 0
            && EdgesDropped(warnings) == if |edges| <= maxEdges then 0 else |edges| - |Sampled(strategy, order, edges, maxEdges)|
  {
    if |edges| > maxEdges {
      OneWarning(SampleWarning(strategy, order, edges, maxEdges));
    }
  }

  lemma OneWarning(w: ExportWarning)
    ensures NodesDropped([w]) == if w.LayerTrimmed? then w.original - w.budget else 0
    ensures EdgesDropped([w]) ==
            if w.DanglingRemoved? then w.count
            else if w.EdgesTruncated? || w.EdgesSampled? || w.GovernanceSampled? then w.original - w.kept
            else 0
  {
    assert [w][..0] == [];
    assert NodesDropped([w][..0]) == 0 && EdgesDropped([w][..0]) == 0;
  }

  method EnforceEdgeBudget(c: BudgetConfig, edges: seq<ExportEdge>, ids: IdMap.IdTable, strategy: Strategy)
    returns (result: seq<ExportEdge>, warnings: seq<ExportWarning>, ghost order: seq<nat>)
    ensures ListsTypes(order, Live(edges, ids.reverse.Keys))
    ensures result == EdgeBudget(c, strategy, order, edges, ids.reverse.Keys)
    ensures warnings == EdgeWarnings(c, strategy, order, edges, ids.reverse.Keys)
    ensures |result| <= EffectiveMaxEdges(c) && multiset(result) <= multiset(edges)
    ensures forall e :: e in result ==> e.source in ids.reverse && e.target in ids.reverse
  {
    var validIds := ids.reverse.Keys;
    var live, dangling := DropDangling(edges, validIds);
    var sampled;
    result, sampled, order := FitEdges(live, EffectiveMaxEdges(c), strategy);
    warnings := dangling + sampled;
    EdgeBudgetHolds(c, strategy, order, edges, validIds);
  }

  method DropDangling(edges: seq<ExportEdge>, ids: set<nat>) returns (live: seq<ExportEdge>, warnings: seq<ExportWarning>)
    ensures live == Live(edges, ids)
    ensures warnings == DanglingWarnings(edges, live)
  {
    live := Live(edges, ids);
    FilterMembers((e: ExportEdge) => e.source in ids && e.target in ids, edges);
    var removed := |edges| - |live|;
    warnings := if removed > 0 then [DanglingRemoved(removed)] else [];
  }

  method FitEdges(edges: seq<ExportEdge>, maxEdges: nat, strategy: Strategy)
    returns (result: seq<ExportEdge>, warnings: seq<ExportWarning>, ghost order: seq<nat>)
    ensures ListsTypes(order, edges) && result == if |edges| <= maxEdges then edges else Sampled(strategy, order, edges, maxEdges)
    ensures warnings == SampleWarnings(strategy, order, edges, maxEdges)
  {
    order := TypeList(edges);
    if |edges| <= maxEdges {
      return edges, [], order;
    }
    match strategy {
      case Truncate =>
        result := edges[..maxEdges];
        warnings := [EdgesTruncated(|edges|, maxEdges)];
      case Proportional =>
        result, order := ProportionalSample(edges, maxEdges);
        NoDupSize(order);
        warnings := [EdgesSampled(|edges|, |result|, |TypesOf(edges)|)];
      case GovernancePriority =>
        result := GovernancePrioritySample(edges, maxEdges);
        var governance := |Filter(IsGovernance, edges)|;
        warnings := [GovernanceSampled(|edges|, |result|, if governance <= maxEdges then governance else maxEdges)];
    }
  }

  /** Some order of the types that occur. */
  ghost function TypeList(edges: seq<ExportEdge>): (order: seq<nat>)
    ensures ListsTypes(order, edges)
  {
    if edges == [] then []
    else
      var front, last := edges[..|edges| - 1], edges[|edges| - 1];
      assert edges == front + [last];
      TypesConcat(front, [last]);
      assert TypesOf([last]) == {last.edgeType};
      var types := TypeList(front);
      assert last.edgeType in types <==> last.edgeType in Elems(types);
      if last.edgeType in types then types else types + [last.edgeType]
  }

  lemma {:induction false} FilterMultiplicity<T(!new)>(f: T -> bool, s: seq<T>, x: T)
    requires f(x)
    ensures multiset(Filter(f, s))[x] == multiset(s)[x]
  {
    if s == [] {
    } else {
      FilterMultiplicity(f, s[..|s| - 1], x);
      assert s == s[..|s| - 1] + [s[|s| - 1]];
    }
  }

  lemma PrefixMultiplicity<T(!new)>(a: seq<T>, b: seq<T>, x: T)
    requires a <= b
    ensures multiset(a)[x] <= multiset(b)[x]
  {
    assert b == a + b[|a|..];
  }

  lemma FewerOfAKind<T(!new)>(f: T -> bool, a: seq<T>, b: seq<T>, x: T)
    requires f(x) && Filter(f, a) <= Filter(f, b)
    ensures multiset(a)[x] <= multiset(b)[x]
  {
    FilterMultiplicity(f, a, x);
    FilterMultiplicity(f, b, x);
    PrefixMultiplicity(Filter(f, a), Filter(f, b), x);
  }

  /** Sampling neither invents nor repeats an edge. */
  lemma SampledOnlyDrops(strategy: Strategy, order: seq<nat>, edges: seq<ExportEdge>, maxEdges: nat, e: ExportEdge)
    requires edges != [] && ListsTypes(order, edges) && maxEdges <= |edges|
    ensures |Sampled(strategy, order, edges, maxEdges)| <= maxEdges
    ensures multiset(Sampled(strategy, order, edges, maxEdges))[e] <= multiset(edges)[e]
  {
    match strategy {
      case Truncate =>
        PrefixMultiplicity(Take(edges, maxEdges), edges, e);
      case Proportional =>
        SamplePrefixes(order, edges, maxEdges, e.edgeType);
        FewerOfAKind((x: ExportEdge) => x.edgeType == e.edgeType, SampleInOrder(order, edges, maxEdges), edges, e);
      case GovernancePriority =>
        GovernanceOnlyDrops(edges, maxEdges, e);
    }
  }

  lemma GovernanceOnlyDrops(edges: seq<ExportEdge>, maxEdges: nat, e: ExportEdge)
    requires maxEdges <= |edges|
    ensures |GovernanceSample(edges, maxEdges)| <= maxEdges
    ensures multiset(GovernanceSample(edges, maxEdges))[e] <= multiset(edges)[e]
  {
    GovernanceSampling(edges, maxEdges);
    if IsGovernance(e) {
      FewerOfAKind(IsGovernance, GovernanceSample(edges, maxEdges), edges, e);
    } else {
      FewerOfAKind(IsProcess, GovernanceSample(edges, maxEdges), edges, e);
    }
  }

  /** Whatever the strategy and the order of the groups: the budget holds, every edge left was
      there before, as often at most, and both its ends are numbered; and when all the live edges
      fit, they all stay. */
  lemma EdgeBudgetHolds(c: BudgetConfig, strategy: Strategy, order: seq<nat>, edges: seq<ExportEdge>, ids: set<nat>)
    requires ListsTypes(order, Live(edges, ids))
    ensures var result := EdgeBudget(c, strategy, order, edges, ids);
            && |result| <= EffectiveMaxEdges(c)
            && multiset(result) <= multiset(edges)
            && (forall e :: e in result ==> e.source in ids && e.target in ids)
            && (|Live(edges, ids)| <= EffectiveMaxEdges(c) ==>
                  forall e :: e in edges && e.source in ids && e.target in ids ==> multiset(result)[e] == multiset(edges)[e])
  {
    var live := Live(edges, ids);
    var result := EdgeBudget(c, strategy, order, edges, ids);
    var f := (e: ExportEdge) => e.source in ids && e.target in ids;
    FilterMembers(f, edges);
    forall e: ExportEdge | f(e) ensures multiset(live)[e] == multiset(edges)[e] {
      FilterMultiplicity(f, edges, e);
    }
    forall e: ExportEdge ensures multiset(result)[e] <= multiset(live)[e] {
      if |live| > EffectiveMaxEdges(c) {
        SampledOnlyDrops(strategy, order, live, EffectiveMaxEdges(c), e);
      }
    }
    if |live| > EffectiveMaxEdges(c) {
      SampledOnlyDrops(strategy, order, live, EffectiveMaxEdges(c), live[0]);
    }
    forall e | e in result ensures e in live {
      assert multiset(result)[e] > 0;
    }
    forall e: ExportEdge ensures multiset(result)[e] <= multiset(edges)[e] {
      if e in result {
        assert f(e);
      }
    }
  }
}
