/** The export's two-way id map: external ids to numbers and back, with aliases and retention. */
module IdMap {
  import opened Wrappers

  datatype Ids = Ids(forward: map<string, nat>, reverse: map<nat, string>, nextId: nat)

  const NO_IDS := Ids(map[], map[], 1)

  // ----- the operations on values -----

  function Insert(s: Ids, external: string): Ids {
    if external in s.forward then s
    else
      Ids(s.forward[external := s.nextId], s.reverse[s.nextId := external], s.nextId + 1)
  }

  function Alias(s: Ids, alias: string, primary: string): Ids {
    if primary in s.forward then s.(forward := s.forward[alias := s.forward[primary]]) else s
  }

  function Retain(s: Ids, keep: set<nat>): Ids {
    Ids(map k | k in s.forward && s.forward[k] in keep :: s.forward[k],
        map id | id in s.reverse && id in keep :: s.reverse[id], s.nextId)
  }

  datatype IdOp = InsertOp(external: string) | AliasOp(alias: string, primary: string) | RetainOp(keep: set<nat>)

  function Apply(s: Ids, op: IdOp): Ids {
    match op
    case InsertOp(external) => Insert(s, external)
    case AliasOp(alias, primary) => Alias(s, alias, primary)
    case RetainOp(keep) => Retain(s, keep)
  }

  function ApplyAll(s: Ids, ops: seq<IdOp>): Ids {
    if ops == [] then s else Apply(ApplyAll(s, ops[..|ops| - 1]), ops[|ops| - 1])
  }

  // ----- what every operation keeps -----

  /** Every external id has a number that reads back to some external id, and every number in
      use was assigned: at least 1 and below the next one. */
  ghost predicate Valid(s: Ids) {
    && (forall k :: k in s.forward ==> s.forward[k] in s.reverse)
    && (forall id :: id in s.reverse ==> 1 <= id < s.nextId)
    && 1 <= s.nextId
  }

  /** Reading a number back and looking it up again gives the same number. */
  ghost predicate Faithful(s: Ids) {
    forall id :: id in s.reverse ==> s.reverse[id] in s.forward && s.forward[s.reverse[id]] == id
  }

  ghost predicate Injective(s: Ids) {
    forall i, j :: i in s.reverse && j in s.reverse && s.reverse[i] == s.reverse[j] ==> i == j
  }

  /** The alias does not take over the primary name of another number. */
  ghost predicate SafeAlias(s: Ids, alias: string, primary: string) {
    primary in s.forward ==> forall id :: id in s.reverse && s.reverse[id] == alias ==> id == s.forward[primary]
  }

  ghost predicate SafeOp(s: Ids, op: IdOp) {
    op.AliasOp? ==> SafeAlias(s, op.alias, op.primary)
  }

  /** Every alias was safe when it was registered. */
  ghost predicate SafeRun(s: Ids, ops: seq<IdOp>) {
    forall i :: 0 <= i < |ops| ==> SafeOp(ApplyAll(s, ops[..i]), ops[i])
  }

  lemma ApplyKeepsValid(s: Ids, op: IdOp)
    requires Valid(s)
    ensures Valid(Apply(s, op)) && s.nextId <= Apply(s, op).nextId
    ensures forall id :: id in Apply(s, op).reverse ==> id in s.reverse || id >= s.nextId
  {}

  /** Exactly the aliases that take over another number's primary name break the round trip. */
  lemma AliasFaithfulIff(s: Ids, alias: string, primary: string)
    requires Valid(s) && Faithful(s)
    ensures Faithful(Alias(s, alias, primary)) <==> SafeAlias(s, alias, primary)
  {}

  lemma ApplyKeepsFaithful(s: Ids, op: IdOp)
    requires Valid(s) && Faithful(s) && SafeOp(s, op)
    ensures Faithful(Apply(s, op))
  {}

  lemma FaithfulIsInjective(s: Ids)
    requires Faithful(s)
    ensures Injective(s)
  {}

  /** An alias that is new to the map is always safe. */
  lemma FreshAliasIsSafe(s: Ids, alias: string, primary: string)
    requires Faithful(s) && alias !in s.forward
    ensures SafeAlias(s, alias, primary)
  {}

  /** Over any run: the map stays valid and no number is ever issued twice, even after it was
      dropped; and as long as no alias takes over another primary name, looking up what a number
      reads back to gives the number, and no two numbers read back alike. */
  lemma {:induction false} RunKeepsIds(ops: seq<IdOp>)
    ensures Valid(ApplyAll(NO_IDS, ops))
    ensures SafeRun(NO_IDS, ops) ==> Faithful(ApplyAll(NO_IDS, ops)) && Injective(ApplyAll(NO_IDS, ops))
  {
    if ops == [] {
    } else {
      var front, op := ops[..|ops| - 1], ops[|ops| - 1];
      RunKeepsIds(front);
      ApplyKeepsValid(ApplyAll(NO_IDS, front), op);
      if SafeRun(NO_IDS, ops) {
        forall i | 0 <= i < |front| ensures SafeOp(ApplyAll(NO_IDS, front[..i]), front[i]) {
          assert front[..i] == ops[..i] && front[i] == ops[i];
        }
        ApplyKeepsFaithful(ApplyAll(NO_IDS, front), op);
        FaithfulIsInjective(ApplyAll(NO_IDS, ops));
      }
    }
  }

  /** Every alias was new to the map when it was registered. */
  ghost predicate FreshRun(s: Ids, ops: seq<IdOp>) {
    forall i :: 0 <= i < |ops| ==> (ops[i].AliasOp? ==> ops[i].alias !in ApplyAll(s, ops[..i]).forward)
  }

  /** Registering only new aliases is enough for the round trip. */
  lemma {:induction false} FreshRunIsSafe(ops: seq<IdOp>)
    requires FreshRun(NO_IDS, ops)
    ensures SafeRun(NO_IDS, ops) && Faithful(ApplyAll(NO_IDS, ops)) && Injective(ApplyAll(NO_IDS, ops))
    decreases |ops|
  {
    forall i | 0 <= i < |ops| ensures SafeOp(ApplyAll(NO_IDS, ops[..i]), ops[i]) {
      forall j | 0 <= j < i ensures ops[..i][..j] == ops[..j] && ops[..i][j] == ops[j] {}
      FreshRunIsSafe(ops[..i]);
      if ops[i].AliasOp? {
        FreshAliasIsSafe(ApplyAll(NO_IDS, ops[..i]), ops[i].alias, ops[i].primary);
      }
    }
    RunKeepsIds(ops);
  }

  /** A number present at one time and again later was there all along: it was not reissued. */
  lemma {:induction false} NeverReissued(s: Ids, ops: seq<IdOp>, id: nat)
    requires Valid(s) && id < s.nextId && id !in s.reverse
    ensures Valid(ApplyAll(s, ops)) && s.nextId <= ApplyAll(s, ops).nextId && id !in ApplyAll(s, ops).reverse
  {
    if ops == [] {
    } else {
      NeverReissued(s, ops[..|ops| - 1], id);
      ApplyKeepsValid(ApplyAll(s, ops[..|ops| - 1]), ops[|ops| - 1]);
    }
  }

  /** What goes wrong otherwise: aliasing `B` to `A` takes `B`'s name away from its number, and
      once that entry's forward name is gone `B` is numbered anew, so two numbers read back as `B`. */
  lemma TakenAliasBreaksRoundTrip()
    ensures var s := Alias(Insert(Insert(NO_IDS, "A"), "B"), "B", "A");
            !Faithful(s) && !Injective(Insert(Retain(s, {2}), "B"))
  {
    var s := Alias(Insert(Insert(NO_IDS, "A"), "B"), "B", "A");
    assert "A" != "B";
    assert s == Ids(map["A" := 1, "B" := 1], map[1 := "A", 2 := "B"], 3);
    assert 2 in s.reverse && s.forward[s.reverse[2]] == 1;
    var t := Retain(s, {2});
    assert "B" !in t.forward && t.reverse[2] == "B" && t.nextId == 3;
    var u := Insert(t, "B");
    assert u.reverse[2] == "B" && u.reverse[3] == "B";
  }

  // ----- the operations one by one -----

  /** What an operation does to the two maps and to the next number. */
  ghost predicate OpRule(s: Ids, s': Ids, op: IdOp) {
    match op
    case InsertOp(external) =>
      if external in s.forward then s' == s
      else
        && s'.forward == s.forward[external := s.nextId] && s'.reverse == s.reverse[s.nextId := external]
        && s'.nextId == s.nextId + 1
    case AliasOp(alias, primary) =>
      && s'.reverse == s.reverse && s'.nextId == s.nextId
      && s'.forward == if primary in s.forward then s.forward[alias := s.forward[primary]] else s.forward
    case RetainOp(keep) => Retains(s, s', keep)
  }

  /** Exactly the entries whose number is kept are left, in both maps; numbers are not given back. */
  ghost predicate Retains(s: Ids, s': Ids, keep: set<nat>) {
    && (forall k :: k in s'.forward <==> k in s.forward && s.forward[k] in keep)
    && (forall k :: k in s'.forward ==> s'.forward[k] == s.forward[k])
    && (forall id :: id in s'.reverse <==> id in s.reverse && id in keep)
    && (forall id :: id in s'.reverse ==> s'.reverse[id] == s.reverse[id])
    && s'.nextId == s.nextId
  }

  ghost predicate OpsAlong(ops: seq<IdOp>, maps: seq<Ids>) {
    |maps| == |ops| + 1 && forall i :: 0 <= i < |ops| ==> OpRule(maps[i], maps[i + 1], ops[i])
  }

  /** The operations one after the other. */
  ghost predicate OpsRule(s: Ids, ops: seq<IdOp>, s': Ids) {
    exists maps :: OpsAlong(ops, maps) && maps[0] == s && maps[|ops|] == s'
  }

  lemma RetainFollowsRule(s: Ids, keep: set<nat>)
    ensures Retains(s, Retain(s, keep), keep)
  {}

  lemma {:induction false} OpsFollowRule(s: Ids, ops: seq<IdOp>)
    ensures OpsRule(s, ops, ApplyAll(s, ops))
  {
    if ops == [] {
      assert OpsAlong(ops, [s]);
    } else {
      var front, op := ops[..|ops| - 1], ops[|ops| - 1];
      OpsFollowRule(s, front);
      var maps :| OpsAlong(front, maps) && maps[0] == s && maps[|front|] == ApplyAll(s, front);
      var after := ApplyAll(s, ops);
      assert OpRule(ApplyAll(s, front), after, op);
      forall i | 0 <= i < |ops| ensures OpRule((maps + [after])[i], (maps + [after])[i + 1], ops[i]) {
        if i < |front| {
          assert front[i] == ops[i];
        }
      }
      assert OpsAlong(ops, maps + [after]);
    }
  }

  // ----- the map as an object -----

  class IdTable {
    var forward: map<string, nat>
    var reverse: map<nat, string>
    var nextId: nat

    constructor ()
      ensures View() == NO_IDS
      ensures forward == map[] && reverse == map[] && nextId == 1
    {
      forward, reverse, nextId := map[], map[], 1;
    }

    function View(): Ids
      reads this
    {
      Ids(forward, reverse, nextId)
    }

    method GetOrInsert(external: string) returns (id: nat)
      modifies this
      ensures View() == Insert(old(View()), external)
      ensures external in forward && forward[external] == id
      ensures external in old(forward) ==> forward == old(forward) && reverse == old(reverse) && nextId == old(nextId)
      ensures external !in old(forward) ==>
                && id == old(nextId) && nextId == id + 1
                && forward == old(forward)[external := id] && reverse == old(reverse)[id := external]
    {
      if external in forward {
        return forward[external];
      }
      id := nextId;
      nextId := nextId + 1;
      forward := forward[external := id];
      reverse := reverse[id := external];
    }

    method RegisterAlias(alias: string, primary: string) returns (id: Option<nat>)
      modifies this
      ensures View() == Alias(old(View()), alias, primary)
      ensures id == if primary in old(forward) then Some(old(forward)[primary]) else None
      ensures forward == if id.Some? then old(forward)[alias := id.value] else old(forward)
      ensures reverse == old(reverse) && nextId == old(nextId)
    {
      if primary !in forward {
        return None;
      }
      id := Some(forward[primary]);
      forward := forward[alias := forward[primary]];
    }

    /** Drop every entry whose number is not in `keep`. */
    method RetainNodes(keep: set<nat>)
      modifies this
      ensures View() == Retain(old(View()), keep)
      ensures forall k :: k in forward <==> k in old(forward) && old(forward)[k] in keep
      ensures forall k :: k in forward ==> forward[k] == old(forward)[k]
      ensures reverse.Keys == old(reverse).Keys * keep && nextId == old(nextId)
      ensures forall id :: id in reverse ==> reverse[id] == old(reverse)[id]
    {
      forward := map k | k in forward && forward[k] in keep :: forward[k];
      reverse := map id | id in reverse && id in keep :: reverse[id];
    }

    function Get(external: string): Option<nat>
      reads this
    {
      if external in forward then Some(forward[external]) else None
    }
  }
}
