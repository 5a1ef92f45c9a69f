/** Every field of the event logs, by position and with the names written out. */
module OcelRules {
  import opened Wrappers
  import opened Seqs
  import opened Ocel

  // ----- document flows -----

  /** One document: its object, its event's name and date, and how the event relates to the order. */
  ghost function Step(id: string, kind: string, activity: string, date: int, order: string, how: string): FlowStep {
    FlowStep(OcelObject(id, kind, map[]), activity, date, Some(OcelRelationship(order, how)))
  }

  /** The order, its shipments, its invoice and its payment, under the given names. */
  ghost predicate ChainRule(
    c: Chain, steps: seq<FlowStep>, order: string, ordered: string, party: string, shipment: string, shipped: string,
    invoice: string, invoiced: string, payment: string, paid: string)
  {
    var n := 1 + |c.shipments|;
    var m := if c.invoice.Some? then n + 1 else n;
    && |steps| == (if c.settlement.Some? then m + 1 else m)
    && steps[0] == FlowStep(OcelObject(c.order.id, order, map[party := c.party, "company_code" := c.company]), ordered,
                            c.order.date, None)
    && (forall k :: 0 <= k < |c.shipments| ==>
                      steps[1 + k] == Step(c.shipments[k].id, shipment, shipped, c.shipments[k].date, c.order.id, "updated"))
    && (c.invoice.Some? ==>
          steps[n] == Step(c.invoice.value.id, invoice, invoiced, c.invoice.value.date, c.order.id, "read"))
    && (c.settlement.Some? ==>
          steps[m] == Step(c.settlement.value.id, payment, paid, c.settlement.value.date, c.order.id, "consumed"))
  }

  ghost predicate PurchaseRule(c: Chain, steps: seq<FlowStep>) {
    ChainRule(c, steps, "purchase_order", "Create Purchase Order", "vendor_id", "goods_receipt", "Post Goods Receipt",
              "vendor_invoice", "Post Vendor Invoice", "payment", "Clear Payment")
  }

  ghost predicate SalesRule(c: Chain, steps: seq<FlowStep>) {
    ChainRule(c, steps, "sales_order", "Create Sales Order", "customer_id", "delivery", "Post Delivery",
              "customer_invoice", "Post Customer Invoice", "customer_receipt", "Receive Customer Payment")
  }

  ghost predicate PurchasesRule(chains: seq<Chain>, parts: seq<seq<FlowStep>>) {
    |parts| == |chains| && forall i :: 0 <= i < |chains| ==> PurchaseRule(chains[i], parts[i])
  }

  ghost predicate AllSalesRule(chains: seq<Chain>, parts: seq<seq<FlowStep>>) {
    |parts| == |chains| && forall i :: 0 <= i < |chains| ==> SalesRule(chains[i], parts[i])
  }

  /** All purchase chains, then all sales chains. */
  ghost predicate StepsRule(flows: Flows, steps: seq<FlowStep>) {
    exists purchases, sales ::
      PurchasesRule(flows.p2p, purchases) && AllSalesRule(flows.o2c, sales) && Joins(steps, purchases + sales)
  }

  /** `FLOW-EVT-` and the number in at least eight digits, with zeros in front of no more. */
  ghost predicate IdRule(id: string, n: nat) {
    && "FLOW-EVT-" <= id && |id| >= 17
    && (forall k :: 9 <= k < |id| ==> '0' <= id[k] <= '9')
    && (|id| > 17 ==> id[9] != '0')
    && ValueOf(id[9..]) == n
  }

  /** Event and object `i` are those of step `i`, up to the limit. */
  ghost predicate SynthesisRule(steps: seq<FlowStep>, limit: nat, doc: OcelDocument) {
    && |doc.events| == |doc.objects| == (if |steps| <= limit then |steps| else limit)
    && forall i :: 0 <= i < |doc.events| ==>
                     && doc.objects[i] == steps[i].subject
                     && IdRule(doc.events[i].id, i + 1)
                     && doc.events[i].eventType == steps[i].activity && doc.events[i].date == steps[i].date
                     && doc.events[i].relationships ==
                        match steps[i].order
                        case None => [OcelRelationship(steps[i].subject.id, "created")]
                        case Some(r) => [OcelRelationship(steps[i].subject.id, "created"), r]
  }

  // ----- the recorded log -----

  ghost predicate EventRule(e: OcpmEvent, x: OcelEvent) {
    && x.id == e.id && x.eventType == e.activity && x.date == e.date && |x.relationships| == |e.refs|
    && forall k :: 0 <= k < |e.refs| ==>
                     && x.relationships[k].qualifier == e.refs[k].qualifier
                     && x.relationships[k].objectId ==
                        match e.refs[k].externalId
                        case Some(name) => name
                        case None => e.refs[k].objectId
  }

  ghost predicate RecordedRule(log: OcpmLog, limit: nat, doc: OcelDocument) {
    && |doc.events| == (if |log.events| <= limit then |log.events| else limit) && |doc.objects| == |log.objects|
    && (forall i :: 0 <= i < |doc.events| ==> EventRule(log.events[i], doc.events[i]))
    && (forall i :: 0 <= i < |doc.objects| ==>
                      doc.objects[i] == OcelObject(log.objects[i].externalId, log.objects[i].typeId,
                                                   map["current_state" := log.objects[i].state, "company_code" := log.objects[i].company]))
  }

  /** A recorded log that has events, else the document flows if there are any, else nothing; zero
      stands for no limit, that is for the largest machine word. */
  ghost predicate ExportRule(source: OcelSource, maxEvents: nat, result: Option<OcelDocument>) {
    var limit := if maxEvents == 0 then 18_446_744_073_709_551_615 else maxEvents;
    if source.eventLog.Some? && |source.eventLog.value.events| > 0 then
      result.Some? && RecordedRule(source.eventLog.value, limit, result.value)
    else if |source.flows.p2p| + |source.flows.o2c| > 0 then
      result.Some? && exists steps :: StepsRule(source.flows, steps) && SynthesisRule(steps, limit, result.value)
    else
      result == None
  }

  lemma {:induction false} ShipmentsAt(l: Labels, c: Chain, docs: seq<Document>)
    ensures |ShipmentSteps(l, c, docs)| == |docs|
    ensures forall k :: 0 <= k < |docs| ==>
                          ShipmentSteps(l, c, docs)[k] ==
                          Step(docs[k].id, l.shipment.objectType, l.shipment.activity, docs[k].date, c.order.id, "updated")
  {
    if docs == [] {
    } else {
      ShipmentsAt(l, c, docs[..|docs| - 1]);
    }
  }

  lemma ChainFollowsRule(l: Labels, c: Chain)
    ensures ChainRule(c, ChainSteps(l, c), l.order.objectType, l.order.activity, l.partyKey, l.shipment.objectType,
                      l.shipment.activity, l.invoice.objectType, l.invoice.activity, l.settlement.objectType, l.settlement.activity)
  {
    ShipmentsAt(l, c, c.shipments);
    hide ShipmentSteps;
    var steps, shipments := ChainSteps(l, c), ShipmentSteps(l, c, c.shipments);
    forall k | 0 <= k < |c.shipments| ensures steps[1 + k] == shipments[k] {}
  }

  lemma PurchaseFollowsRule(c: Chain)
    ensures PurchaseRule(c, ChainSteps(P2P, c))
  {
    hide ChainRule, ChainSteps;
    ChainFollowsRule(P2P, c);
  }

  lemma SaleFollowsRule(c: Chain)
    ensures SalesRule(c, ChainSteps(O2C, c))
  {
    hide ChainRule, ChainSteps;
    ChainFollowsRule(O2C, c);
  }

  lemma {:induction false} ChainsJoin(before: seq<FlowStep>, beforeParts: seq<seq<FlowStep>>, l: Labels, chains: seq<Chain>)
    returns (parts: seq<seq<FlowStep>>)
    requires Joins(before, beforeParts)
    ensures AreChains(l, chains, parts)
    ensures Joins(before + FlowSteps(l, chains), beforeParts + parts)
  {
    hide Joins, ChainSteps;
    if chains == [] {
      parts := [];
      assert before + FlowSteps(l, chains) == before && beforeParts + parts == beforeParts;
    } else {
      var front, last := chains[..|chains| - 1], chains[|chains| - 1];
      var first := ChainsJoin(before, beforeParts, l, front);
      JoinsPush(before + FlowSteps(l, front), beforeParts + first, ChainSteps(l, last));
      parts := first + [ChainSteps(l, last)];
      assert before + FlowSteps(l, front) + ChainSteps(l, last) == before + FlowSteps(l, chains);
      assert beforeParts + first + [ChainSteps(l, last)] == beforeParts + parts;
    }
  }

  ghost predicate AreChains(l: Labels, chains: seq<Chain>, parts: seq<seq<FlowStep>>) {
    |parts| == |chains| && forall i :: 0 <= i < |chains| ==> parts[i] == ChainSteps(l, chains[i])
  }

  lemma PurchasesFollowRule(chains: seq<Chain>, parts: seq<seq<FlowStep>>)
    requires AreChains(P2P, chains, parts)
    ensures PurchasesRule(chains, parts)
  {
    hide PurchaseRule, ChainSteps;
    forall i | 0 <= i < |chains| ensures PurchaseRule(chains[i], parts[i]) {
      PurchaseFollowsRule(chains[i]);
    }
  }

  lemma SalesFollowRule(chains: seq<Chain>, parts: seq<seq<FlowStep>>)
    requires AreChains(O2C, chains, parts)
    ensures AllSalesRule(chains, parts)
  {
    hide SalesRule, ChainSteps;
    forall i | 0 <= i < |chains| ensures SalesRule(chains[i], parts[i]) {
      SaleFollowsRule(chains[i]);
    }
  }

  lemma StepsFollowRule(flows: Flows)
    ensures StepsRule(flows, AllSteps(flows))
  {
    assert Joins<FlowStep>([], []);
    hide Joins, ChainSteps, FlowSteps, PurchasesRule, AllSalesRule;
    var purchases := ChainsJoin([], [], P2P, flows.p2p);
    assert [] + FlowSteps(P2P, flows.p2p) == FlowSteps(P2P, flows.p2p) && [] + purchases == purchases;
    var sales := ChainsJoin(FlowSteps(P2P, flows.p2p), purchases, O2C, flows.o2c);
    PurchasesFollowRule(flows.p2p, purchases);
    SalesFollowRule(flows.o2c, sales);
  }

  ghost predicate AllDigits(s: string) {
    forall k :: 0 <= k < |s| ==> '0' <= s[k] <= '9'
  }

  lemma {:induction false} DecimalDigits(n: nat)
    ensures AllDigits(Decimal(n)) && Decimal(n) != [] && (n > 0 ==> Decimal(n)[0] != '0')
  {
    if n >= 10 {
      DecimalDigits(n / 10);
    }
  }

  lemma {:induction false} PaddedDigits(s: string)
    requires AllDigits(s) && (|s| > 8 ==> s[0] != '0')
    ensures AllDigits(Padded(s)) && |Padded(s)| >= 8 && (|Padded(s)| > 8 ==> Padded(s)[0] != '0')
    decreases 8 - |s|
  {
    if |s| < 8 {
      PaddedDigits("0" + s);
    }
  }

  lemma IdFollowsRule(n: nat)
    requires n > 0
    ensures IdRule(FlowEventId(n), n)
  {
    var digits := Padded(Decimal(n));
    DecimalDigits(n);
    PaddedDigits(Decimal(n));
    DecimalValue(n);
    PaddedValue(Decimal(n));
    assert FlowEventId(n)[9..] == digits;
    assert forall k :: 9 <= k < |FlowEventId(n)| ==> FlowEventId(n)[k] == digits[k - 9];
  }

  lemma SynthesisFollowsRule(flows: Flows, limit: nat)
    ensures SynthesisRule(AllSteps(flows), limit, Synthesis(flows, limit))
  {
    hide IdRule, FlowEventId, AllSteps;
    var doc := Synthesis(flows, limit);
    forall i | 0 <= i < |doc.events| ensures IdRule(doc.events[i].id, i + 1) {
      IdFollowsRule(i + 1);
    }
  }

  lemma RecordedFollowsRule(log: OcpmLog, limit: nat)
    ensures RecordedRule(log, limit, FromOcpmEventLog(log, limit))
  {}

  /** The exported event log, whatever it is made from. */
  lemma OcelFollowsRule(source: OcelSource, maxEvents: nat)
    ensures ExportRule(source, maxEvents, ExportOf(source, maxEvents))
  {
    hide StepsRule, SynthesisRule, RecordedRule, Synthesis, FromOcpmEventLog;
    var limit := if maxEvents == 0 then USIZE_MAX else maxEvents;
    if source.eventLog.Some? {
      RecordedFollowsRule(source.eventLog.value, limit);
    }
    StepsFollowRule(source.flows);
    SynthesisFollowsRule(source.flows, limit);
  }
}
