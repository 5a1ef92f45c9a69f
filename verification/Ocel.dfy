/** Object-centric event logs: converted from a recorded log, or synthesized from document flows, one
    event and one new object per document, purchase chains first, up to a limit on the events. */
module Ocel {
  import opened Wrappers
  import opened Seqs

  datatype OcelRelationship = OcelRelationship(objectId: string, qualifier: string)

  datatype OcelEvent = OcelEvent(id: string, eventType: string, date: int, relationships: seq<OcelRelationship>)

  datatype OcelObject = OcelObject(id: string, objectType: string, properties: map<string, string>)

  datatype OcelDocument = OcelDocument(events: seq<OcelEvent>, objects: seq<OcelObject>)

  datatype Document = Document(id: string, date: int)

  /** An order, its receipts or deliveries, its invoice and its payment. */
  datatype Chain = Chain(
    order: Document,
    party: string,
    company: string,
    shipments: seq<Document>,
    invoice: Option<Document>,
    settlement: Option<Document>)

  datatype Flows = Flows(p2p: seq<Chain>, o2c: seq<Chain>)

  datatype Label = Label(objectType: string, activity: string)

  datatype Labels = Labels(order: Label, partyKey: string, shipment: Label, invoice: Label, settlement: Label)

  const P2P := Labels(
    Label("purchase_order", "Create Purchase Order"), "vendor_id",
    Label("goods_receipt", "Post Goods Receipt"),
    Label("vendor_invoice", "Post Vendor Invoice"),
    Label("payment", "Clear Payment"))

  const O2C := Labels(
    Label("sales_order", "Create Sales Order"), "customer_id",
    Label("delivery", "Post Delivery"),
    Label("customer_invoice", "Post Customer Invoice"),
    Label("customer_receipt", "Receive Customer Payment"))

  // ----- event ids -----

  function Digit(d: nat): (c: char)
    requires d < 10
    ensures '0' <= c <= '9' && c as int - '0' as int == d
  {
    ('0' as int + d) as char
  }

  function Decimal(n: nat): string {
    if n < 10 then [Digit(n)] else Decimal(n / 10) + [Digit(n % 10)]
  }

  /** `{:08}`: zeros in front up to eight digits, and no limit above that. */
  function Padded(s: string): string
    decreases 8 - |s|
  {
    if |s| >= 8 then s else Padded("0" + s)
  }

  function FlowEventId(n: nat): string {
    "FLOW-EVT-" + Padded(Decimal(n))
  }

  function ValueOf(s: string): int {
    if s == [] then 0 else 10 * ValueOf(s[..|s| - 1]) + (s[|s| - 1] as int - '0' as int)
  }

  lemma {:induction false} DecimalValue(n: nat)
    ensures ValueOf(Decimal(n)) == n
  {
    if n < 10 {
      assert ValueOf([Digit(n)][..0]) == 0;
    } else {
      DecimalValue(n / 10);
      assert Decimal(n)[..|Decimal(n)| - 1] == Decimal(n / 10);
    }
  }

  lemma {:induction false} LeadingZero(s: string)
    ensures ValueOf("0" + s) == ValueOf(s)
  {
    if s == [] {
      assert "0" + s == "0" && "0"[..0] == [];
      assert ValueOf("0"[..0]) == 0;
    } else {
      LeadingZero(s[..|s| - 1]);
      assert ("0" + s)[..|s|] == "0" + s[..|s| - 1];
    }
  }

  lemma {:induction false} PaddedValue(s: string)
    ensures ValueOf(Padded(s)) == ValueOf(s)
    decreases 8 - |s|
  {
    if |s| < 8 {
      PaddedValue("0" + s);
      LeadingZero(s);
    }
  }

  lemma EventIdsAreDistinct(m: nat, n: nat)
    ensures FlowEventId(m) == FlowEventId(n) <==> m == n
  {
    var prefix := "FLOW-EVT-";
    assert FlowEventId(m)[|prefix|..] == Padded(Decimal(m));
    assert FlowEventId(n)[|prefix|..] == Padded(Decimal(n));
    PaddedValue(Decimal(m));
    PaddedValue(Decimal(n));
    DecimalValue(m);
    DecimalValue(n);
  }

  // ----- the unlimited synthesis -----

  /** What one document contributes: its object, and how it relates to its order. */
  datatype FlowStep = FlowStep(subject: OcelObject, activity: string, date: int, order: Option<OcelRelationship>)

  function OrderStep(l: Labels, c: Chain): FlowStep {
    FlowStep(OcelObject(c.order.id, l.order.objectType, map[l.partyKey := c.party, "company_code" := c.company]),
             l.order.activity, c.order.date, None)
  }

  function DocumentStep(kind: Label, c: Chain, d: Document, qualifier: string): FlowStep {
    FlowStep(OcelObject(d.id, kind.objectType, map[]), kind.activity, d.date,
             Some(OcelRelationship(c.order.id, qualifier)))
  }

  function ShipmentSteps(l: Labels, c: Chain, docs: seq<Document>): (steps: seq<FlowStep>) {
    if docs == [] then []
    else
      ShipmentSteps(l, c, docs[..|docs| - 1]) + [DocumentStep(l.shipment, c, docs[|docs| - 1], "updated")]
  }

  function OptionalStep(kind: Label, c: Chain, d: Option<Document>, qualifier: string): seq<FlowStep> {
    if d.Some? then [DocumentStep(kind, c, d.value, qualifier)] else []
  }

  function ChainSteps(l: Labels, c: Chain): seq<FlowStep> {
    [OrderStep(l, c)] + ShipmentSteps(l, c, c.shipments)
    + OptionalStep(l.invoice, c, c.invoice, "read") + OptionalStep(l.settlement, c, c.settlement, "consumed")
  }

  function FlowSteps(l: Labels, chains: seq<Chain>): seq<FlowStep> {
    if chains == [] then [] else FlowSteps(l, chains[..|chains| - 1]) + ChainSteps(l, chains[|chains| - 1])
  }

  function AllSteps(flows: Flows): seq<FlowStep> {
    FlowSteps(P2P, flows.p2p) + FlowSteps(O2C, flows.o2c)
  }

  function EventOf(step: FlowStep, number: nat): OcelEvent {
    OcelEvent(FlowEventId(number), step.activity, step.date,
              [OcelRelationship(step.subject.id, "created")] + if step.order.Some? then [step.order.value] else [])
  }

  function EventsOf(steps: seq<FlowStep>): seq<OcelEvent> {
    seq(|steps|, i requires 0 <= i < |steps| => EventOf(steps[i], i + 1))
  }

  function ObjectsOf(steps: seq<FlowStep>): seq<OcelObject> {
    seq(|steps|, i requires 0 <= i < |steps| => steps[i].subject)
  }

  function Synthesis(flows: Flows, maxEvents: nat): OcelDocument {
    var steps := Take(AllSteps(flows), maxEvents);
    OcelDocument(EventsOf(steps), ObjectsOf(steps))
  }

  // ----- the synthesis with a limit, as it is carried out -----

  lemma TakeTake<T>(a: seq<T>, b: seq<T>, m: nat)
    ensures Take(Take(a, m) + b, m) == Take(a + b, m)
  {}

  lemma TakeAppended<T>(s: seq<T>, a: seq<T>, b: seq<T>, m: nat)
    ensures Take(Take(s + a, m) + b, m) == Take(s + (a + b), m)
  {}

  lemma TakeFull<T>(s: seq<T>, a: seq<T>, b: seq<T>, m: nat)
    requires a <= b && |Take(s + a, m)| >= m
    ensures Take(s + b, m) == Take(s + a, m)
  {}

  class FlowExport {
    var events: seq<OcelEvent>
    var objects: seq<OcelObject>
    var counter: nat
    ghost var steps: seq<FlowStep>

    ghost predicate Valid()
      reads this
    {
      counter == |steps| && events == EventsOf(steps) && objects == ObjectsOf(steps)
    }

    constructor ()
      ensures Valid() && steps == []
    {
      events, objects, counter, steps := [], [], 0, [];
    }

    method Emit(step: FlowStep)
      requires Valid()
      modifies this
      ensures Valid() && steps == old(steps) + [step]
    {
      objects := objects + [step.subject];
      counter := counter + 1;
      events := events + [EventOf(step, counter)];
      steps := steps + [step];
    }

    method EmitOptional(kind: Label, c: Chain, d: Option<Document>, qualifier: string, maxEvents: nat)
      requires Valid() && counter <= maxEvents
      modifies this
      ensures Valid() && steps == Take(old(steps) + OptionalStep(kind, c, d, qualifier), maxEvents)
    {
      if d.Some? {
        if counter < maxEvents {
          Emit(DocumentStep(kind, c, d.value, qualifier));
        }
      }
    }

    method EmitShipments(l: Labels, c: Chain, maxEvents: nat)
      requires Valid() && counter <= maxEvents
      modifies this
      ensures Valid() && steps == Take(old(steps) + ShipmentSteps(l, c, c.shipments), maxEvents)
    {
      var docs := c.shipments;
      for i := 0 to |docs|
        invariant Valid() && steps == Take(old(steps) + ShipmentSteps(l, c, docs[..i]), maxEvents)
      {
        assert docs[..i + 1][..i] == docs[..i];
        if counter >= maxEvents {
          ShipmentsPrefix(l, c, docs, i);
          TakeFull(old(steps), ShipmentSteps(l, c, docs[..i]), ShipmentSteps(l, c, docs), maxEvents);
          return;
        }
        Emit(DocumentStep(l.shipment, c, docs[i], "updated"));
      }
      assert docs[..|docs|] == docs;
    }

    method EmitChain(l: Labels, c: Chain, maxEvents: nat)
      requires Valid() && counter < maxEvents
      modifies this
      ensures Valid() && steps == Take(old(steps) + ChainSteps(l, c), maxEvents)
    {
      ghost var before := old(steps);
      ghost var first := before + [OrderStep(l, c)];
      ghost var second := ShipmentSteps(l, c, c.shipments);
      ghost var third := OptionalStep(l.invoice, c, c.invoice, "read");
      ghost var fourth := OptionalStep(l.settlement, c, c.settlement, "consumed");
      assert before + ChainSteps(l, c) == first + second + third + fourth;
      Emit(OrderStep(l, c));
      if counter >= maxEvents {
        TakeFull(before, [OrderStep(l, c)], ChainSteps(l, c), maxEvents);
        return;
      }
      EmitShipments(l, c, maxEvents);
      EmitOptional(l.invoice, c, c.invoice, "read", maxEvents);
      TakeTake(first + second, third, maxEvents);
      EmitOptional(l.settlement, c, c.settlement, "consumed", maxEvents);
      TakeTake(first + second + third, fourth, maxEvents);
    }

    method EmitChains(l: Labels, chains: seq<Chain>, maxEvents: nat)
      requires Valid() && counter <= maxEvents
      modifies this
      ensures Valid() && steps == Take(old(steps) + FlowSteps(l, chains), maxEvents)
    {
      ghost var before := old(steps);
      for i := 0 to |chains|
        invariant Valid() && steps == Take(before + FlowSteps(l, chains[..i]), maxEvents)
      {
        if counter >= maxEvents {
          FlowStepsPrefix(l, chains, i);
          TakeFull(before, FlowSteps(l, chains[..i]), FlowSteps(l, chains), maxEvents);
          return;
        }
        assert chains[..i + 1][..i] == chains[..i];
        EmitChain(l, chains[i], maxEvents);
        TakeAppended(before, FlowSteps(l, chains[..i]), ChainSteps(l, chains[i]), maxEvents);
      }
      assert chains[..|chains|] == chains;
    }
  }

  lemma {:induction false} ShipmentsPrefix(l: Labels, c: Chain, docs: seq<Document>, i: nat)
    requires i <= |docs|
    ensures ShipmentSteps(l, c, docs[..i]) <= ShipmentSteps(l, c, docs)
  {
    if i == |docs| {
      assert docs[..i] == docs;
    } else {
      ShipmentsPrefix(l, c, docs[..|docs| - 1], i);
      assert docs[..|docs| - 1][..i] == docs[..i];
    }
  }

  lemma {:induction false} FlowStepsPrefix(l: Labels, chains: seq<Chain>, i: nat)
    requires i <= |chains|
    ensures FlowSteps(l, chains[..i]) <= FlowSteps(l, chains)
  {
    if i == |chains| {
      assert chains[..i] == chains;
    } else {
      FlowStepsPrefix(l, chains[..|chains| - 1], i);
      assert chains[..|chains| - 1][..i] == chains[..i];
    }
  }

  method FromDocumentFlows(flows: Flows, maxEvents: nat) returns (doc: OcelDocument)
    ensures doc == Synthesis(flows, maxEvents)
  {
    var flowLog := new FlowExport();
    flowLog.EmitChains(P2P, flows.p2p, maxEvents);
    assert [] + FlowSteps(P2P, flows.p2p) == FlowSteps(P2P, flows.p2p);
    flowLog.EmitChains(O2C, flows.o2c, maxEvents);
    TakeTake(FlowSteps(P2P, flows.p2p), FlowSteps(O2C, flows.o2c), maxEvents);
    doc := OcelDocument(flowLog.events, flowLog.objects);
  }

  // ----- the recorded event log, where there is one -----

  datatype ObjectRef = ObjectRef(externalId: Option<string>, objectId: string, qualifier: string)

  datatype OcpmEvent = OcpmEvent(id: string, activity: string, date: int, refs: seq<ObjectRef>)

  datatype OcpmObject = OcpmObject(externalId: string, typeId: string, state: string, company: string)

  datatype OcpmLog = OcpmLog(events: seq<OcpmEvent>, objects: seq<OcpmObject>)

  function RefName(r: ObjectRef): string {
    r.externalId.UnwrapOr(r.objectId)
  }

  function ConvertEvent(e: OcpmEvent): OcelEvent {
    OcelEvent(e.id, e.activity, e.date,
              seq(|e.refs|, i requires 0 <= i < |e.refs| => OcelRelationship(RefName(e.refs[i]), e.refs[i].qualifier)))
  }

  function ConvertObject(o: OcpmObject): OcelObject {
    OcelObject(o.externalId, o.typeId, map["current_state" := o.state, "company_code" := o.company])
  }

  /** Only the events are limited; all objects are converted. */
  function FromOcpmEventLog(log: OcpmLog, maxEvents: nat): OcelDocument {
    var events := Take(log.events, maxEvents);
    OcelDocument(seq(|events|, i requires 0 <= i < |events| => ConvertEvent(events[i])),
                 seq(|log.objects|, i requires 0 <= i < |log.objects| => ConvertObject(log.objects[i])))
  }

  datatype OcelSource = OcelSource(eventLog: Option<OcpmLog>, flows: Flows)

  const USIZE_MAX := 0xFFFF_FFFF_FFFF_FFFF

  /** A recorded log with events comes first, then the document flows. A limit of zero means none. */
  function ExportOf(source: OcelSource, maxEvents: nat): Option<OcelDocument> {
    var limit := if maxEvents == 0 then USIZE_MAX else maxEvents;
    if source.eventLog.Some? && source.eventLog.value.events != [] then Some(FromOcpmEventLog(source.eventLog.value, limit))
    else if source.flows.p2p == [] && source.flows.o2c == [] then None
    else
      Some(Synthesis(source.flows, limit))
  }

  method ExportOcel(source: OcelSource, maxEvents: nat) returns (ocel: Option<OcelDocument>)
    ensures ocel == ExportOf(source, maxEvents)
  {
    var limit := if maxEvents == 0 then USIZE_MAX else maxEvents;
    if source.eventLog.Some? {
      if source.eventLog.value.events != [] {
        return Some(FromOcpmEventLog(source.eventLog.value, limit));
      }
    }
    if source.flows.p2p != [] || source.flows.o2c != [] {
      var doc := FromDocumentFlows(source.flows, limit);
      return Some(doc);
    }
    return None;
  }

  ghost predicate NamesObject(doc: OcelDocument, name: string) {
    exists o :: o in doc.objects && o.id == name
  }

  ghost predicate RefsResolve(log: OcpmLog) {
    forall e, r :: e in log.events && r in e.refs ==> exists o :: o in log.objects && o.externalId == RefName(r)
  }

  /** However few events are exported, they are the first ones, and their relationships still name
      exported objects if the recorded log's did. */
  lemma RecordedLogStaysClosed(log: OcpmLog, maxEvents: nat, enough: nat)
    requires |log.events| <= enough
    ensures var doc := FromOcpmEventLog(log, maxEvents);
            && doc.events == Take(FromOcpmEventLog(log, enough).events, maxEvents)
            && doc.objects == FromOcpmEventLog(log, enough).objects
            && (RefsResolve(log) ==> forall e, r :: e in doc.events && r in e.relationships ==> NamesObject(doc, r.objectId))
  {
    var doc := FromOcpmEventLog(log, maxEvents);
    var events := Take(log.events, maxEvents);
    assert doc.events == Take(FromOcpmEventLog(log, enough).events, maxEvents);
    if RefsResolve(log) {
      forall e, r | e in doc.events && r in e.relationships ensures NamesObject(doc, r.objectId) {
        var i :| 0 <= i < |events| && e == ConvertEvent(events[i]);
        var k :| 0 <= k < |e.relationships| && e.relationships[k] == r;
        assert events[i] in log.events && events[i].refs[k] in events[i].refs;
        var o :| o in log.objects && o.externalId == RefName(events[i].refs[k]);
        var n :| 0 <= n < |log.objects| && log.objects[n] == o;
        assert doc.objects[n] in doc.objects;
      }
    }
  }

  // ----- what the log looks like -----

  /** The limit cuts the unlimited log: exactly its first events, and exactly its first objects. */
  lemma BoundedRefinesUnbounded(flows: Flows, maxEvents: nat, enough: nat)
    requires |AllSteps(flows)| <= enough
    ensures Synthesis(flows, maxEvents).events == Take(Synthesis(flows, enough).events, maxEvents)
    ensures Synthesis(flows, maxEvents).objects == Take(Synthesis(flows, enough).objects, maxEvents)
  {}

  ghost predicate NamesEmitted(steps: seq<FlowStep>, i: nat)
    requires i < |steps|
  {
    steps[i].order.Some? ==> exists j: nat :: j < i && steps[j].subject.id == steps[i].order.value.objectId
  }

  ghost predicate Grounded(steps: seq<FlowStep>) {
    forall i :: 0 <= i < |steps| ==> NamesEmitted(steps, i)
  }

  lemma GroundedAppend(a: seq<FlowStep>, b: seq<FlowStep>)
    requires Grounded(a) && Grounded(b)
    ensures Grounded(a + b)
  {
    var s := a + b;
    forall i | 0 <= i < |s| ensures NamesEmitted(s, i) {
      if i < |a| {
        assert NamesEmitted(a, i) && s[i] == a[i];
        if s[i].order.Some? {
          var j: nat :| j < i && a[j].subject.id == a[i].order.value.objectId;
          assert s[j] == a[j];
        }
      } else {
        assert NamesEmitted(b, i - |a|) && s[i] == b[i - |a|];
        if s[i].order.Some? {
          var j: nat :| j < i - |a| && b[j].subject.id == b[i - |a|].order.value.objectId;
          assert s[|a| + j] == b[j];
        }
      }
    }
  }

  ghost predicate BelongsTo(steps: seq<FlowStep>, order: string) {
    forall i :: 0 <= i < |steps| ==> steps[i].order.Some? && steps[i].order.value.objectId == order
  }

  lemma {:induction false} ShipmentsBelong(l: Labels, c: Chain, docs: seq<Document>)
    ensures BelongsTo(ShipmentSteps(l, c, docs), c.order.id) && |ShipmentSteps(l, c, docs)| == |docs|
  {
    if docs == [] {
    } else {
      ShipmentsBelong(l, c, docs[..|docs| - 1]);
    }
  }

  lemma ChainGrounded(l: Labels, c: Chain)
    ensures Grounded(ChainSteps(l, c))
  {
    ShipmentsBelong(l, c, c.shipments);
    var steps := ChainSteps(l, c);
    assert BelongsTo(steps[1..], c.order.id);
    forall i | 0 <= i < |steps| ensures NamesEmitted(steps, i) {
      if i > 0 {
        assert steps[i] == steps[1..][i - 1];
        assert steps[0].subject.id == c.order.id;
      }
    }
  }

  lemma {:induction false} FlowGrounded(l: Labels, chains: seq<Chain>)
    ensures Grounded(FlowSteps(l, chains))
  {
    if chains == [] {
    } else {
      FlowGrounded(l, chains[..|chains| - 1]);
      ChainGrounded(l, chains[|chains| - 1]);
      GroundedAppend(FlowSteps(l, chains[..|chains| - 1]), ChainSteps(l, chains[|chains| - 1]));
    }
  }

  ghost predicate NamedBy(objects: seq<OcelObject>, i: nat, r: OcelRelationship)
    requires i < |objects|
  {
    exists j: nat :: j <= i && objects[j].id == r.objectId
  }

  /** With or without a limit: as many objects as events, event ids count up from one and are all
      different, event `i` first says that object `i` was created, and no relationship names an
      object that was not emitted by then. */
  lemma LogIsWellFormed(flows: Flows, maxEvents: nat)
    ensures var doc := Synthesis(flows, maxEvents);
            && |doc.events| == |doc.objects| <= maxEvents
            && (forall i :: 0 <= i < |doc.events| ==>
                  && doc.events[i].id == FlowEventId(i + 1)
                  && doc.events[i].relationships != []
                  && doc.events[i].relationships[0] == OcelRelationship(doc.objects[i].id, "created")
                  && forall r :: r in doc.events[i].relationships ==> NamedBy(doc.objects, i, r))
            && forall i, j :: 0 <= i < j < |doc.events| ==> doc.events[i].id != doc.events[j].id
  {
    FlowGrounded(P2P, flows.p2p);
    FlowGrounded(O2C, flows.o2c);
    GroundedAppend(FlowSteps(P2P, flows.p2p), FlowSteps(O2C, flows.o2c));
    var steps := Take(AllSteps(flows), maxEvents);
    var doc := Synthesis(flows, maxEvents);
    forall i | 0 <= i < |steps| ensures forall r :: r in doc.events[i].relationships ==> NamedBy(doc.objects, i, r) {
      RelationshipsResolve(AllSteps(flows), steps, i);
    }
    forall i, j | 0 <= i < j < |steps| ensures doc.events[i].id != doc.events[j].id {
      EventIdsAreDistinct(i + 1, j + 1);
    }
  }

  lemma RelationshipsResolve(all: seq<FlowStep>, steps: seq<FlowStep>, i: nat)
    requires Grounded(all) && steps <= all && i < |steps|
    ensures forall r :: r in EventsOf(steps)[i].relationships ==> NamedBy(ObjectsOf(steps), i, r)
  {
    var objects := ObjectsOf(steps);
    assert objects[i].id == steps[i].subject.id;
    assert NamesEmitted(all, i) && steps[i] == all[i];
    if steps[i].order.Some? {
      var j: nat :| j < i && all[j].subject.id == all[i].order.value.objectId;
      assert objects[j].id == steps[j].subject.id == all[j].subject.id;
    }
  }

  ghost function DocumentCount(chains: seq<Chain>): nat {
    if chains == [] then 0
    else
      var c := chains[|chains| - 1];
      DocumentCount(chains[..|chains| - 1]) + 1 + |c.shipments|
      + (if c.invoice.Some? then 1 else 0) + if c.settlement.Some? then 1 else 0
  }

  lemma {:induction false} OneStepPerDocument(l: Labels, chains: seq<Chain>)
    ensures |FlowSteps(l, chains)| == DocumentCount(chains)
  {
    if chains == [] {
    } else {
      OneStepPerDocument(l, chains[..|chains| - 1]);
      ShipmentsBelong(l, chains[|chains| - 1], chains[|chains| - 1].shipments);
    }
  }

  /** The log has one event for each document, unless the limit is lower. */
  lemma LogLength(flows: Flows, maxEvents: nat)
    ensures var documents := DocumentCount(flows.p2p) + DocumentCount(flows.o2c);
            |Synthesis(flows, maxEvents).events| == if documents <= maxEvents then documents else maxEvents
  {
    OneStepPerDocument(P2P, flows.p2p);
    OneStepPerDocument(O2C, flows.o2c);
  }
}
