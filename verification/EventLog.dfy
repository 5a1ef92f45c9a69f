/** Audit events and anomaly records, and the labels by which the two are matched. */
module EventLog {
  import opened Wrappers

  datatype AnomalyType = SkippedApproval | LatePosting | MissingEvidence | OutOfSequence | InsufficientDocumentation

  datatype Severity = Low | Medium | High | Critical

  /** `timestamp` counts minutes. */
  datatype AuditEvent = AuditEvent(
    eventId: int,
    timestamp: int,
    eventType: string,
    procedureId: string,
    stepId: Option<string>,
    phaseId: string,
    fromState: Option<string>,
    toState: Option<string>,
    actorId: string,
    command: string,
    evidenceRefs: seq<string>,
    standardsRefs: seq<string>,
    isAnomaly: bool,
    anomalyType: Option<AnomalyType>)

  datatype AnomalyRecord = AnomalyRecord(
    anomalyId: int,
    anomalyType: AnomalyType,
    severity: Severity,
    procedureId: string,
    stepId: Option<string>,
    timestamp: int)

  /** What an anomaly record says about the event it belongs to. */
  datatype Label = Label(anomalyType: AnomalyType, procedureId: string, stepId: Option<string>, timestamp: int)

  function LabelOf(r: AnomalyRecord): Label {
    Label(r.anomalyType, r.procedureId, r.stepId, r.timestamp)
  }

  function RecordLabels(records: seq<AnomalyRecord>): seq<Label> {
    seq(|records|, i requires 0 <= i < |records| => LabelOf(records[i]))
  }

  /** The flag and the anomaly type are set together. */
  predicate WellFlagged(e: AuditEvent) {
    e.isAnomaly <==> e.anomalyType.Some?
  }

  function EventLabel(e: AuditEvent): seq<Label> {
    if e.isAnomaly && e.anomalyType.Some?
    then [Label(e.anomalyType.value, e.procedureId, e.stepId, e.timestamp)]
    else []
  }

  /** The labels of the flagged events, in log order. */
  function FlaggedLabels(log: seq<AuditEvent>): seq<Label> {
    if log == [] then [] else FlaggedLabels(log[..|log| - 1]) + EventLabel(log[|log| - 1])
  }

  function FlaggedCount(log: seq<AuditEvent>): nat {
    if log == [] then 0 else FlaggedCount(log[..|log| - 1]) + if log[|log| - 1].isAnomaly then 1 else 0
  }

  lemma {:induction false} FlaggedCountIsLabels(log: seq<AuditEvent>)
    requires forall e :: e in log ==> WellFlagged(e)
    ensures FlaggedCount(log) == |FlaggedLabels(log)|
  {
    if log == [] {
    } else {
      assert log[|log| - 1] in log;
      forall e | e in log[..|log| - 1] ensures WellFlagged(e) {
        assert e in log;
      }
      FlaggedCountIsLabels(log[..|log| - 1]);
    }
  }

  lemma FlaggedPush(log: seq<AuditEvent>, e: AuditEvent)
    ensures FlaggedLabels(log + [e]) == FlaggedLabels(log) + EventLabel(e)
    ensures FlaggedCount(log + [e]) == FlaggedCount(log) + if e.isAnomaly then 1 else 0
  {}
}
