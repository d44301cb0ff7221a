/** The authority's mutable store: operation records updated in place, and the
    maps, counters and logs around them. */
module Store {
  import opened Basics
  import opened Facts
  import opened Records
  import opened ResidueRules
  import opened Machine

  /** One operation, shared by reference between the store and the flow that
      works on it. Its residue and debt belong to it alone. */
  class OperationRecord {
    const id: OperationID
    const requestDigest: Digest
    const generation: Generation
    const fence: Fence
    const safetyEpoch: SafetyEpoch
    const activityGeneration: Generation
    const occurredAt: Instant
    const candidate: Candidate
    var state: OperationState
    var streamRevision: StreamRevision
    var verification: Option<Verification>
    var evidence: Option<PublicationEvidence>
    var rejectReason: RejectReason
    var cancelReason: CancelReason
    var reconcileMode: ReconcileMode
    var residue: Option<Residue>
    var debt: Option<Debt>
    var integrityConflict: bool
    var outcomes: Outcomes

    ghost function Value(): Operation
      reads this
    {
      Operation(
        id, requestDigest, state, streamRevision, generation, fence, safetyEpoch, activityGeneration, occurredAt,
        candidate, verification, evidence, rejectReason, cancelReason, reconcileMode, residue, debt,
        integrityConflict, outcomes)
    }

    constructor (h: Header, digest: Digest, revision: StreamRevision, now: Instant, drafted: Candidate)
      ensures Value() == Operation(
        h.operation, digest, OpPrepared, revision, h.generation, h.fence, h.safetyEpoch, h.activityGeneration, now,
        drafted, None, None, NoRejectReason, NoCancelReason, NoReconcile, None, None, false, map[])
    {
      id, requestDigest, generation, fence := h.operation, digest, h.generation, h.fence;
      safetyEpoch, activityGeneration, occurredAt, candidate := h.safetyEpoch, h.activityGeneration, now, drafted;
      state, streamRevision, verification, evidence := OpPrepared, revision, None, None;
      rejectReason, cancelReason, reconcileMode := NoRejectReason, NoCancelReason, NoReconcile;
      residue, debt, integrityConflict, outcomes := None, None, false, map[];
    }

    /** The decision this record renders to now. */
    method Decide(replay: bool, now: Instant) returns (d: Decision)
      ensures d == DecisionOf(Value(), replay, now)
    {
      d := Decision(
        id, requestDigest, state, streamRevision, candidate.version, candidate.manifestDigest, candidate.lineageDigest,
        verification, evidence, replay, integrityConflict, rejectReason, cancelReason, reconcileMode, residue.Some?,
        NoDisposition, 0, None, 0, NoDebt, NoResolution, now);
      if residue.Some? {
        d := d.(residueDisposition := residue.value.disposition, residueExpiry := residue.value.expiry,
                receipt := residue.value.receipt, debtID := residue.value.debtID);
      }
      if debt.Some? {
        d := d.(debtStatus := debt.value.status, resolutionClass := debt.value.resolutionClass);
      }
    }

    method RecordOutcome(kind: IntentKind, digest: Digest, decision: Option<Decision>, error: Option<ErrorCode>, now: Instant)
      modifies this
      ensures Value() == Recorded(old(Value()), kind, digest, decision, error, now)
    {
      var byKind: map<Digest, IntentOutcome> := map[];
      if kind in outcomes {
        byKind := outcomes[kind];
      }
      byKind := byKind[digest := IntentOutcome(digest, state, decision, error, now)];
      outcomes := outcomes[kind := byKind];
    }

    method RecordResidueAttempt(category: ErrorCategory, now: Instant)
      requires residue.Some?
      modifies this
      ensures Value() == old(Value()).(residue := Some(ResidueAttempt(old(residue.value), category, now)))
    {
      var r := residue.value;
      r := r.(attempts := r.attempts + 1);
      match category {
        case Unavailable =>
          r := r.(failures := r.failures + 1);
          r := r.(nextRetryAt := NextRetry(now, r.failures));
        case NoCategory =>
          r := r.(failures := 0, nextRetryAt := 0);
        case _ =>
          r := r.(failures := r.failures + 1, nextRetryAt := 0);
      }
      residue := Some(r.(lastError := category));
    }

    /** One debt attempt and the revision bump that follows it; nothing without a debt. */
    method RecordDebtAttempt(category: ErrorCategory, now: Instant)
      modifies this
      ensures Value() == old(Value()).(debt := if old(debt).None? then None else Some(DebtAttempt(old(debt.value), category, now)))
    {
      if debt.None? {
        return;
      }
      var d := debt.value;
      d := d.(attempts := d.attempts + 1);
      if d.firstAttemptAt == 0 {
        d := d.(firstAttemptAt := now);
      }
      d := d.(lastAttemptAt := now, lastError := category);
      match category {
        case NoCategory =>
          d := d.(failures := 0, nextRetryAt := 0, retry := RetryReady);
        case Unavailable =>
          d := d.(failures := d.failures + 1);
          d := d.(nextRetryAt := NextRetry(now, d.failures), retry := RetryScheduled);
        case _ =>
          d := d.(failures := d.failures + 1, nextRetryAt := 0, retry := RetryBlocked);
      }
      debt := Some(d.(revision := d.revision + 1));
    }
  }

  /** What one flow did: to which operation, what around it, and whether it went ahead. */
  datatype Work = Work(scope: OperationScope, effect: Effect, done: bool)

  function Minted(done: bool, minting: bool): nat { if done && minting then 1 else 0 }

  class Persistence {
    var nextVersion: nat
    var nextArtifact: nat
    var nextDebt: nat
    var nextAudit: nat
    var operations: map<OperationScope, OperationRecord>
    var streams: map<TaskScope, Stream>
    var versionFacts: map<ArtifactVersionID, TaskScope>
    var artifactFacts: map<ArtifactID, TaskScope>
    var versionIndex: map<ArtifactVersionID, OperationScope>
    var activated: map<ArtifactVersionID, ActivatedVersion>
    var auditFacts: seq<AuditFact>
    var deliveries: map<AuditFactID, Delivery>
    ghost var sinkLog: seq<SinkAcceptance>

    /** No record is filed under two scopes. */
    ghost predicate Separate()
      reads this
    {
      forall x, y | x in operations && y in operations && x != y :: operations[x] != operations[y]
    }

    ghost function Snapshot(): State
      reads this, operations.Values
    {
      State(
        nextVersion, nextArtifact, nextDebt, nextAudit, map x | x in operations :: operations[x].Value(), streams,
        versionFacts, artifactFacts, versionIndex, activated, auditFacts, deliveries, sinkLog)
    }

    constructor ()
      ensures Snapshot() == EMPTY_STATE && Separate() && operations == map[]
    {
      nextVersion, nextArtifact, nextDebt, nextAudit := 0, 0, 0, 0;
      operations, streams, versionFacts, artifactFacts, versionIndex := map[], map[], map[], map[], map[];
      activated, auditFacts, deliveries, sinkLog := map[], [], map[], [];
    }

    /** No record is replaced, and a record filed since then is a new object. */
    twostate predicate KeepsRecords()
      reads this
    {
      && (forall x | x in old(operations) :: x in operations && operations[x] == old(operations[x]))
      && (forall x | x in operations && x !in old(operations) :: fresh(operations[x]))
    }

    /** Working on one record replaces one operation of the snapshot. */
    twostate lemma OneRecordChanged(scope: OperationScope)
      requires old(Separate()) && scope in operations && operations == old(operations)
      requires forall x | x in operations && x != scope :: unchanged(operations[x])
      ensures Snapshot().operations == old(Snapshot()).operations[scope := operations[scope].Value()]
      ensures operations[scope].Value() == old(operations[scope].Value()) ==> Snapshot().operations == old(Snapshot()).operations
    {
    }

    /** What a flow did around its record is its effect on the snapshot. */
    twostate lemma Surrounds(work: Work)
      requires old(Separate()) && work.scope in operations && operations == old(operations)
      requires forall x | x in operations && x != work.scope :: unchanged(operations[x])
      requires nextVersion == old(nextVersion) && nextArtifact == old(nextArtifact)
      requires versionFacts == old(versionFacts) && artifactFacts == old(artifactFacts) && versionIndex == old(versionIndex)
      requires auditFacts == old(auditFacts) && deliveries == old(deliveries) && sinkLog == old(sinkLog)
      requires nextDebt == old(nextDebt) + Minted(work.done, work.effect.MintDebt?)
      requires nextAudit == old(nextAudit) + Minted(work.done, work.effect.MintAudit?)
      requires work.done && work.effect.Commit? ==> activated == old(activated)[work.effect.version.version := work.effect.version]
      requires work.done && work.effect.Commit? ==>
        streams == old(streams)[TaskOf(work.scope) := Stream(work.effect.version.streamRevision, work.effect.version.version)]
      requires !(work.done && work.effect.Commit?) ==> activated == old(activated) && streams == old(streams)
      requires work.done || operations[work.scope].Value() == old(operations[work.scope].Value())
      ensures Snapshot() == if work.done then Affected(old(Snapshot()), work.scope, operations[work.scope].Value(), work.effect) else old(Snapshot())
    {
      OneRecordChanged(work.scope);
    }

    method AddRecord(scope: OperationScope, record: OperationRecord)
      requires Separate() && scope !in operations && record !in operations.Values
      modifies this`operations
      ensures Separate() && operations == old(operations)[scope := record]
      ensures Snapshot() == old(Snapshot()).(operations := old(Snapshot()).operations[scope := record.Value()])
    {
      ghost var s := Snapshot();
      operations := operations[scope := record];
      assert Snapshot().operations == s.operations[scope := record.Value()];
    }

    method AddFacts(scope: OperationScope, version: ArtifactVersionID, stream: Stream)
      modifies this`streams, this`versionFacts, this`versionIndex
      ensures Snapshot() == old(Snapshot()).(
        streams := old(streams)[TaskOf(scope) := stream], versionFacts := old(versionFacts)[version := TaskOf(scope)],
        versionIndex := old(versionIndex)[version := scope])
    {
      ghost var s := Snapshot();
      streams := streams[TaskOf(scope) := stream];
      versionFacts := versionFacts[version := TaskOf(scope)];
      versionIndex := versionIndex[version := scope];
      assert Snapshot().operations == s.operations;
    }

    /** File a new record under a new scope, with its stream and version facts. */
    method File(scope: OperationScope, record: OperationRecord, stream: Stream)
      requires Separate() && scope !in operations && record !in operations.Values
      requires stream == if TaskOf(scope) in streams then streams[TaskOf(scope)] else Stream(0, NO_VERSION)
      modifies this`operations, this`streams, this`versionFacts, this`versionIndex
      ensures Separate() && operations == old(operations)[scope := record]
      ensures Snapshot() == Persisted(old(Snapshot()), scope, record.Value())
    {
      AddRecord(scope, record);
      AddFacts(scope, record.candidate.version, stream);
    }

    /** Minting identities touches nothing else. */
    twostate lemma Burned()
      requires operations == old(operations) && (forall x | x in operations :: unchanged(operations[x]))
      requires nextDebt == old(nextDebt) && nextAudit == old(nextAudit) && streams == old(streams)
      requires versionFacts == old(versionFacts) && versionIndex == old(versionIndex) && activated == old(activated)
      requires auditFacts == old(auditFacts) && deliveries == old(deliveries) && sinkLog == old(sinkLog)
      ensures Snapshot() == old(Snapshot()).(nextVersion := nextVersion, nextArtifact := nextArtifact, artifactFacts := artifactFacts)
    {
      assert Snapshot().operations == old(Snapshot()).operations;
    }
  }
}
