/** The durable records of the publication authority and the environment one
    atomic step runs in. */
module Records {
  import opened Basics
  import opened Facts

  datatype OperationState =
    | OpPrepared | OpVerified | OpActivated | OpRejected | OpCancelled | OpReconciliationRequired
  datatype VerificationState = VPending | VVerified | VFailed | VAmbiguous
  datatype ResidueDisposition =
    | NoDisposition | Pending | ReleaseRequested | Released | AlreadyAbsent | RetainedResidue | BlockedResidue | Expired
  datatype ErrorCategory = NoCategory | Unavailable | AuthorizationDenied | IntegrityCategory | Stale
  datatype DebtStatus = NoDebt | DebtOpen | DebtClaimed | DebtRetryScheduled | DebtBlocked | DebtResolved
  datatype RetryDisposition = NoRetry | RetryReady | RetryClaimed | RetryScheduled | RetryBlocked
  datatype ResolutionReason =
    | NoReason | CleanupProven | ExactGenerationAbsent | CurrentAuthorityRetention | AdministratorException

  datatype Stream = Stream(revision: StreamRevision, head: ArtifactVersionID)

  datatype Member = Member(
    slot: SlotID, artifact: ArtifactID, kind: ArtifactKind, logicalName: string,
    media: MediaType, size: nat, contentDigest: Digest)

  datatype Candidate = Candidate(
    version: ArtifactVersionID, schema: nat, kind: PublicationKind, parent: ArtifactVersionID,
    contract: string, phaseRun: string, members: seq<Member>, staging: seq<Staging>,
    runtimeRefs: seq<RuntimeRef>, validationRef: EvidenceRef, commitRef: EvidenceRef,
    capabilityRefs: seq<CapabilityRef>, channels: seq<ChannelKind>,
    manifestDigest: Digest, lineageDigest: Digest)

  datatype PublicationEvidence = PublicationEvidence(
    operation: OperationID, requestDigest: Digest, domain: PolicyDomainID, task: TaskID, phaseRun: string,
    version: ArtifactVersionID, manifestDigest: Digest, lineageDigest: Digest, kind: PublicationKind,
    parent: ArtifactVersionID, streamRevision: StreamRevision, currentHead: ArtifactVersionID,
    activityGeneration: Generation, generation: Generation, fence: Fence, safetyEpoch: SafetyEpoch,
    occurredAt: Instant)

  datatype ActivatedVersion = ActivatedVersion(
    version: ArtifactVersionID, schema: nat, domain: PolicyDomainID, task: TaskID, kind: PublicationKind,
    parent: ArtifactVersionID, contract: string, phaseRun: string, operation: OperationID,
    streamRevision: StreamRevision, manifestDigest: Digest, lineageDigest: Digest,
    members: seq<Member>, evidence: PublicationEvidence, occurredAt: Instant)

  datatype AcceptedEvidence = AcceptedEvidence(kind: AcceptedKind, id: EvidenceID, digest: Digest)
  datatype AcceptedKind = AcceptedRuntime | AcceptedValidation | AcceptedCommit | AcceptedCapability
  datatype Verification = Verification(
    state: VerificationState, accepted: seq<AcceptedEvidence>, failure: Option<EvidenceFailure>,
    pendingSlots: seq<SlotID>)

  datatype Residue = Residue(
    operation: OperationID, domain: PolicyDomainID, task: TaskID, owner: AuthorityKind,
    generation: Generation, fence: Fence, staging: seq<Staging>, occurredAt: Instant, expiry: Instant,
    disposition: ResidueDisposition, requiresReconciliation: bool, attempts: nat, failures: nat,
    nextRetryAt: Instant, claimGeneration: Generation, claimFence: Fence, lastError: ErrorCategory,
    receipt: Option<ReleaseReceipt>, assembly: Option<Assembly>, debtID: CleanupDebtID)

  datatype Debt = Debt(
    id: CleanupDebtID, revision: nat, domain: PolicyDomainID, task: TaskID, operation: OperationID,
    owner: AuthorityKind, reference: string, identity: Digest, resourceGeneration: nat, resourceFence: nat,
    status: DebtStatus, createdAt: Instant, eligibleAt: Instant, firstAttemptAt: Instant,
    lastAttemptAt: Instant, nextRetryAt: Instant, attempts: nat, failures: nat,
    claimGeneration: Generation, claimFence: Fence, retry: RetryDisposition, lastError: ErrorCategory,
    blockers: nat, resolvedAt: Instant, resolutionClass: ResolutionClass, resolutionReason: ResolutionReason,
    resolutionEvidence: Option<ResolutionEvidence>, resolutionAudit: AuditFactID,
    approval: string, resolutionExpiresAt: Instant)

  datatype Decision = Decision(
    operation: OperationID, requestDigest: Digest, state: OperationState, streamRevision: StreamRevision,
    version: ArtifactVersionID, manifestDigest: Digest, lineageDigest: Digest,
    verification: Option<Verification>, evidence: Option<PublicationEvidence>, replay: bool,
    integrityConflict: bool, rejectReason: RejectReason, cancelReason: CancelReason,
    reconcileMode: ReconcileMode, hasResidue: bool, residueDisposition: ResidueDisposition,
    residueExpiry: Instant, receipt: Option<ReleaseReceipt>, debtID: CleanupDebtID,
    debtStatus: DebtStatus, resolutionClass: ResolutionClass, occurredAt: Instant)

  /** What a mutation returns: a decision, an error, or both. */
  datatype Response = Response(decision: Option<Decision>, error: Option<ErrorCode>)

  datatype IntentOutcome = IntentOutcome(
    digest: Digest, state: OperationState, decision: Option<Decision>, error: Option<ErrorCode>, recordedAt: Instant)

  type Outcomes = map<IntentKind, map<Digest, IntentOutcome>>

  /** An operation enters the journal together with its candidate, so the
      candidate is not optional here. */
  datatype Operation = Operation(
    id: OperationID, requestDigest: Digest, state: OperationState, streamRevision: StreamRevision,
    generation: Generation, fence: Fence, safetyEpoch: SafetyEpoch, activityGeneration: Generation,
    occurredAt: Instant, candidate: Candidate, verification: Option<Verification>,
    evidence: Option<PublicationEvidence>, rejectReason: RejectReason, cancelReason: CancelReason,
    reconcileMode: ReconcileMode, residue: Option<Residue>, debt: Option<Debt>,
    integrityConflict: bool, outcomes: Outcomes)

  datatype AuditFact = AuditFact(
    id: AuditFactID, domain: PolicyDomainID, task: TaskID, operation: OperationID, request: RequestID,
    requestDigest: Digest, action: IntentKind, authority: Authority, state: OperationState,
    version: ArtifactVersionID, manifestDigest: Digest, lineageDigest: Digest,
    streamRevision: StreamRevision, occurredAt: Instant)

  datatype Delivery = Delivery(audit: bool, telemetry: bool, attempts: nat, degraded: bool)

  /** One acceptance of a projected fact by an external sink. */
  datatype SinkAcceptance = AuditAccepted(id: AuditFactID) | TelemetryAccepted(id: AuditFactID)

  /** Everything the authority persists, plus the sinks' own acceptance log. */
  datatype State = State(
    nextVersion: nat, nextArtifact: nat, nextDebt: nat, nextAudit: nat,
    operations: map<OperationScope, Operation>,
    streams: map<TaskScope, Stream>,
    versionFacts: map<ArtifactVersionID, TaskScope>,
    artifactFacts: map<ArtifactID, TaskScope>,
    versionIndex: map<ArtifactVersionID, OperationScope>,
    activated: map<ArtifactVersionID, ActivatedVersion>,
    auditFacts: seq<AuditFact>,
    deliveries: map<AuditFactID, Delivery>,
    sinkLog: seq<SinkAcceptance>)

  const EMPTY_STATE := State(0, 0, 0, 0, map[], map[], map[], map[], map[], map[], [], map[], [])

  // ---- Configuration and the answers of the outside world in one step ----

  /** `nameOf` is the logical-name normaliser and `retention` the residue
      retention window; a missing retention is the constant 0. */
  datatype Config = Config(
    runtimeAuthority: AuthorityID, validationAuthority: AuthorityID, c04Authority: AuthorityID,
    durableObjectAuthority: AuthorityID, orchestrationAuthority: AuthorityID, recoveryAuthority: AuthorityID,
    cleanupAuthority: AuthorityID, publicationAuthority: AuthorityID,
    retention: Instant -> Instant, nameOf: string -> Option<string>,
    hasAuditSink: bool, hasTelemetrySink: bool)

  datatype FaultPoint =
    | BeforeOperationJournal | BeforeCandidatePersistence | BeforeEvidenceAcceptance
    | BeforeVerificationResult | BeforeActivationCommit | BeforeResponse

  datatype ReleaseAnswer = NoPort | PortError(code: ErrorCode) | Unresolved | Resolved(receipt: ReleaseReceipt)

  datatype ContentScope = ContentScope(kind: ScopeKind, id: string, availability: Generation)
  datatype ScopeKey = ScopeKey(domain: PolicyDomainID, task: TaskID, version: ArtifactVersionID, kind: ScopeKind, id: string)

  /** The clock, the fault hook, the Durable Object registry and release port,
      the scope port and the two sinks: arbitrary answers, fixed for one step. */
  datatype Env = Env(
    now: Instant,
    fault: FaultPoint -> Option<ErrorCode>,
    capability: CapabilityID -> Option<CapabilityEvidence>,
    release: (seq<Staging>, SafetyEpoch) -> ReleaseAnswer,
    scope: ScopeKey -> Option<ContentScope>,
    auditAccepts: AuditFactID -> bool,
    telemetryAccepts: AuditFactID -> bool)
}
