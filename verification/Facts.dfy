/** Identities, digests, evidence and the nine typed intents, with their
    canonical forms and payload validity rules. */
module Facts {
  import opened Basics

  // Opaque identity texts; "" is the absent identity.
  type PolicyDomainID = string
  type TaskID = string
  type OperationID = string
  type RequestID = string
  type SlotID = string
  type ContentID = string
  type CapabilityID = string
  type EvidenceID = string
  type AuthorityID = string
  type AdapterID = string

  // Identities minted by this authority, named by their counter; 0 is absent.
  type ArtifactVersionID = nat
  type ArtifactID = nat
  type CleanupDebtID = nat
  type AuditFactID = nat

  type Generation = nat
  type Fence = nat
  type SafetyEpoch = nat
  type StreamRevision = nat
  type Instant = int

  const NO_VERSION: ArtifactVersionID := 0
  const SCHEMA_V1: nat := 0x1_0000

  function Major(version: nat): nat { version / 0x1_0000 }

  datatype OperationScope = OperationScope(domain: PolicyDomainID, task: TaskID, operation: OperationID)
  datatype TaskScope = TaskScope(domain: PolicyDomainID, task: TaskID)

  function TaskOf(scope: OperationScope): TaskScope { TaskScope(scope.domain, scope.task) }

  // ---- Digests: sha256 over a canonical encoding, as a free injective constructor ----

  /** NoDigest is the empty text, Malformed any text that is not sha256:<64 hex>,
      External a well-formed digest of something outside this package. */
  datatype Digest =
    | NoDigest
    | Malformed(text: string)
    | External(text: string)
    | Sha256(canonical: Canonical)

  datatype Canonical =
    | OfRequest(header: Header, payload: Payload)
    | OfRuntime(runtime: RuntimeEvidence)
    | OfValidation(validation: ValidationEvidence)
    | OfExport(exported: ExportEvidence)
    | OfCommit(commit: CommitEvidence)
    | OfCapability(capability: CapabilityEvidence)
    | OfRuntimeRefs(runtimeRefs: seq<RuntimeRef>)
    | OfCapabilityRefs(capabilityRefs: seq<CapabilityRef>)
    | OfLineage(lineage: Lineage)
    | OfManifest(manifest: Manifest)
    | OfReceipt(receipt: ReleaseReceipt)
    | OfResolution(resolution: ResolutionEvidence)
    | OfTarget(target: ContentTarget)
    | OfC04Capability(c04: C04Capability)

  predicate ValidDigest(d: Digest) { d.External? || d.Sha256? }

  // ---- Closed vocabularies; the Other... constructors are texts outside them ----

  datatype AuthorityKind = TaskOrchestration | ProtectedRecovery | PublicationCleanup | OtherAuthority(name: string)
  datatype IntentKind =
    | PrepareKind | VerifyKind | ActivateKind | RejectKind | CancelKind
    | ReconcileKind | AssembleKind | ReleaseKind | ResolveKind
  datatype PublicationKind = FirstGeneration | ManualEdit | OtherPublication(name: string)
  datatype ArtifactKind = Deck | Preview | Plan | ValidationReport | OtherArtifact(name: string)
  datatype MediaType = PPTX | PNG | JSON | HTML | SVG | Plain | OtherMedia(name: string)
  datatype ContentPurpose = PublicationMember | OtherPurpose(name: string)
  datatype WriteIntent = ImmutableWrite | OtherWrite(name: string)
  datatype VerificationMethod = ReceiptBoundVerified | OtherMethod(name: string)
  datatype RejectReason = NoRejectReason | EvidenceFailed | CandidateSuperseded | OtherReject(name: string)
  datatype CancelReason = NoCancelReason | OrchestrationCancel | RecoveryCancel | OtherCancel(name: string)
  datatype ReconcileMode =
    | NoReconcile | Inspect | CompleteVerification | ConfirmCancellation
    | ConfirmRejection | CompleteRelease | OtherReconcile(name: string)
  datatype ReleaseOutcome =
    | OutcomeReleased | OutcomeAlreadyAbsent | OutcomeRetained | OutcomeAmbiguous | OutcomeBlocked
    | OtherOutcome(name: string)
  datatype ResolutionClass =
    | NoResolution | Reclaimed | ResourceAlreadyAbsent | RetainedByAuthority | AcceptedException
    | OtherResolution(name: string)
  datatype ErrorCode =
    | InvalidIntent | UnsupportedSchema | IntegrityConflict | IntegrityFailure | OwnershipDenied
    | StaleAuthority | TerminalConflict | EvidenceMissing | EvidenceCorrupt | DurabilityUnverified
    | ResourceExhausted | RetryableUnavailable | ReconciliationNeeded | NotFound

  type ChannelKind = string
  const CHANNEL_DECK: ChannelKind := "deck"

  predicate ValidMedia(kind: ArtifactKind, media: MediaType) {
    match kind
    case Deck => media == PPTX
    case Preview => media == PNG || media == SVG
    case Plan => media == JSON || media == Plain
    case ValidationReport => media == JSON || media == HTML || media == Plain
    case OtherArtifact(_) => false
  }

  // ---- References pinned at prepare ----

  datatype EvidenceRef = EvidenceRef(id: EvidenceID, digest: Digest)
  datatype RuntimeRef = RuntimeRef(channel: ChannelKind, id: EvidenceID, digest: Digest)
  datatype CapabilityRef = CapabilityRef(slot: SlotID, id: CapabilityID, digest: Digest)
  datatype MemberSpec = MemberSpec(
    slot: SlotID, kind: ArtifactKind, logicalName: string, media: MediaType, size: nat, contentDigest: Digest)
  datatype Staging = Staging(
    slot: SlotID, contentID: ContentID, contentDigest: Digest, size: nat,
    purpose: ContentPurpose, physicalGeneration: nat, adapter: AdapterID)
  datatype Assembly = Assembly(reference: string, identity: Digest, generation: nat, fence: nat)

  // ---- Evidence; each record carries the digest its producer claims for it ----

  datatype Producer = Producer(authority: AuthorityID, generation: Generation)
  datatype RuntimeEvidence = RuntimeEvidence(
    id: EvidenceID, digest: Digest, producer: Producer, domain: PolicyDomainID, task: TaskID,
    phaseRun: string, runtimeRun: string, runtimeOperation: string, runtimeBinding: Digest,
    channel: ChannelKind, proposal: Digest, proposalRef: string, outcome: string,
    generation: Generation, fence: Fence, safetyEpoch: SafetyEpoch)
  datatype ValidationEvidence = ValidationEvidence(
    id: EvidenceID, digest: Digest, producer: Producer, domain: PolicyDomainID, task: TaskID,
    phaseRun: string, contract: string, runtimeRefs: seq<EvidenceRef>, proposal: Digest,
    decision: string, generation: Generation, fence: Fence, safetyEpoch: SafetyEpoch)
  datatype ExportEvidence = ExportEvidence(
    id: EvidenceID, digest: Digest, publicationAuthority: AuthorityID, domain: PolicyDomainID,
    task: TaskID, workspace: string, sourceVersion: ArtifactVersionID, reconstruction: EvidenceID,
    revision: string, checkpoint: string, validation: EvidenceID, generation: Generation, fence: Fence)
  datatype CommitEvidence = CommitEvidence(
    id: EvidenceID, digest: Digest, producer: Producer, domain: PolicyDomainID, task: TaskID,
    workspace: string, revision: string, checkpoint: string, validation: EvidenceID,
    validationDigest: Digest, declaredState: Digest, contentRoot: string, durabilityRoot: string,
    operation: string, generation: Generation, fence: Fence, safetyEpoch: SafetyEpoch,
    exported: Option<ExportEvidence>)
  datatype CapabilityEvidence = CapabilityEvidence(
    id: CapabilityID, digest: Digest, producer: Producer, domain: PolicyDomainID,
    purpose: ContentPurpose, contentID: ContentID, slot: SlotID, contentDigest: Digest, size: nat,
    writeIntent: WriteIntent, physicalGeneration: nat, verificationMethod: VerificationMethod,
    adapter: AdapterID, generation: Generation, fence: Fence, safetyEpoch: SafetyEpoch)
  datatype ReleaseReceipt = ReleaseReceipt(
    id: string, digest: Digest, producer: Producer, outcome: ReleaseOutcome, blockers: nat,
    expiry: Instant, occurredAt: Instant)
  datatype ResolutionEvidence = ResolutionEvidence(
    id: EvidenceID, digest: Digest, producer: Producer, resourceIdentity: Digest,
    resourceGeneration: nat, resourceFence: nat, occurredAt: Instant)

  // The canonical digest of an evidence record covers every field but its own claimed digest.
  function RuntimeDigest(e: RuntimeEvidence): Digest { Sha256(OfRuntime(e.(digest := NoDigest))) }
  function ValidationDigest(e: ValidationEvidence): Digest { Sha256(OfValidation(e.(digest := NoDigest))) }
  function ExportDigest(e: ExportEvidence): Digest { Sha256(OfExport(e.(digest := NoDigest))) }
  function CommitDigest(e: CommitEvidence): Digest { Sha256(OfCommit(StripCommit(e))) }
  function CapabilityDigest(e: CapabilityEvidence): Digest { Sha256(OfCapability(e.(digest := NoDigest))) }
  function ReceiptDigest(r: ReleaseReceipt): Digest { Sha256(OfReceipt(r.(digest := NoDigest))) }
  function ResolutionDigest(e: ResolutionEvidence): Digest { Sha256(OfResolution(e.(digest := NoDigest))) }

  /** Commit evidence embeds only the canonical digest of its export, not the claimed one. */
  function StripCommit(e: CommitEvidence): CommitEvidence {
    e.(digest := NoDigest,
       exported := if e.exported.None? then None else Some(e.exported.value.(digest := NoDigest)))
  }

  // ---- Manifest and lineage ----

  datatype ArtifactMember = ArtifactMember(
    artifact: ArtifactID, kind: ArtifactKind, logicalName: string, media: MediaType, size: nat, contentDigest: Digest)
  datatype Manifest = Manifest(
    schema: nat, version: ArtifactVersionID, task: TaskID, kind: PublicationKind,
    parent: ArtifactVersionID, lineage: Digest, members: seq<ArtifactMember>)
  datatype Lineage = Lineage(
    schema: nat, version: ArtifactVersionID, task: TaskID, kind: PublicationKind,
    parent: ArtifactVersionID, operation: OperationID, phaseRun: string, contract: string,
    runtimeRoot: Digest, validationRef: EvidenceRef, commitRef: EvidenceRef, capabilityRoot: Digest,
    activityGeneration: Generation, generation: Generation, fence: Fence, safetyEpoch: SafetyEpoch)

  // ---- Content targets and reconstruction capabilities ----

  datatype ScopeKind = OwnerScope | ShareLinkScope | BreakGlassScope | OtherScope(name: string)
  datatype ContentIntent = Download | ShareLinkDelivery | OtherContentIntent(name: string)
  datatype Disposition = Attachment | ActiveContent
  datatype ContentTarget = ContentTarget(
    schema: nat, domain: PolicyDomainID, task: TaskID, version: ArtifactVersionID, artifact: ArtifactID,
    manifest: Digest, memberDigest: Digest, size: nat, media: MediaType, logicalName: string,
    disposition: Disposition, availability: Generation, intent: ContentIntent, scopeKind: ScopeKind,
    occurredAt: Instant, digest: Digest)
  datatype C04Capability = C04Capability(
    schema: nat, publicationAuthority: AuthorityID, domain: PolicyDomainID, task: TaskID,
    version: ArtifactVersionID, manifest: Digest, availability: Generation, expiresAt: Instant,
    occurredAt: Instant, digest: Digest)

  // ---- Intents ----

  datatype Authority = Authority(kind: AuthorityKind, id: AuthorityID, generation: Generation)
  datatype Header = Header(
    schema: nat, request: RequestID, operation: OperationID, requestDigest: Digest,
    domain: PolicyDomainID, task: TaskID, expectedRevision: StreamRevision,
    expectedHead: ArtifactVersionID, activityGeneration: Generation, generation: Generation,
    fence: Fence, safetyEpoch: SafetyEpoch, authority: Authority, occurredAt: Instant)
  datatype PreparePayload = PreparePayload(
    contract: string, kind: PublicationKind, parent: ArtifactVersionID, phaseRun: string,
    members: seq<MemberSpec>, staging: seq<Staging>, channels: seq<ChannelKind>,
    runtimeRefs: seq<RuntimeRef>, validationRef: EvidenceRef, commitRef: EvidenceRef,
    capabilityRefs: seq<CapabilityRef>)
  datatype VerifyPayload = VerifyPayload(
    runtime: seq<RuntimeEvidence>, validation: ValidationEvidence, commit: CommitEvidence,
    capabilities: seq<CapabilityEvidence>)
  datatype FailureKind =
    | RuntimeCount | DuplicateRuntime | RuntimeMissing | RuntimeMismatch | RuntimeCorrupt | RuntimeScope
    | RuntimeOutcome | RuntimeManifest | ValidationMismatch | ValidationCorrupt | ValidationScope
    | ValidationManifest | ValidationBinding | CommitMismatch | CommitCorrupt | CommitScope | CommitRoots
    | ExportMissing | ExportScope | CapabilityCount | DuplicateCapability | CapabilityMissing
    | CapabilityStaging | CapabilityMismatch | CapabilityCorrupt | CapabilityFacts | CapabilityStale
    | OtherFailure(name: string)
  datatype EvidenceFailure = EvidenceFailure(kind: FailureKind, evidence: EvidenceID, capability: CapabilityID)
  datatype Payload =
    | Prepare(prepare: PreparePayload)
    | Verify(verify: VerifyPayload)
    | Activate
    | Reject(rejectReason: RejectReason, failure: Option<EvidenceFailure>)
    | Cancel(cancelReason: CancelReason)
    | Reconcile(mode: ReconcileMode)
    | Assemble(assembly: Assembly)
    | Release
    | Resolve(class_: ResolutionClass, evidence: Option<ResolutionEvidence>, approval: string, expiresAt: Instant)
  datatype Intent = Intent(header: Header, payload: Payload)

  function KindOf(p: Payload): IntentKind {
    match p
    case Prepare(_) => PrepareKind
    case Verify(_) => VerifyKind
    case Activate => ActivateKind
    case Reject(_, _) => RejectKind
    case Cancel(_) => CancelKind
    case Reconcile(_) => ReconcileKind
    case Assemble(_) => AssembleKind
    case Release => ReleaseKind
    case Resolve(_, _, _, _) => ResolveKind
  }

  function ScopeOf(h: Header): OperationScope { OperationScope(h.domain, h.task, h.operation) }

  /** Verify commits to the canonical digests of its evidence, never to the claimed ones. */
  function CanonicalPayload(p: Payload): Payload {
    match p
    case Verify(v) => Verify(VerifyPayload(
        seq(|v.runtime|, i requires 0 <= i < |v.runtime| => v.runtime[i].(digest := NoDigest)),
        v.validation.(digest := NoDigest),
        StripCommit(v.commit),
        seq(|v.capabilities|, i requires 0 <= i < |v.capabilities| => v.capabilities[i].(digest := NoDigest))))
    case _ => p
  }

  /** The business digest of an intent: every header fact except the digest
      itself and the diagnostic time, plus the canonical payload. */
  function RequestDigest(intent: Intent): Digest {
    Sha256(OfRequest(intent.header.(requestDigest := NoDigest, occurredAt := 0), CanonicalPayload(intent.payload)))
  }

  /** A request digest fixes the operation it addresses and the kind of intent it is. */
  lemma RequestDigestBindsOperation(a: Intent, b: Intent)
    requires RequestDigest(a) == RequestDigest(b)
    ensures ScopeOf(a.header) == ScopeOf(b.header)
    ensures KindOf(a.payload) == KindOf(b.payload)
    ensures a.header == b.header.(requestDigest := a.header.requestDigest, occurredAt := a.header.occurredAt)
    ensures !a.payload.Verify? ==> a.payload == b.payload
  {
    var ha := a.header.(requestDigest := NoDigest, occurredAt := 0);
    var hb := b.header.(requestDigest := NoDigest, occurredAt := 0);
    assert RequestDigest(a).canonical == OfRequest(ha, CanonicalPayload(a.payload));
    assert RequestDigest(b).canonical == OfRequest(hb, CanonicalPayload(b.payload));
    assert ha == hb && CanonicalPayload(a.payload) == CanonicalPayload(b.payload);
  }

  // ---- Validity of an intent on its own ----

  predicate ValidHeader(h: Header) {
    && Major(h.schema) == 1 && h.request != "" && h.operation != "" && h.domain != "" && h.task != ""
    && h.activityGeneration != 0 && h.generation != 0 && h.fence != 0 && h.safetyEpoch != 0
    && h.occurredAt != 0
    && !h.authority.kind.OtherAuthority? && h.authority.id != "" && h.authority.generation != 0
  }

  /** `nameOf` is the logical-name normaliser: None for names it refuses. */
  predicate ValidPrepare(nameOf: string -> Option<string>, p: PreparePayload) {
    && !p.kind.OtherPublication? && p.contract != "" && p.phaseRun != ""
    && p.members != [] && p.staging != [] && p.channels != [] && p.runtimeRefs != [] && p.capabilityRefs != []
    && p.validationRef.id != "" && p.commitRef.id != ""
    && (p.kind == FirstGeneration ==> p.parent == NO_VERSION)
    && (p.kind == ManualEdit ==> p.parent != NO_VERSION)
    && |p.channels| == |p.runtimeRefs| && |p.members| == |p.staging| && |p.members| == |p.capabilityRefs|
    && (forall i | 0 <= i < |p.channels| :: p.channels[i] == CHANNEL_DECK)
    && (forall i | 0 <= i < |p.runtimeRefs| :: ValidRuntimeRef(p.runtimeRefs[i]))
    && ValidDigest(p.validationRef.digest) && ValidDigest(p.commitRef.digest)
    && (forall i | 0 <= i < |p.members| :: ValidMember(nameOf, p.members[i]))
    && Distinct(MemberSlots(p.members))
    && (forall i | 0 <= i < |p.staging| :: ValidStaging(p.staging[i]) && p.staging[i].slot in MemberSlots(p.members))
    && Distinct(StagingSlots(p.staging))
    && (forall slot | slot in MemberSlots(p.members) :: slot in StagingSlots(p.staging))
    && (forall i | 0 <= i < |p.capabilityRefs| ::
          ValidCapabilityRef(p.capabilityRefs[i]) && p.capabilityRefs[i].slot in MemberSlots(p.members))
    && Distinct(CapabilitySlots(p.capabilityRefs))
    && (forall slot | slot in MemberSlots(p.members) :: slot in CapabilitySlots(p.capabilityRefs))
  }

  predicate ValidRuntimeRef(r: RuntimeRef) { r.channel == CHANNEL_DECK && r.id != "" && ValidDigest(r.digest) }
  predicate ValidCapabilityRef(r: CapabilityRef) { r.slot != "" && r.id != "" && ValidDigest(r.digest) }
  predicate ValidMember(nameOf: string -> Option<string>, m: MemberSpec) {
    && m.slot != "" && ValidMedia(m.kind, m.media) && ValidDigest(m.contentDigest) && nameOf(m.logicalName).Some?
  }
  predicate ValidStaging(s: Staging) {
    && s.slot != "" && s.contentID != "" && ValidDigest(s.contentDigest)
    && s.purpose == PublicationMember && s.adapter != ""
  }

  function MemberSlots(s: seq<MemberSpec>): (r: seq<SlotID>)
    ensures |r| == |s| && forall i | 0 <= i < |s| :: r[i] == s[i].slot
  { seq(|s|, i requires 0 <= i < |s| => s[i].slot) }
  function StagingSlots(s: seq<Staging>): (r: seq<SlotID>)
    ensures |r| == |s| && forall i | 0 <= i < |s| :: r[i] == s[i].slot
  { seq(|s|, i requires 0 <= i < |s| => s[i].slot) }
  function CapabilitySlots(s: seq<CapabilityRef>): (r: seq<SlotID>)
    ensures |r| == |s| && forall i | 0 <= i < |s| :: r[i] == s[i].slot
  { seq(|s|, i requires 0 <= i < |s| => s[i].slot) }

  predicate ValidVerify(v: VerifyPayload) {
    && v.runtime != [] && v.capabilities != [] && v.validation.id != "" && v.commit.id != ""
    && (forall i | 0 <= i < |v.runtime| :: ValidRuntimeEvidence(v.runtime[i]))
    && ValidProducer(v.validation.producer) && v.validation.contract != "" && v.validation.decision != ""
    && ValidProducer(v.commit.producer) && v.commit.workspace != "" && v.commit.revision != ""
    && v.commit.checkpoint != "" && v.commit.validation != ""
    && (forall i | 0 <= i < |v.capabilities| :: ValidCapabilityEvidence(v.capabilities[i]))
  }
  predicate ValidProducer(p: Producer) { p.authority != "" && p.generation != 0 }
  predicate ValidRuntimeEvidence(e: RuntimeEvidence) {
    && e.id != "" && ValidDigest(e.digest) && ValidDigest(e.proposal) && e.outcome != ""
    && e.channel == CHANNEL_DECK && ValidProducer(e.producer)
  }
  predicate ValidCapabilityEvidence(e: CapabilityEvidence) {
    && e.id != "" && ValidDigest(e.digest) && ValidProducer(e.producer) && e.contentID != "" && e.slot != ""
    && ValidDigest(e.contentDigest) && e.purpose == PublicationMember && e.writeIntent == ImmutableWrite
    && e.verificationMethod == ReceiptBoundVerified && e.adapter != ""
  }

  predicate ValidResolve(h: Header, class_: ResolutionClass, evidence: Option<ResolutionEvidence>, approval: string, expiresAt: Instant) {
    && h.authority.kind == PublicationCleanup
    && match class_
       case Reclaimed | ResourceAlreadyAbsent | RetainedByAuthority =>
         && evidence.Some? && evidence.value.id != "" && ValidDigest(evidence.value.digest)
         && ValidProducer(evidence.value.producer) && ValidDigest(evidence.value.resourceIdentity)
         && evidence.value.resourceGeneration != 0 && evidence.value.resourceFence != 0
         && evidence.value.occurredAt != 0 && approval == "" && expiresAt == 0
       case AcceptedException =>
         evidence.None? && approval != "" && expiresAt != 0 && expiresAt > h.occurredAt
       case _ => false
  }

  predicate ValidIntent(nameOf: string -> Option<string>, intent: Intent) {
    && ValidHeader(intent.header)
    && match intent.payload
       case Prepare(p) => ValidPrepare(nameOf, p)
       case Verify(v) => ValidVerify(v)
       case Activate => true
       case Reject(reason, _) => reason == EvidenceFailed || reason == CandidateSuperseded
       case Cancel(reason) => reason == OrchestrationCancel || reason == RecoveryCancel
       case Reconcile(mode) => !mode.NoReconcile? && !mode.OtherReconcile?
       case Assemble(a) =>
         && intent.header.authority.kind == PublicationCleanup
         && a.reference != "" && ValidDigest(a.identity) && a.generation != 0 && a.fence != 0
       case Release => true
       case Resolve(class_, evidence, approval, expiresAt) =>
         ValidResolve(intent.header, class_, evidence, approval, expiresAt)
  }
}
