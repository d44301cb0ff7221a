/** The publication authority as a function from a state, the answers of the
    outside world and one intent to the next state and the response. One call
    is one locked, atomic step; a run is any finite sequence of steps. */
module Machine {
  import opened Basics
  import opened Facts
  import opened Records
  import opened Evidence
  import opened ResidueRules
  import opened Manifests

  // ---- Responses ----

  function Fails(code: ErrorCode): Response { Response(None, Some(code)) }

  function DecisionOf(op: Operation, replay: bool, now: Instant): Decision {
    Decision(
      op.id, op.requestDigest, op.state, op.streamRevision, op.candidate.version,
      op.candidate.manifestDigest, op.candidate.lineageDigest, op.verification, op.evidence, replay,
      op.integrityConflict, op.rejectReason, op.cancelReason, op.reconcileMode, op.residue.Some?,
      if op.residue.Some? then op.residue.value.disposition else NoDisposition,
      if op.residue.Some? then op.residue.value.expiry else 0,
      if op.residue.Some? then op.residue.value.receipt else None,
      if op.residue.Some? then op.residue.value.debtID else 0,
      if op.debt.Some? then op.debt.value.status else NoDebt,
      if op.debt.Some? then op.debt.value.resolutionClass else NoResolution,
      now)
  }

  function Replayed(o: IntentOutcome): Response {
    Response(if o.decision.None? then None else Some(o.decision.value.(replay := true)), o.error)
  }

  // ---- Authority ----

  predicate Authorized(cfg: Config, a: Authority, kind: IntentKind) {
    match a.kind
    case ProtectedRecovery => kind == CancelKind && a.id == cfg.recoveryAuthority
    case PublicationCleanup => (kind == AssembleKind || kind == ReleaseKind || kind == ResolveKind) && a.id == cfg.cleanupAuthority
    case TaskOrchestration => a.id == cfg.orchestrationAuthority
    case OtherAuthority(_) => false
  }

  predicate ReconcileAuthorized(cfg: Config, a: Authority, mode: ReconcileMode) {
    if mode == CompleteRelease then a.kind == PublicationCleanup && a.id == cfg.cleanupAuthority
    else Authorized(cfg, a, ReconcileKind)
  }

  predicate Terminal(state: OperationState) { state == OpActivated || state == OpRejected || state == OpCancelled }

  // ---- Steps of an existing operation ----

  /** What a continuing step adds to the state besides the operation itself. */
  datatype Effect = NoEffect | Commit(version: ActivatedVersion) | MintDebt | MintAudit

  /** Unchanged leaves the whole state alone; Changed replaces the operation and
      always retains one audit fact. */
  datatype OpResult =
    | Unchanged(response: Response)
    | Changed(op: Operation, effect: Effect, response: Response)

  /** What a continuing step may read beyond the operation. */
  datatype View = View(stream: Stream, parentActivated: bool, debtID: CleanupDebtID, auditID: AuditFactID)

  function Journal(outcomes: Outcomes, kind: IntentKind, digest: Digest, o: IntentOutcome): Outcomes {
    outcomes[kind := (if kind in outcomes then outcomes[kind] else map[])[digest := o]]
  }

  function Recorded(op: Operation, kind: IntentKind, digest: Digest, decision: Option<Decision>, error: Option<ErrorCode>, now: Instant): Operation {
    op.(outcomes := Journal(op.outcomes, kind, digest, IntentOutcome(digest, op.state, decision, error, now)))
  }

  /** Record the outcome, audit it, then risk losing the response. */
  function Settle(env: Env, op: Operation, kind: IntentKind, digest: Digest, error: Option<ErrorCode>, effect: Effect): OpResult {
    var decision := Some(DecisionOf(op, false, env.now));
    Changed(
      Recorded(op, kind, digest, decision, error, env.now), effect,
      if env.fault(BeforeResponse).Some? then Fails(env.fault(BeforeResponse).value) else Response(decision, error))
  }

  /** What a flow decides before anything is journaled: refuse, or go ahead with
      the changed operation, the error to report with it and the effect around it. */
  datatype Decided = Refuse(response: Response) | Proceed(op: Operation, error: Option<ErrorCode>, effect: Effect)

  function Finish(env: Env, kind: IntentKind, digest: Digest, d: Decided): OpResult {
    match d
    case Refuse(response) => Unchanged(response)
    case Proceed(op, error, effect) => Settle(env, op, kind, digest, error, effect)
  }

  function VerifyDecision(cfg: Config, env: Env, op: Operation, h: Header, v: VerifyPayload): Decided
    requires op.candidate.runtimeRefs != []
  {
    if env.fault(BeforeEvidenceAcceptance).Some? then Refuse(Fails(env.fault(BeforeEvidenceAcceptance).value))
    else if !Authorized(cfg, h.authority, VerifyKind) then Refuse(Fails(OwnershipDenied))
    else if h.generation != op.generation || h.fence != op.fence then Refuse(Fails(StaleAuthority))
    else if Terminal(op.state) || op.state == OpVerified then Refuse(Fails(TerminalConflict))
    else if env.fault(BeforeVerificationResult).Some? then Refuse(Fails(env.fault(BeforeVerificationResult).value))
    else Judgement(op, Evaluate(RegistryOf(cfg), env.capability, op.candidate, h, v))
  }

  function Judgement(op: Operation, verdict: Verdict): Decided {
    match verdict
    case Ambiguous(accepted) =>
      Proceed(op.(verification := Some(Verification(VAmbiguous, accepted, None, [])), state := OpReconciliationRequired), None, NoEffect)
    case Failing(failure) =>
      Proceed(op.(verification := Some(Verification(VFailed, [], Some(failure), [])), state := OpPrepared),
              Some(FailureErrorCode(failure.kind)), NoEffect)
    case Accepting(accepted) =>
      Proceed(op.(verification := Some(Verification(VVerified, accepted, None, [])), state := OpVerified), None, NoEffect)
  }

  function Judged(env: Env, op: Operation, digest: Digest, verdict: Verdict): OpResult {
    Finish(env, VerifyKind, digest, Judgement(op, verdict))
  }

  function VerifyOp(cfg: Config, env: Env, op: Operation, h: Header, v: VerifyPayload, digest: Digest): OpResult
    requires op.candidate.runtimeRefs != []
  {
    Finish(env, VerifyKind, digest, VerifyDecision(cfg, env, op, h, v))
  }

  /** The guards of activation, in order; None means the commit goes ahead. */
  function ActivationRefusal(cfg: Config, view: View, op: Operation, h: Header): Option<ErrorCode> {
    if !Authorized(cfg, h.authority, ActivateKind) then Some(OwnershipDenied)
    else if h.generation != op.generation || h.fence != op.fence then Some(StaleAuthority)
    else if Terminal(op.state) || op.state == OpReconciliationRequired then Some(TerminalConflict)
    else if op.state == OpPrepared then Some(InvalidIntent)
    else if h.expectedRevision != view.stream.revision || h.expectedHead != view.stream.head then Some(StaleAuthority)
    else if op.candidate.kind == FirstGeneration && (op.candidate.parent != NO_VERSION || h.expectedHead != NO_VERSION)
    then Some(StaleAuthority)
    else if op.candidate.kind == ManualEdit
            && (op.candidate.parent == NO_VERSION || op.candidate.parent != view.stream.head || !view.parentActivated)
    then Some(StaleAuthority)
    else None
  }

  function EvidenceOf(op: Operation, h: Header, revision: StreamRevision, now: Instant): PublicationEvidence {
    var c := op.candidate;
    PublicationEvidence(
      op.id, op.requestDigest, h.domain, h.task, c.phaseRun, c.version, c.manifestDigest, c.lineageDigest,
      c.kind, c.parent, revision, c.version, h.activityGeneration, h.generation, h.fence, h.safetyEpoch, now)
  }

  function VersionOf(op: Operation, h: Header, revision: StreamRevision, now: Instant): ActivatedVersion {
    var c := op.candidate;
    ActivatedVersion(
      c.version, c.schema, h.domain, h.task, c.kind, c.parent, c.contract, c.phaseRun, h.operation, revision,
      c.manifestDigest, c.lineageDigest, c.members, EvidenceOf(op, h, revision, now), now)
  }

  function ActivateDecision(cfg: Config, env: Env, view: View, op: Operation, h: Header): Decided {
    var refusal := ActivationRefusal(cfg, view, op, h);
    if refusal.Some? then Refuse(Fails(refusal.value))
    else if env.fault(BeforeActivationCommit).Some? then Refuse(Fails(env.fault(BeforeActivationCommit).value))
    else
      var revision := view.stream.revision + 1;
      Proceed(Committed(env, op, h, revision), None, Commit(VersionOf(op, h, revision, env.now)))
  }

  function ActivateOp(cfg: Config, env: Env, view: View, op: Operation, h: Header, digest: Digest): OpResult {
    Finish(env, ActivateKind, digest, ActivateDecision(cfg, env, view, op, h))
  }

  function Committed(env: Env, op: Operation, h: Header, revision: StreamRevision): Operation {
    op.(streamRevision := revision, evidence := Some(EvidenceOf(op, h, revision, env.now)), state := OpActivated)
  }

  function NewResidue(cfg: Config, env: Env, op: Operation, h: Header): Residue {
    Residue(
      op.id, h.domain, h.task, h.authority.kind, op.generation, op.fence, op.candidate.staging, env.now,
      cfg.retention(env.now), Pending, false, 0, 0, 0, op.generation, op.fence, NoCategory, None, None, 0)
  }

  function RejectDecision(cfg: Config, env: Env, op: Operation, h: Header, reason: RejectReason): Decided {
    if !Authorized(cfg, h.authority, RejectKind) then Refuse(Fails(OwnershipDenied))
    else if Terminal(op.state) then Refuse(Fails(TerminalConflict))
    else if h.generation != op.generation || h.fence != op.fence then Refuse(Fails(StaleAuthority))
    else Proceed(op.(rejectReason := reason, state := OpRejected, residue := Some(NewResidue(cfg, env, op, h))), None, NoEffect)
  }

  function RejectOp(cfg: Config, env: Env, op: Operation, h: Header, reason: RejectReason, digest: Digest): OpResult {
    Finish(env, RejectKind, digest, RejectDecision(cfg, env, op, h, reason))
  }

  function CancelDecision(cfg: Config, env: Env, op: Operation, h: Header, reason: CancelReason): Decided {
    if !Authorized(cfg, h.authority, CancelKind) then Refuse(Fails(OwnershipDenied))
    else if h.authority.kind == ProtectedRecovery && reason != RecoveryCancel then Refuse(Fails(InvalidIntent))
    else if h.authority.kind == TaskOrchestration && reason != OrchestrationCancel then Refuse(Fails(InvalidIntent))
    else if op.state == OpRejected || op.state == OpCancelled then Refuse(Fails(TerminalConflict))
    else if op.state == OpActivated then Refuse(Response(Some(DecisionOf(op, true, env.now)), None))
    else if h.generation != op.generation || h.fence != op.fence then Refuse(Fails(StaleAuthority))
    else Proceed(op.(cancelReason := reason, state := OpCancelled, residue := Some(NewResidue(cfg, env, op, h))), None, NoEffect)
  }

  function CancelOp(cfg: Config, env: Env, op: Operation, h: Header, reason: CancelReason, digest: Digest): OpResult {
    Finish(env, CancelKind, digest, CancelDecision(cfg, env, op, h, reason))
  }

  // ---- Residue release ----

  datatype ReleaseResult = ReleaseResult(op: Operation, response: Response)

  /** The release attempt shared by the release intent and reconcile complete_release. */
  function RunRelease(cfg: Config, env: Env, op: Operation, h: Header): ReleaseResult {
    if op.residue.None? then ReleaseResult(op, Fails(InvalidIntent))
    else if op.state != OpRejected && op.state != OpCancelled then ReleaseResult(op, Fails(TerminalConflict))
    else if h.generation != op.generation || h.fence != op.fence then ReleaseResult(op, Fails(StaleAuthority))
    else if ClosedByEvidence(op.residue.value.disposition)
    then ReleaseResult(op, Response(Some(DecisionOf(op, true, env.now)), None))
    else if op.debt.Some? && !DebtMatches(op.debt.value, op.residue.value)
    then ReleaseResult(op.(residue := Some(MarkExpired(op.residue.value, env.now))), Fails(IntegrityFailure))
    else Attempted(cfg, env, Claimed(op), h)
  }

  predicate DebtMatches(d: Debt, r: Residue) {
    && r.assembly.Some? && d.identity == r.assembly.value.identity
    && d.resourceGeneration == r.assembly.value.generation && d.resourceFence == r.assembly.value.fence
  }

  function MarkExpired(r: Residue, now: Instant): Residue {
    if r.expiry != 0 && now > r.expiry then r.(disposition := Expired) else r
  }

  /** An open debt is claimed for the attempt and the residue is release-requested. */
  function Claimed(op: Operation): Operation
    requires op.residue.Some?
  {
    op.(residue := Some(op.residue.value.(disposition := ReleaseRequested)),
        debt := if op.debt.None? then None else Some(ClaimedDebt(op, op.debt.value)))
  }

  function ClaimedDebt(op: Operation, d: Debt): Debt {
    if d.status == DebtOpen || d.status == DebtRetryScheduled
    then d.(status := DebtClaimed, retry := RetryClaimed, claimGeneration := op.generation,
            claimFence := op.fence, revision := d.revision + 1)
    else d
  }

  function WithAttempt(op: Operation, category: ErrorCategory, now: Instant): Operation
    requires op.residue.Some?
  {
    op.(residue := Some(ResidueAttempt(op.residue.value, category, now)),
        debt := if op.debt.None? then None else Some(DebtAttempt(op.debt.value, category, now)))
  }

  function Attempted(cfg: Config, env: Env, op: Operation, h: Header): ReleaseResult
    requires op.residue.Some?
  {
    match env.release(op.residue.value.staging, h.safetyEpoch)
    case NoPort =>
      var op1 := WithAttempt(op.(residue := Some(op.residue.value.(requiresReconciliation := true))), Unavailable, env.now);
      ReleaseResult(op1, Response(Some(DecisionOf(op1, false, env.now)), Some(ReconciliationNeeded)))
    case PortError(code) =>
      var op1 := WithAttempt(op, ReleaseErrorCategory(code), env.now);
      ReleaseResult(op1, Response(Some(DecisionOf(op1, false, env.now)), Some(code)))
    case Unresolved =>
      var op1 := WithAttempt(op.(residue := Some(op.residue.value.(requiresReconciliation := true))), Unavailable, env.now);
      ReleaseResult(op1, RiskResponse(env, Response(Some(DecisionOf(op1, false, env.now)), Some(ReconciliationNeeded))))
    case Resolved(receipt) =>
      if !ValidReceipt(receipt, cfg.durableObjectAuthority) then ReleaseResult(op, Fails(IntegrityConflict))
      else
        var op1 := WithReceipt(op, receipt, env.now);
        ReleaseResult(op1, RiskResponse(env, Response(Some(DecisionOf(op1, false, env.now)), None)))
  }

  function RiskResponse(env: Env, response: Response): Response {
    if env.fault(BeforeResponse).Some? then Fails(env.fault(BeforeResponse).value) else response
  }

  function WithReceipt(op: Operation, receipt: ReleaseReceipt, now: Instant): Operation
    requires op.residue.Some?
  {
    var disposition := ApplyReceipt(receipt.outcome);
    var closed := ClosedByEvidence(disposition);
    var r := op.residue.value.(
      receipt := Some(receipt), disposition := disposition,
      requiresReconciliation := !closed && receipt.outcome == OutcomeAmbiguous);
    var op1 := WithAttempt(op.(residue := Some(r)), if closed then NoCategory else Unavailable, now);
    op1.(debt := if op1.debt.None? then None else Some(BlockedDebt(op1.debt.value, receipt, closed)))
  }

  /** A blocked receipt overwrites the debt status whatever it was. */
  function BlockedDebt(d: Debt, receipt: ReleaseReceipt, closed: bool): Debt {
    if closed then d.(blockers := 0)
    else if receipt.outcome == OutcomeBlocked
    then d.(blockers := receipt.blockers, status := DebtBlocked, retry := RetryBlocked, nextRetryAt := 0)
    else d.(blockers := receipt.blockers)
  }

  /** Every authorized release submission is audited, whatever became of it. */
  function ReleaseOp(cfg: Config, env: Env, op: Operation, h: Header): OpResult {
    if !Authorized(cfg, h.authority, ReleaseKind) then Unchanged(Fails(OwnershipDenied))
    else
      var r := RunRelease(cfg, env, op, h);
      Changed(r.op, NoEffect, r.response)
  }

  // ---- Assembly obligations and debt resolution ----

  function NewDebt(env: Env, op: Operation, h: Header, a: Assembly, id: CleanupDebtID): Debt {
    Debt(
      id, 1, h.domain, h.task, h.operation, h.authority.kind, a.reference, a.identity, a.generation, a.fence,
      DebtOpen, env.now, env.now, 0, 0, 0, 0, 0, op.generation, op.fence, RetryReady, NoCategory, 0, 0,
      NoResolution, NoReason, None, 0, "", 0)
  }

  function AssembleDecision(cfg: Config, env: Env, view: View, op: Operation, h: Header, a: Assembly): Decided {
    if !Authorized(cfg, h.authority, AssembleKind) then Refuse(Fails(OwnershipDenied))
    else if op.residue.None? then Refuse(Fails(InvalidIntent))
    else if op.state != OpRejected && op.state != OpCancelled then Refuse(Fails(TerminalConflict))
    else if h.generation != op.generation || h.fence != op.fence then Refuse(Fails(StaleAuthority))
    else if op.debt.Some? then
      if op.debt.value.reference == a.reference && op.debt.value.identity == a.identity
      then Refuse(Response(Some(DecisionOf(op, true, env.now)), None))
      else Refuse(Fails(IntegrityConflict))
    else
      Proceed(op.(residue := Some(op.residue.value.(assembly := Some(a), debtID := view.debtID)),
                  debt := Some(NewDebt(env, op, h, a, view.debtID))), None, MintDebt)
  }

  function AssembleOp(cfg: Config, env: Env, view: View, op: Operation, h: Header, a: Assembly, digest: Digest): OpResult {
    Finish(env, AssembleKind, digest, AssembleDecision(cfg, env, view, op, h, a))
  }

  function ResolveDecision(
    cfg: Config, env: Env, view: View, op: Operation, h: Header, class_: ResolutionClass,
    evidence: Option<ResolutionEvidence>, approval: string, expiresAt: Instant): Decided
  {
    if !Authorized(cfg, h.authority, ResolveKind) then Refuse(Fails(OwnershipDenied))
    else if op.debt.None? then Refuse(Fails(NotFound))
    else
      var d := op.debt.value;
      if d.status == DebtResolved then Refuse(Fails(TerminalConflict))
      else if h.generation != op.generation || h.fence != op.fence then Refuse(Fails(StaleAuthority))
      else if d.claimGeneration != 0 && (h.generation != d.claimGeneration || h.fence != d.claimFence)
      then Refuse(Fails(StaleAuthority))
      else
        match class_
        case Reclaimed | ResourceAlreadyAbsent | RetainedByAuthority =>
          if evidence.None? || !ValidResolutionEvidence(evidence.value, cfg.durableObjectAuthority, d)
          then Refuse(Fails(IntegrityFailure))
          else
            Proceed(op.(debt := Some(Closed(d, env.now, view.auditID).(
                          resolutionClass := class_, resolutionReason := ReasonFor(class_), resolutionEvidence := evidence))),
                    None, MintAudit)
        case AcceptedException =>
          Proceed(op.(debt := Some(Closed(d, env.now, view.auditID).(
                        resolutionClass := AcceptedException, resolutionReason := AdministratorException,
                        approval := approval, resolutionExpiresAt := expiresAt))),
                  None, MintAudit)
        case _ => Refuse(Fails(InvalidIntent))
  }

  function ResolveOp(
    cfg: Config, env: Env, view: View, op: Operation, h: Header, class_: ResolutionClass,
    evidence: Option<ResolutionEvidence>, approval: string, expiresAt: Instant, digest: Digest): OpResult
  {
    Finish(env, ResolveKind, digest, ResolveDecision(cfg, env, view, op, h, class_, evidence, approval, expiresAt))
  }

  function Closed(d: Debt, now: Instant, auditID: AuditFactID): Debt {
    d.(resolvedAt := now, status := DebtResolved, retry := NoRetry, blockers := 0,
       resolutionAudit := auditID, revision := d.revision + 1)
  }

  // ---- Reconcile ----

  /** What a reconcile decides: decline, or answer with the operation it leaves.
      Answers are journaled without a response fault point. */
  datatype Reconciled = Declined(response: Response) | Answered(op: Operation, response: Response)

  function Reports(env: Env, op: Operation): Reconciled {
    Answered(op, Response(Some(DecisionOf(op, false, env.now)), None))
  }

  function ReconcileDecision(cfg: Config, env: Env, op: Operation, h: Header, mode: ReconcileMode): Reconciled {
    if !ReconcileAuthorized(cfg, h.authority, mode) then Declined(Fails(OwnershipDenied))
    else
      match mode
      case Inspect => Reports(env, op.(reconcileMode := Inspect))
      case CompleteRelease =>
        var r := RunRelease(cfg, env, op.(reconcileMode := CompleteRelease), h);
        Answered(r.op, r.response)
      case CompleteVerification => Reports(env, Rechecked(env, op).(reconcileMode := CompleteVerification))
      case ConfirmCancellation =>
        if op.state != OpCancelled then Declined(Fails(TerminalConflict))
        else Reports(env, op.(reconcileMode := ConfirmCancellation))
      case ConfirmRejection =>
        if op.state != OpRejected then Declined(Fails(TerminalConflict))
        else Reports(env, op.(reconcileMode := ConfirmRejection))
      case _ => Declined(Fails(InvalidIntent))
  }

  function ReconcileOp(cfg: Config, env: Env, op: Operation, h: Header, mode: ReconcileMode, digest: Digest): OpResult {
    match ReconcileDecision(cfg, env, op, h, mode)
    case Declined(response) => Unchanged(response)
    case Answered(op1, response) =>
      Changed(Recorded(op1, ReconcileKind, digest, response.decision, response.error, env.now), NoEffect, response)
  }

  function Rechecked(env: Env, op: Operation): Operation {
    if op.state != OpReconciliationRequired || op.verification.None? then op
    else
      var v := op.verification.value;
      match CompleteVerificationOf(env.capability, op.candidate, v)
      case NowFailed(failure) => op.(verification := Some(v.(failure := Some(failure), state := VFailed)), state := OpPrepared)
      case NowResolved => op.(verification := Some(v.(state := VVerified)), state := OpVerified)
      case StillAmbiguous => op.(verification := Some(v.(state := VAmbiguous)), state := OpReconciliationRequired)
  }

  function ContinueOp(cfg: Config, env: Env, view: View, op: Operation, intent: Intent): OpResult
    requires op.candidate.runtimeRefs != [] && !intent.payload.Prepare?
  {
    var h := intent.header;
    var digest := RequestDigest(intent);
    match intent.payload
    case Verify(v) => VerifyOp(cfg, env, op, h, v, digest)
    case Activate => ActivateOp(cfg, env, view, op, h, digest)
    case Reject(reason, _) => RejectOp(cfg, env, op, h, reason, digest)
    case Cancel(reason) => CancelOp(cfg, env, op, h, reason, digest)
    case Reconcile(mode) => ReconcileOp(cfg, env, op, h, mode, digest)
    case Assemble(a) => AssembleOp(cfg, env, view, op, h, a, digest)
    case Release => ReleaseOp(cfg, env, op, h)
    case Resolve(class_, evidence, approval, expiresAt) =>
      ResolveOp(cfg, env, view, op, h, class_, evidence, approval, expiresAt, digest)
  }

  // ---- Audit facts and their projections ----

  function FactOf(id: AuditFactID, h: Header, kind: IntentKind, op: Operation, now: Instant): AuditFact {
    AuditFact(
      id, h.domain, h.task, h.operation, h.request, h.requestDigest, kind, h.authority, op.state,
      op.candidate.version, op.candidate.manifestDigest, op.candidate.lineageDigest, op.streamRevision, now)
  }

  const UNDELIVERED := Delivery(false, false, 0, false)

  datatype Projection = Projection(deliveries: map<AuditFactID, Delivery>, sinkLog: seq<SinkAcceptance>)

  /** Best-effort delivery of one retained fact to each sink that has not accepted it yet. */
  function Deliver(cfg: Config, env: Env, p: Projection, id: AuditFactID): Projection {
    if !cfg.hasAuditSink && !cfg.hasTelemetrySink then p
    else
      var d := if id in p.deliveries then p.deliveries[id] else UNDELIVERED;
      var tryAudit := cfg.hasAuditSink && !d.audit;
      var tryTelemetry := cfg.hasTelemetrySink && !d.telemetry;
      var audited := tryAudit && env.auditAccepts(id);
      var measured := tryTelemetry && env.telemetryAccepts(id);
      Projection(
        p.deliveries[id := Delivery(
          d.audit || audited, d.telemetry || measured, d.attempts + 1,
          d.degraded || (tryAudit && !audited) || (tryTelemetry && !measured))],
        p.sinkLog + (if audited then [AuditAccepted(id)] else []) + (if measured then [TelemetryAccepted(id)] else []))
  }

  function Audited(cfg: Config, env: Env, s: State, h: Header, kind: IntentKind, op: Operation): State {
    var id := s.nextAudit + 1;
    var p := Deliver(cfg, env, Projection(s.deliveries, s.sinkLog), id);
    s.(nextAudit := id, auditFacts := s.auditFacts + [FactOf(id, h, kind, op, env.now)],
       deliveries := p.deliveries, sinkLog := p.sinkLog)
  }

  // ---- The state around one operation ----

  function StreamOf(s: State, task: TaskScope): Stream {
    if task in s.streams then s.streams[task] else Stream(0, NO_VERSION)
  }

  function ViewOf(s: State, scope: OperationScope, op: Operation): View {
    View(StreamOf(s, TaskOf(scope)), op.candidate.parent in s.activated, s.nextDebt + 1, s.nextAudit + 1)
  }

  function Affected(s: State, scope: OperationScope, op: Operation, effect: Effect): State {
    var s1 := s.(operations := s.operations[scope := op]);
    match effect
    case NoEffect => s1
    case Commit(version) =>
      s1.(activated := s.activated[version.version := version],
          streams := s.streams[TaskOf(scope) := Stream(version.streamRevision, version.version)])
    case MintDebt => s1.(nextDebt := s.nextDebt + 1)
    case MintAudit => s1.(nextAudit := s.nextAudit + 1)
  }

  function Absorb(cfg: Config, env: Env, s: State, intent: Intent, r: OpResult): State {
    match r
    case Unchanged(_) => s
    case Changed(op, effect, _) =>
      Audited(cfg, env, Affected(s, ScopeOf(intent.header), op, effect), intent.header, KindOf(intent.payload), op)
  }

  // ---- Prepare ----

  datatype Minting = Minting(members: seq<Member>, next: nat, facts: map<ArtifactID, TaskScope>)

  /** One fresh ArtifactID per spec, in the order given. */
  function MintMembers(nameOf: string -> Option<string>, task: TaskScope, specs: seq<MemberSpec>, next: nat, facts: map<ArtifactID, TaskScope>): Minting
    requires forall i | 0 <= i < |specs| :: nameOf(specs[i].logicalName).Some?
  {
    if specs == [] then Minting([], next, facts)
    else
      var front := MintMembers(nameOf, task, specs[..|specs| - 1], next, facts);
      var spec := specs[|specs| - 1];
      var id := FirstFree(front.facts.Keys, front.next);
      Minting(front.members + [Member(spec.slot, id, spec.kind, nameOf(spec.logicalName).value, spec.media, spec.size, spec.contentDigest)],
              id, front.facts[id := task])
  }

  predicate ValidBindings(p: PreparePayload) {
    && (forall i | 0 <= i < |p.members| :: BoundSpec(p, p.members[i]))
    && Distinct(p.channels)
    && (forall i | 0 <= i < |p.runtimeRefs| :: p.runtimeRefs[i].channel in p.channels)
  }

  /** The member's slot is staged with the member's digest and size and pins a capability. */
  predicate BoundSpec(p: PreparePayload, spec: MemberSpec) {
    && (exists i | 0 <= i < |p.staging| :: p.staging[i].slot == spec.slot
          && p.staging[i].contentDigest == spec.contentDigest && p.staging[i].size == spec.size)
    && (exists i | 0 <= i < |p.capabilityRefs| :: p.capabilityRefs[i].slot == spec.slot
          && p.capabilityRefs[i].id != "" && ValidDigest(p.capabilityRefs[i].digest))
  }

  function PrepareRefusal(cfg: Config, env: Env, s: State, h: Header, p: PreparePayload): Option<ErrorCode> {
    var stream := StreamOf(s, TaskScope(h.domain, h.task));
    if env.fault(BeforeOperationJournal).Some? then env.fault(BeforeOperationJournal)
    else if !Authorized(cfg, h.authority, PrepareKind) then Some(OwnershipDenied)
    else if h.expectedRevision != stream.revision || h.expectedHead != stream.head then Some(StaleAuthority)
    else if p.kind == ManualEdit && p.parent != stream.head then Some(StaleAuthority)
    else if p.kind == ManualEdit && p.parent !in s.versionFacts then Some(IntegrityFailure)
    else if !ValidBindings(p) then Some(InvalidIntent)
    else None
  }

  datatype Draft = Draft(state: State, candidate: Candidate)

  /** Mint the identities and build the candidate; the counters stay burned even
      when the candidate is never persisted. */
  function Drafted(cfg: Config, s: State, h: Header, p: PreparePayload): Draft
    requires forall i | 0 <= i < |p.members| :: cfg.nameOf(p.members[i].logicalName).Some?
  {
    var version := FirstFree(s.versionFacts.Keys, s.nextVersion);
    SpecsKeepNames(cfg.nameOf, p.members);
    var minting := MintMembers(cfg.nameOf, TaskScope(h.domain, h.task), SortedSpecs(p.members), s.nextArtifact, s.artifactFacts);
    var burned := s.(nextVersion := version, nextArtifact := minting.next, artifactFacts := minting.facts);
    Draft(burned, CandidateOf(h, p, version, minting.members))
  }

  function CandidateOf(h: Header, p: PreparePayload, version: ArtifactVersionID, minted: seq<Member>): Candidate {
    var members := Sort(minted, MemberBefore);
    var lineage := LineageDigestOf(h, p, version);
    Candidate(
      version, h.schema, p.kind, p.parent, p.contract, p.phaseRun, members, SortedStaging(p.staging),
      p.runtimeRefs, p.validationRef, p.commitRef, p.capabilityRefs, p.channels,
      ManifestDigestOf(h.schema, version, h.task, p.kind, p.parent, lineage, members), lineage)
  }

  function NewOperation(env: Env, s: State, h: Header, candidate: Candidate, digest: Digest): Operation {
    Operation(
      h.operation, digest, OpPrepared, StreamOf(s, TaskScope(h.domain, h.task)).revision, h.generation, h.fence,
      h.safetyEpoch, h.activityGeneration, env.now, candidate, None, None, NoRejectReason, NoCancelReason,
      NoReconcile, None, None, false, map[])
  }

  function Persisted(s: State, scope: OperationScope, op: Operation): State {
    var task := TaskOf(scope);
    var version := op.candidate.version;
    s.(operations := s.operations[scope := op],
       streams := s.streams[task := StreamOf(s, task)],
       versionFacts := s.versionFacts[version := task],
       versionIndex := s.versionIndex[version := scope])
  }

  datatype Step = Step(state: State, response: Response)

  /** The drafted candidate enters the journal, the indexes and the audit log together. */
  function Entered(cfg: Config, env: Env, s: State, draft: Draft, h: Header, digest: Digest): Step {
    var r := Settle(env, NewOperation(env, s, h, draft.candidate, digest), PrepareKind, digest, None, NoEffect);
    Step(Audited(cfg, env, Persisted(draft.state, ScopeOf(h), r.op), h, PrepareKind, r.op), r.response)
  }

  /** The draft is persisted, or its identities are burned. */
  function DraftStep(cfg: Config, env: Env, s: State, draft: Draft, h: Header, digest: Digest): Step {
    if env.fault(BeforeCandidatePersistence).Some?
    then Step(draft.state, Fails(env.fault(BeforeCandidatePersistence).value))
    else Entered(cfg, env, s, draft, h, digest)
  }

  function PrepareStep(cfg: Config, env: Env, s: State, intent: Intent): Step
    requires intent.payload.Prepare? && ValidIntent(cfg.nameOf, intent)
  {
    var h, p := intent.header, intent.payload.prepare;
    var refusal := PrepareRefusal(cfg, env, s, h, p);
    if refusal.Some? then Step(s, Fails(refusal.value))
    else DraftStep(cfg, env, s, Drafted(cfg, s, h, p), h, RequestDigest(intent))
  }

  // ---- The single mutation seam ----

  predicate Replayable(kind: IntentKind) { kind != ReconcileKind && kind != ReleaseKind }

  /** The checks made before the lock is taken. */
  function EntryRefusal(cfg: Config, intent: Intent): Option<ErrorCode> {
    if Major(intent.header.schema) != 1 then Some(UnsupportedSchema)
    else if !ValidIntent(cfg.nameOf, intent) then Some(InvalidIntent)
    else if intent.header.requestDigest != RequestDigest(intent) then Some(InvalidIntent)
    else None
  }

  function Flagged(s: State, scope: OperationScope): State
    requires scope in s.operations
  {
    s.(operations := s.operations[scope := s.operations[scope].(integrityConflict := true)])
  }

  /** Candidates always pin at least one runtime reference. */
  ghost predicate Pinned(s: State) {
    forall scope | scope in s.operations :: s.operations[scope].candidate.runtimeRefs != []
  }

  /** A submission against an operation on file: replay, conflict, or continue. */
  function Resubmitted(cfg: Config, env: Env, s: State, intent: Intent, op: Operation): Step
    requires op.candidate.runtimeRefs != [] && ScopeOf(intent.header) in s.operations
  {
    var kind := KindOf(intent.payload);
    if Replayable(kind) && kind in op.outcomes then
      if RequestDigest(intent) in op.outcomes[kind]
      then Step(s, Replayed(op.outcomes[kind][RequestDigest(intent)]))
      else Step(Flagged(s, ScopeOf(intent.header)), Fails(IntegrityConflict))
    else if kind == PrepareKind then Step(Flagged(s, ScopeOf(intent.header)), Fails(IntegrityConflict))
    else
      var r := ContinueOp(cfg, env, ViewOf(s, ScopeOf(intent.header), op), op, intent);
      Step(Absorb(cfg, env, s, intent, r), r.response)
  }

  function Mutate(cfg: Config, env: Env, s: State, intent: Intent): Step
    requires Pinned(s)
  {
    var refusal := EntryRefusal(cfg, intent);
    var scope := ScopeOf(intent.header);
    if refusal.Some? then Step(s, Fails(refusal.value))
    else if scope in s.operations then Resubmitted(cfg, env, s, intent, s.operations[scope])
    else if intent.payload.Prepare? then PrepareStep(cfg, env, s, intent)
    else Step(s, Fails(NotFound))
  }
}
