/** The authority itself: one method per flow, working on the store in place,
    each proved to take exactly the step of the state machine. */
module InMemory {
  import opened Basics
  import opened Facts
  import opened Records
  import opened Evidence
  import opened ResidueRules
  import opened Manifests
  import opened Machine
  import opened Invariants
  import opened Steps
  import opened Store
  import opened Matrix
  import opened Backlog
  import opened Publication
  import Validation

  lemma AffectedTwice(s: State, scope: OperationScope, op1: Operation, op2: Operation, effect: Effect)
    ensures var s1 := Affected(s, scope, op1, effect);
      s1.(operations := s1.operations[scope := op2]) == Affected(s, scope, op2, effect)
  {
  }

  /** A flow either refuses and leaves its record alone, or has changed its record
      to the operation the machine goes ahead with. */
  ghost predicate Agrees(d: Decided, op: Operation, op': Operation, error: Option<ErrorCode>, effect: Effect, refusal: Option<Response>) {
    match d
    case Refuse(response) => refusal == Some(response) && op' == op
    case Proceed(next, failure, around) => refusal == None && op' == next && error == failure && effect == around
  }

  lemma DraftedIs(cfg: Config, s: State, h: Header, p: PreparePayload, version: ArtifactVersionID, minting: Minting)
    requires ValidPrepare(cfg.nameOf, p) && version == FirstFree(s.versionFacts.Keys, s.nextVersion)
    requires forall i | 0 <= i < |SortedSpecs(p.members)| :: cfg.nameOf(SortedSpecs(p.members)[i].logicalName).Some?
    requires minting == MintMembers(cfg.nameOf, TaskScope(h.domain, h.task), SortedSpecs(p.members), s.nextArtifact, s.artifactFacts)
    ensures Drafted(cfg, s, h, p) ==
      Draft(s.(nextVersion := version, nextArtifact := minting.next, artifactFacts := minting.facts),
            CandidateOf(h, p, version, minting.members))
  {
  }

  lemma PersistedTwice(b: State, scope: OperationScope, op1: Operation, op2: Operation)
    requires op1.candidate.version == op2.candidate.version
    ensures Affected(Persisted(b, scope, op1), scope, op1, NoEffect) == Persisted(b, scope, op1)
    ensures Affected(Persisted(b, scope, op1), scope, op2, NoEffect) == Persisted(b, scope, op2)
  {
  }

  class PublicationAuthority {
    const cfg: Config
    const persistence: Persistence

    /** What is stored, as a value. */
    ghost var state: State

    /** Records are unshared, `state` is what they hold, and every operation pins
        a runtime reference: enough for one submission. */
    ghost predicate Ready()
      reads this, persistence, persistence.operations.Values
    {
      persistence.Separate() && state == persistence.Snapshot() && Pinned(state)
    }

    /** And the stored state is one the machine keeps. */
    ghost predicate Valid()
      reads this, persistence, persistence.operations.Values
    {
      Ready() && Inv(cfg, state)
    }

    constructor (config: Config)
      ensures cfg == config && fresh(persistence) && Valid()
      ensures persistence.operations == map[] && state == EMPTY_STATE
    {
      cfg := config;
      persistence := new Persistence();
      state := EMPTY_STATE;
      new;
      InitialState(config);
      InvPins(config, EMPTY_STATE);
    }

    ghost predicate Files(scope: OperationScope, record: OperationRecord)
      reads persistence
    {
      persistence.Separate() && scope in persistence.operations && persistence.operations[scope] == record
    }

    // ---- Audit and projection ----

    /** Best effort, once per sink: a sink that has accepted a fact is not asked again. */
    method DeliverProjection(env: Env, id: AuditFactID)
      modifies persistence`deliveries, persistence`sinkLog
      ensures Projection(persistence.deliveries, persistence.sinkLog)
        == Deliver(cfg, env, Projection(old(persistence.deliveries), old(persistence.sinkLog)), id)
    {
      if !cfg.hasAuditSink && !cfg.hasTelemetrySink {
        return;
      }
      var d := UNDELIVERED;
      if id in persistence.deliveries {
        d := persistence.deliveries[id];
      }
      d := d.(attempts := d.attempts + 1);
      if cfg.hasAuditSink && !d.audit {
        if env.auditAccepts(id) {
          d := d.(audit := true);
          persistence.sinkLog := persistence.sinkLog + [AuditAccepted(id)];
        } else {
          d := d.(degraded := true);
        }
      }
      if cfg.hasTelemetrySink && !d.telemetry {
        if env.telemetryAccepts(id) {
          d := d.(telemetry := true);
          persistence.sinkLog := persistence.sinkLog + [TelemetryAccepted(id)];
        } else {
          d := d.(degraded := true);
        }
      }
      persistence.deliveries := persistence.deliveries[id := d];
    }

    method RecordAudit(env: Env, h: Header, kind: IntentKind, record: OperationRecord)
      modifies persistence`nextAudit, persistence`auditFacts, persistence`deliveries, persistence`sinkLog
      ensures persistence.Snapshot() == Audited(cfg, env, old(persistence.Snapshot()), h, kind, record.Value())
    {
      persistence.nextAudit := persistence.nextAudit + 1;
      var fact := AuditFact(
        persistence.nextAudit, h.domain, h.task, h.operation, h.request, h.requestDigest, kind, h.authority, record.state,
        record.candidate.version, record.candidate.manifestDigest, record.candidate.lineageDigest, record.streamRevision, env.now);
      persistence.auditFacts := persistence.auditFacts + [fact];
      DeliverProjection(env, fact.id);
      assert persistence.Snapshot().operations == old(persistence.Snapshot()).operations;
    }

    /** Decide, journal, audit, then risk losing the response. `before` is the
        state before the flow and `effect` what it added around its record. */
    method Conclude(
      env: Env, intent: Intent, digest: Digest, error: Option<ErrorCode>, record: OperationRecord, ghost before: State, ghost effect: Effect)
      returns (response: Response)
      requires Files(ScopeOf(intent.header), record)
      requires persistence.Snapshot() == Affected(before, ScopeOf(intent.header), record.Value(), effect)
      modifies record, persistence`nextAudit, persistence`auditFacts, persistence`deliveries, persistence`sinkLog
      ensures var r := Settle(env, old(record.Value()), KindOf(intent.payload), digest, error, effect);
        response == r.response && persistence.Snapshot() == Absorb(cfg, env, before, intent, r)
    {
      var h, kind := intent.header, KindOf(intent.payload);
      var decision := record.Decide(false, env.now);
      record.RecordOutcome(kind, digest, Some(decision), error, env.now);
      persistence.OneRecordChanged(ScopeOf(h));
      AffectedTwice(before, ScopeOf(h), old(record.Value()), record.Value(), effect);
      RecordAudit(env, h, kind, record);
      if env.fault(BeforeResponse).Some? {
        return Fails(env.fault(BeforeResponse).value);
      }
      return Response(Some(decision), error);
    }

    method EnsureAuthority(a: Authority, kind: IntentKind) returns (ok: bool)
      ensures ok == Authorized(cfg, a, kind)
    {
      if a.kind == ProtectedRecovery {
        return kind == CancelKind && a.id == cfg.recoveryAuthority;
      }
      if a.kind == PublicationCleanup {
        match kind {
          case AssembleKind | ReleaseKind | ResolveKind => return a.id == cfg.cleanupAuthority;
          case _ => return false;
        }
      }
      return a.kind == TaskOrchestration && a.id == cfg.orchestrationAuthority;
    }

    // ---- Verify ----

    method Verify(env: Env, h: Header, v: VerifyPayload, record: OperationRecord)
      returns (refusal: Option<Response>, error: Option<ErrorCode>)
      requires record.candidate.runtimeRefs != []
      modifies record
      ensures Agrees(VerifyDecision(cfg, env, old(record.Value()), h, v), old(record.Value()), record.Value(), error, NoEffect, refusal)
    {
      error := None;
      if env.fault(BeforeEvidenceAcceptance).Some? {
        return Some(Fails(env.fault(BeforeEvidenceAcceptance).value)), error;
      }
      var authorized := EnsureAuthority(h.authority, VerifyKind);
      if !authorized {
        return Some(Fails(OwnershipDenied)), error;
      }
      if h.generation != record.generation || h.fence != record.fence {
        return Some(Fails(StaleAuthority)), error;
      }
      match record.state {
        case OpCancelled | OpRejected | OpActivated | OpVerified => return Some(Fails(TerminalConflict)), error;
        case _ =>
      }
      var verdict := EvaluateEvidence(RegistryOf(cfg), env.capability, record.candidate, h, v);
      if env.fault(BeforeVerificationResult).Some? {
        return Some(Fails(env.fault(BeforeVerificationResult).value)), error;
      }
      match verdict {
        case Ambiguous(accepted) =>
          record.verification := Some(Verification(VAmbiguous, accepted, None, []));
          record.state := OpReconciliationRequired;
        case Failing(failure) =>
          record.verification := Some(Verification(VFailed, [], Some(failure), []));
          record.state := OpPrepared;
          error := Some(FailureErrorCode(failure.kind));
        case Accepting(accepted) =>
          record.verification := Some(Verification(VVerified, accepted, None, []));
          record.state := OpVerified;
      }
      return None, error;
    }

    // ---- Reject and cancel ----

    method Reject(env: Env, h: Header, reason: RejectReason, record: OperationRecord) returns (refusal: Option<Response>)
      modifies record
      ensures Agrees(RejectDecision(cfg, env, old(record.Value()), h, reason), old(record.Value()), record.Value(), None, NoEffect, refusal)
    {
      var authorized := EnsureAuthority(h.authority, RejectKind);
      if !authorized {
        return Some(Fails(OwnershipDenied));
      }
      match record.state {
        case OpCancelled | OpRejected | OpActivated => return Some(Fails(TerminalConflict));
        case _ =>
      }
      if h.generation != record.generation || h.fence != record.fence {
        return Some(Fails(StaleAuthority));
      }
      record.rejectReason := reason;
      record.state := OpRejected;
      ReleaseToResidue(env, h, record);
      ghost var op := old(record.Value());
      assert record.Value() == op.(rejectReason := reason, state := OpRejected, residue := Some(NewResidue(cfg, env, op, h)));
      return None;
    }

    /** The candidate's staging becomes this operation's residue. */
    method ReleaseToResidue(env: Env, h: Header, record: OperationRecord)
      modifies record
      ensures record.Value() == old(record.Value()).(residue := Some(NewResidue(cfg, env, old(record.Value()), h)))
    {
      record.residue := Some(Residue(
        record.id, h.domain, h.task, h.authority.kind, record.generation, record.fence, record.candidate.staging, env.now,
        cfg.retention(env.now), Pending, false, 0, 0, 0, record.generation, record.fence, NoCategory, None, None, 0));
    }

    method Cancel(env: Env, h: Header, reason: CancelReason, record: OperationRecord) returns (refusal: Option<Response>)
      modifies record
      ensures Agrees(CancelDecision(cfg, env, old(record.Value()), h, reason), old(record.Value()), record.Value(), None, NoEffect, refusal)
    {
      var authorized := EnsureAuthority(h.authority, CancelKind);
      if !authorized {
        return Some(Fails(OwnershipDenied));
      }
      if h.authority.kind == ProtectedRecovery && reason != RecoveryCancel {
        return Some(Fails(InvalidIntent));
      }
      if h.authority.kind == TaskOrchestration && reason != OrchestrationCancel {
        return Some(Fails(InvalidIntent));
      }
      match record.state {
        case OpRejected | OpCancelled => return Some(Fails(TerminalConflict));
        case OpActivated =>
          // Activation came first: return the committed result, release nothing.
          var existing := record.Decide(true, env.now);
          return Some(Response(Some(existing), None));
        case _ =>
      }
      if h.generation != record.generation || h.fence != record.fence {
        return Some(Fails(StaleAuthority));
      }
      record.cancelReason := reason;
      record.state := OpCancelled;
      ReleaseToResidue(env, h, record);
      ghost var op := old(record.Value());
      assert record.Value() == op.(cancelReason := reason, state := OpCancelled, residue := Some(NewResidue(cfg, env, op, h)));
      return None;
    }

    // ---- Activate ----

    method BuildActivationEvidence(env: Env, h: Header, record: OperationRecord, revision: StreamRevision) returns (e: PublicationEvidence)
      ensures e == EvidenceOf(record.Value(), h, revision, env.now)
    {
      var c := record.candidate;
      e := PublicationEvidence(
        record.id, record.requestDigest, h.domain, h.task, c.phaseRun, c.version, c.manifestDigest, c.lineageDigest,
        c.kind, c.parent, revision, c.version, h.activityGeneration, h.generation, h.fence, h.safetyEpoch, env.now);
    }

    /** The guards of activation: authority, claim, state, and the compare-and-swap
        on the stream's revision and head. */
    method CheckActivation(h: Header, record: OperationRecord, stream: Stream, ghost view: View) returns (refusal: Option<ErrorCode>)
      requires view.stream == stream && view.parentActivated == (record.candidate.parent in persistence.activated)
      ensures refusal == ActivationRefusal(cfg, view, record.Value(), h)
    {
      var authorized := EnsureAuthority(h.authority, ActivateKind);
      if !authorized {
        return Some(OwnershipDenied);
      }
      if h.generation != record.generation || h.fence != record.fence {
        return Some(StaleAuthority);
      }
      match record.state {
        case OpCancelled | OpRejected | OpReconciliationRequired | OpActivated => return Some(TerminalConflict);
        case OpPrepared => return Some(InvalidIntent);
        case OpVerified =>
      }
      if h.expectedRevision != stream.revision || h.expectedHead != stream.head {
        return Some(StaleAuthority);
      }
      var c := record.candidate;
      if c.kind == FirstGeneration {
        if c.parent != NO_VERSION || h.expectedHead != NO_VERSION {
          return Some(StaleAuthority);
        }
      }
      if c.kind == ManualEdit {
        if c.parent == NO_VERSION || c.parent != stream.head {
          return Some(StaleAuthority);
        }
        if c.parent !in persistence.activated {
          return Some(StaleAuthority);
        }
      }
      return None;
    }

    /** The commit of the version, the stream and the operation together. */
    method Activate(env: Env, h: Header, record: OperationRecord, ghost view: View)
      returns (refusal: Option<Response>, ghost effect: Effect)
      requires view.stream == (if TaskScope(h.domain, h.task) in persistence.streams
                               then persistence.streams[TaskScope(h.domain, h.task)] else Stream(0, NO_VERSION))
      requires view.parentActivated == (record.candidate.parent in persistence.activated)
      modifies record, persistence`activated, persistence`streams
      ensures Agrees(ActivateDecision(cfg, env, view, old(record.Value()), h), old(record.Value()), record.Value(), None, effect, refusal)
      ensures refusal.Some? ==> persistence.activated == old(persistence.activated) && persistence.streams == old(persistence.streams)
      ensures refusal.None? ==> effect.Commit?
      ensures refusal.None? ==> persistence.activated == old(persistence.activated)[effect.version.version := effect.version]
      ensures refusal.None? ==> persistence.streams == old(persistence.streams)[
        TaskScope(h.domain, h.task) := Stream(effect.version.streamRevision, effect.version.version)]
    {
      effect := NoEffect;
      var task := TaskScope(h.domain, h.task);
      var stream := Stream(0, NO_VERSION);
      if task in persistence.streams {
        stream := persistence.streams[task];
      }
      var refused := CheckActivation(h, record, stream, view);
      if refused.Some? {
        return Some(Fails(refused.value)), effect;
      }
      if env.fault(BeforeActivationCommit).Some? {
        return Some(Fails(env.fault(BeforeActivationCommit).value)), effect;
      }
      var c := record.candidate;
      var revision := stream.revision + 1;
      var evidence := BuildActivationEvidence(env, h, record, revision);
      var version := ActivatedVersion(
        c.version, c.schema, h.domain, h.task, c.kind, c.parent, c.contract, c.phaseRun, h.operation, revision,
        c.manifestDigest, c.lineageDigest, c.members, evidence, env.now);
      persistence.activated := persistence.activated[c.version := version];
      persistence.streams := persistence.streams[task := Stream(revision, c.version)];
      record.streamRevision := revision;
      record.evidence := Some(evidence);
      record.state := OpActivated;
      ghost var op := old(record.Value());
      assert record.Value() == Committed(env, op, h, revision) && version == VersionOf(op, h, revision, env.now);
      return None, Commit(version);
    }

    // ---- Residue and cleanup debt ----

    method RecordResidueAssembly(env: Env, h: Header, a: Assembly, record: OperationRecord, ghost view: View)
      returns (refusal: Option<Response>)
      requires view.debtID == persistence.nextDebt + 1
      modifies record, persistence`nextDebt
      ensures Agrees(AssembleDecision(cfg, env, view, old(record.Value()), h, a), old(record.Value()), record.Value(), None, MintDebt, refusal)
      ensures persistence.nextDebt == old(persistence.nextDebt) + Minted(refusal.None?, true)
    {
      var authorized := EnsureAuthority(h.authority, AssembleKind);
      if !authorized {
        return Some(Fails(OwnershipDenied));
      }
      if record.residue.None? {
        return Some(Fails(InvalidIntent));
      }
      if record.state != OpRejected && record.state != OpCancelled {
        return Some(Fails(TerminalConflict));
      }
      if h.generation != record.generation || h.fence != record.fence {
        return Some(Fails(StaleAuthority));
      }
      if record.debt.Some? {
        // A second submission never mints a second debt.
        if record.debt.value.reference == a.reference && record.debt.value.identity == a.identity {
          var existing := record.Decide(true, env.now);
          return Some(Response(Some(existing), None));
        }
        return Some(Fails(IntegrityConflict));
      }
      persistence.nextDebt := persistence.nextDebt + 1;
      var debtID := persistence.nextDebt;
      record.residue := Some(record.residue.value.(assembly := Some(a)));
      record.residue := Some(record.residue.value.(debtID := debtID));
      record.debt := Some(Debt(
        debtID, 1, h.domain, h.task, h.operation, h.authority.kind, a.reference, a.identity, a.generation, a.fence,
        DebtOpen, env.now, env.now, 0, 0, 0, 0, 0, record.generation, record.fence, RetryReady, NoCategory, 0, 0,
        NoResolution, NoReason, None, 0, "", 0));
      ghost var op := old(record.Value());
      assert record.Value() == op.(residue := Some(op.residue.value.(assembly := Some(a), debtID := view.debtID)),
                                   debt := Some(NewDebt(env, op, h, a, view.debtID)));
      return None;
    }

    /** The guards of a debt resolution that do not depend on its class. */
    method CheckResolution(h: Header, record: OperationRecord) returns (refusal: Option<ErrorCode>)
      ensures refusal ==
        if !Authorized(cfg, h.authority, ResolveKind) then Some(OwnershipDenied)
        else if record.debt.None? then Some(NotFound)
        else if record.debt.value.status == DebtResolved then Some(TerminalConflict)
        else if h.generation != record.generation || h.fence != record.fence then Some(StaleAuthority)
        else if record.debt.value.claimGeneration != 0
                && (h.generation != record.debt.value.claimGeneration || h.fence != record.debt.value.claimFence)
        then Some(StaleAuthority)
        else None
    {
      var authorized := EnsureAuthority(h.authority, ResolveKind);
      if !authorized {
        return Some(OwnershipDenied);
      }
      if record.debt.None? {
        return Some(NotFound);
      }
      var d := record.debt.value;
      if d.status == DebtResolved {
        return Some(TerminalConflict);
      }
      if h.generation != record.generation || h.fence != record.fence {
        return Some(StaleAuthority);
      }
      if d.claimGeneration != 0 && (h.generation != d.claimGeneration || h.fence != d.claimFence) {
        return Some(StaleAuthority);
      }
      return None;
    }

    /** What the class of a resolution demands, and what it records on the debt. */
    method ClassifyResolution(d: Debt, class_: ResolutionClass, evidence: Option<ResolutionEvidence>, approval: string, expiresAt: Instant)
      returns (refusal: Option<ErrorCode>, classified: Debt)
      ensures match class_
              case Reclaimed | ResourceAlreadyAbsent | RetainedByAuthority =>
                if evidence.None? || !ValidResolutionEvidence(evidence.value, cfg.durableObjectAuthority, d)
                then refusal == Some(IntegrityFailure)
                else refusal == None
                     && classified == d.(resolutionClass := class_, resolutionReason := ReasonFor(class_), resolutionEvidence := evidence)
              case AcceptedException =>
                refusal == None
                && classified == d.(resolutionClass := AcceptedException, resolutionReason := AdministratorException,
                                    approval := approval, resolutionExpiresAt := expiresAt)
              case _ => refusal == Some(InvalidIntent)
    {
      classified := d;
      match class_ {
        case Reclaimed | ResourceAlreadyAbsent | RetainedByAuthority =>
          if evidence.None? || !ValidResolutionEvidence(evidence.value, cfg.durableObjectAuthority, d) {
            return Some(IntegrityFailure), classified;
          }
          classified := d.(resolutionClass := class_, resolutionReason := ReasonFor(class_), resolutionEvidence := evidence);
        case AcceptedException =>
          classified := d.(resolutionClass := AcceptedException, resolutionReason := AdministratorException,
                           approval := approval, resolutionExpiresAt := expiresAt);
        case _ =>
          return Some(InvalidIntent), classified;
      }
      return None, classified;
    }

    method ResolveCleanupDebt(
      env: Env, h: Header, class_: ResolutionClass, evidence: Option<ResolutionEvidence>, approval: string, expiresAt: Instant,
      record: OperationRecord, ghost view: View)
      returns (refusal: Option<Response>)
      requires view.auditID == persistence.nextAudit + 1
      modifies record, persistence`nextAudit
      ensures Agrees(ResolveDecision(cfg, env, view, old(record.Value()), h, class_, evidence, approval, expiresAt),
                     old(record.Value()), record.Value(), None, MintAudit, refusal)
      ensures persistence.nextAudit == old(persistence.nextAudit) + Minted(refusal.None?, true)
    {
      var refused := CheckResolution(h, record);
      if refused.Some? {
        return Some(Fails(refused.value));
      }
      var unfit, d := ClassifyResolution(record.debt.value, class_, evidence, approval, expiresAt);
      if unfit.Some? {
        return Some(Fails(unfit.value));
      }
      persistence.nextAudit := persistence.nextAudit + 1;
      d := d.(resolvedAt := env.now, status := DebtResolved, retry := NoRetry, blockers := 0,
              resolutionAudit := persistence.nextAudit, revision := d.revision + 1);
      record.debt := Some(d);
      assert record.Value() == old(record.Value()).(debt := Some(d));
      return None;
    }

    // ---- Release ----

    /** Verify the debt's identity and claim it for the attempt. */
    method ClaimDebt(record: OperationRecord) returns (ok: bool)
      requires record.residue.Some?
      modifies record
      ensures ok <==> old(record.debt).None? || DebtMatches(old(record.debt.value), old(record.residue.value))
      ensures record.Value() == if ok
        then old(record.Value()).(debt := if old(record.debt).None? then None else Some(ClaimedDebt(old(record.Value()), old(record.debt.value))))
        else old(record.Value())
    {
      if record.debt.None? {
        return true;
      }
      var r, d := record.residue.value, record.debt.value;
      if r.assembly.None? || d.identity != r.assembly.value.identity
         || d.resourceGeneration != r.assembly.value.generation || d.resourceFence != r.assembly.value.fence {
        return false;
      }
      if d.status == DebtOpen || d.status == DebtRetryScheduled {
        d := d.(status := DebtClaimed, retry := RetryClaimed, claimGeneration := record.generation,
                claimFence := record.fence, revision := d.revision + 1);
        record.debt := Some(d);
      }
      return true;
    }

    method RecordAttempt(category: ErrorCategory, now: Instant, record: OperationRecord)
      requires record.residue.Some?
      modifies record
      ensures record.Value() == WithAttempt(old(record.Value()), category, now)
    {
      record.RecordResidueAttempt(category, now);
      record.RecordDebtAttempt(category, now);
    }

    method ApplyReceiptTo(receipt: ReleaseReceipt, now: Instant, record: OperationRecord)
      requires record.residue.Some?
      modifies record
      ensures record.Value() == WithReceipt(old(record.Value()), receipt, now)
    {
      record.residue := Some(record.residue.value.(receipt := Some(receipt), disposition := ApplyReceipt(receipt.outcome)));
      if ClosedByEvidence(record.residue.value.disposition) {
        record.residue := Some(record.residue.value.(requiresReconciliation := false));
        RecordAttempt(NoCategory, now, record);
        if record.debt.Some? {
          record.debt := Some(record.debt.value.(blockers := 0));
        }
      } else {
        record.residue := Some(record.residue.value.(requiresReconciliation := receipt.outcome == OutcomeAmbiguous));
        RecordAttempt(Unavailable, now, record);
        if record.debt.Some? {
          record.debt := Some(record.debt.value.(blockers := receipt.blockers));
          if receipt.outcome == OutcomeBlocked {
            record.debt := Some(record.debt.value.(status := DebtBlocked, retry := RetryBlocked, nextRetryAt := 0));
          }
        }
      }
    }

    /** Ask the release port, record the attempt and apply the evidence. */
    method AttemptRelease(env: Env, h: Header, record: OperationRecord) returns (response: Response)
      requires record.residue.Some?
      modifies record
      ensures var r := Attempted(cfg, env, old(record.Value()), h); record.Value() == r.op && response == r.response
    {
      match env.release(record.residue.value.staging, h.safetyEpoch) {
        case NoPort =>
          record.residue := Some(record.residue.value.(requiresReconciliation := true));
          RecordAttempt(Unavailable, env.now, record);
          var waiting := record.Decide(false, env.now);
          return Response(Some(waiting), Some(ReconciliationNeeded));
        case PortError(code) =>
          RecordAttempt(ReleaseErrorCategory(code), env.now, record);
          var failed := record.Decide(false, env.now);
          return Response(Some(failed), Some(code));
        case Unresolved =>
          record.residue := Some(record.residue.value.(requiresReconciliation := true));
          RecordAttempt(Unavailable, env.now, record);
          if env.fault(BeforeResponse).Some? {
            return Fails(env.fault(BeforeResponse).value);
          }
          var unresolved := record.Decide(false, env.now);
          return Response(Some(unresolved), Some(ReconciliationNeeded));
        case Resolved(receipt) =>
          if !ValidReceipt(receipt, cfg.durableObjectAuthority) {
            return Fails(IntegrityConflict);
          }
          ApplyReceiptTo(receipt, env.now, record);
          if env.fault(BeforeResponse).Some? {
            return Fails(env.fault(BeforeResponse).value);
          }
          var applied := record.Decide(false, env.now);
          return Response(Some(applied), None);
      }
    }

    /** The release shared by the release intent and reconcile complete_release. */
    method RunRelease(env: Env, h: Header, record: OperationRecord) returns (response: Response)
      modifies record
      ensures var r := Machine.RunRelease(cfg, env, old(record.Value()), h); record.Value() == r.op && response == r.response
    {
      if record.residue.None? {
        return Fails(InvalidIntent);
      }
      if record.state != OpRejected && record.state != OpCancelled {
        return Fails(TerminalConflict);
      }
      if h.generation != record.generation || h.fence != record.fence {
        return Fails(StaleAuthority);
      }
      if ClosedByEvidence(record.residue.value.disposition) {
        var closed := record.Decide(true, env.now);
        return Response(Some(closed), None);
      }
      // Past its expiry a residue is only marked; the obligation continues.
      if record.residue.value.expiry != 0 && env.now > record.residue.value.expiry {
        record.residue := Some(record.residue.value.(disposition := Expired));
      }
      var matches := ClaimDebt(record);
      if !matches {
        return Fails(IntegrityFailure);
      }
      record.residue := Some(record.residue.value.(disposition := ReleaseRequested));
      assert record.Value() == Claimed(old(record.Value()));
      response := AttemptRelease(env, h, record);
    }

    // ---- Reconcile ----

    /** Re-check the pinned capabilities of an operation waiting for it. */
    method Recheck(env: Env, record: OperationRecord)
      modifies record
      ensures record.Value() == Rechecked(env, old(record.Value()))
    {
      if record.state == OpReconciliationRequired && record.verification.Some? {
        var v := record.verification.value;
        var recheck := RecheckCapabilities(env.capability, record.candidate, v);
        match recheck {
          case NowFailed(failure) =>
            record.verification := Some(v.(failure := Some(failure), state := VFailed));
            record.state := OpPrepared;
          case NowResolved =>
            record.verification := Some(v.(state := VVerified));
            record.state := OpVerified;
          case StillAmbiguous =>
            record.verification := Some(v.(state := VAmbiguous));
            record.state := OpReconciliationRequired;
        }
      }
    }

    method EnsureReconcileAuthority(a: Authority, mode: ReconcileMode) returns (ok: bool)
      ensures ok == ReconcileAuthorized(cfg, a, mode)
    {
      if mode == CompleteRelease {
        return a.kind == PublicationCleanup && a.id == cfg.cleanupAuthority;
      }
      ok := EnsureAuthority(a, ReconcileKind);
    }

    /** Inspect or continue the original operation; the answer is yet to be journaled. */
    method Reconcile(env: Env, h: Header, mode: ReconcileMode, record: OperationRecord) returns (declined: bool, response: Response)
      modifies record
      ensures match ReconcileDecision(cfg, env, old(record.Value()), h, mode)
              case Declined(r) => declined && response == r && record.Value() == old(record.Value())
              case Answered(op, r) => !declined && response == r && record.Value() == op
    {
      var authorized := EnsureReconcileAuthority(h.authority, mode);
      if !authorized {
        return true, Fails(OwnershipDenied);
      }
      match mode {
        case Inspect =>
        case CompleteRelease =>
          record.reconcileMode := CompleteRelease;
          response := RunRelease(env, h, record);
          return false, response;
        case CompleteVerification => Recheck(env, record);
        case ConfirmCancellation =>
          if record.state != OpCancelled {
            return true, Fails(TerminalConflict);
          }
        case ConfirmRejection =>
          if record.state != OpRejected {
            return true, Fails(TerminalConflict);
          }
        case _ => return true, Fails(InvalidIntent);
      }
      record.reconcileMode := mode;
      var decision := record.Decide(false, env.now);
      return false, Response(Some(decision), None);
    }

    /** Journal and audit the answer of a reconcile. */
    method ConcludeReconcile(env: Env, intent: Intent, digest: Digest, response: Response, record: OperationRecord, ghost before: State)
      requires Files(ScopeOf(intent.header), record) && KindOf(intent.payload) == ReconcileKind
      requires persistence.Snapshot() == Affected(before, ScopeOf(intent.header), record.Value(), NoEffect)
      modifies record, persistence`nextAudit, persistence`auditFacts, persistence`deliveries, persistence`sinkLog
      ensures persistence.Snapshot() == Absorb(cfg, env, before, intent,
        Changed(Recorded(old(record.Value()), ReconcileKind, digest, response.decision, response.error, env.now), NoEffect, response))
    {
      record.RecordOutcome(ReconcileKind, digest, response.decision, response.error, env.now);
      persistence.OneRecordChanged(ScopeOf(intent.header));
      AffectedTwice(before, ScopeOf(intent.header), old(record.Value()), record.Value(), NoEffect);
      RecordAudit(env, intent.header, ReconcileKind, record);
    }

    // ---- One submission against an existing operation ----

    /** Return the refusal, or journal, audit and answer what the flow decided. */
    method Settled(
      env: Env, intent: Intent, digest: Digest, refusal: Option<Response>, error: Option<ErrorCode>, record: OperationRecord,
      ghost before: State, ghost op: Operation, ghost effect: Effect, ghost d: Decided)
      returns (response: Response)
      requires Files(ScopeOf(intent.header), record) && Agrees(d, op, record.Value(), error, effect, refusal)
      requires refusal.Some? ==> persistence.Snapshot() == before
      requires refusal.None? ==> persistence.Snapshot() == Affected(before, ScopeOf(intent.header), record.Value(), effect)
      modifies record, persistence`nextAudit, persistence`auditFacts, persistence`deliveries, persistence`sinkLog
      ensures var r := Finish(env, KindOf(intent.payload), digest, d);
        response == r.response && persistence.Snapshot() == Absorb(cfg, env, before, intent, r)
    {
      if refusal.Some? {
        return refusal.value;
      }
      response := Conclude(env, intent, digest, error, record, before, effect);
    }

    method ContinueVerify(env: Env, intent: Intent, digest: Digest, record: OperationRecord) returns (response: Response)
      requires Files(ScopeOf(intent.header), record) && intent.payload.Verify? && record.candidate.runtimeRefs != []
      modifies record, persistence`nextAudit, persistence`auditFacts, persistence`deliveries, persistence`sinkLog
      ensures var r := Finish(env, KindOf(intent.payload), digest, VerifyDecision(cfg, env, old(record.Value()), intent.header, intent.payload.verify));
        response == r.response && persistence.Snapshot() == Absorb(cfg, env, old(persistence.Snapshot()), intent, r)
    {
      ghost var op := record.Value();
      var refusal, error := Verify(env, intent.header, intent.payload.verify, record);
      persistence.Surrounds(Work(ScopeOf(intent.header), NoEffect, refusal.None?));
      response := Settled(env, intent, digest, refusal, error, record, old(persistence.Snapshot()), op, NoEffect,
                          VerifyDecision(cfg, env, op, intent.header, intent.payload.verify));
    }

    method ContinueReject(env: Env, intent: Intent, digest: Digest, record: OperationRecord) returns (response: Response)
      requires Files(ScopeOf(intent.header), record) && intent.payload.Reject?
      modifies record, persistence`nextAudit, persistence`auditFacts, persistence`deliveries, persistence`sinkLog
      ensures var r := Finish(env, KindOf(intent.payload), digest, RejectDecision(cfg, env, old(record.Value()), intent.header, intent.payload.rejectReason));
        response == r.response && persistence.Snapshot() == Absorb(cfg, env, old(persistence.Snapshot()), intent, r)
    {
      ghost var op := record.Value();
      var refusal := Reject(env, intent.header, intent.payload.rejectReason, record);
      persistence.Surrounds(Work(ScopeOf(intent.header), NoEffect, refusal.None?));
      response := Settled(env, intent, digest, refusal, None, record, old(persistence.Snapshot()), op, NoEffect,
                          RejectDecision(cfg, env, op, intent.header, intent.payload.rejectReason));
    }

    method ContinueCancel(env: Env, intent: Intent, digest: Digest, record: OperationRecord) returns (response: Response)
      requires Files(ScopeOf(intent.header), record) && intent.payload.Cancel?
      modifies record, persistence`nextAudit, persistence`auditFacts, persistence`deliveries, persistence`sinkLog
      ensures var r := Finish(env, KindOf(intent.payload), digest, CancelDecision(cfg, env, old(record.Value()), intent.header, intent.payload.cancelReason));
        response == r.response && persistence.Snapshot() == Absorb(cfg, env, old(persistence.Snapshot()), intent, r)
    {
      ghost var op := record.Value();
      var refusal := Cancel(env, intent.header, intent.payload.cancelReason, record);
      persistence.Surrounds(Work(ScopeOf(intent.header), NoEffect, refusal.None?));
      response := Settled(env, intent, digest, refusal, None, record, old(persistence.Snapshot()), op, NoEffect,
                          CancelDecision(cfg, env, op, intent.header, intent.payload.cancelReason));
    }

    method ContinueActivate(env: Env, intent: Intent, digest: Digest, record: OperationRecord) returns (response: Response)
      requires Files(ScopeOf(intent.header), record) && intent.payload.Activate?
      modifies record, persistence`nextAudit, persistence`auditFacts, persistence`deliveries, persistence`sinkLog,
               persistence`activated, persistence`streams
      ensures var s := old(persistence.Snapshot()); var op := old(record.Value());
        var r := Finish(env, KindOf(intent.payload), digest, ActivateDecision(cfg, env, ViewOf(s, ScopeOf(intent.header), op), op, intent.header));
        response == r.response && persistence.Snapshot() == Absorb(cfg, env, s, intent, r)
    {
      ghost var s, op := persistence.Snapshot(), record.Value();
      ghost var view := ViewOf(s, ScopeOf(intent.header), op);
      var refusal, effect := Activate(env, intent.header, record, view);
      persistence.Surrounds(Work(ScopeOf(intent.header), effect, refusal.None?));
      response := Settled(env, intent, digest, refusal, None, record, s, op, effect,
                          ActivateDecision(cfg, env, view, op, intent.header));
    }

    method ContinueAssemble(env: Env, intent: Intent, digest: Digest, record: OperationRecord) returns (response: Response)
      requires Files(ScopeOf(intent.header), record) && intent.payload.Assemble?
      modifies record, persistence`nextAudit, persistence`auditFacts, persistence`deliveries, persistence`sinkLog, persistence`nextDebt
      ensures var s := old(persistence.Snapshot()); var op := old(record.Value());
        var r := Finish(env, KindOf(intent.payload), digest, AssembleDecision(cfg, env, ViewOf(s, ScopeOf(intent.header), op), op, intent.header, intent.payload.assembly));
        response == r.response && persistence.Snapshot() == Absorb(cfg, env, s, intent, r)
    {
      ghost var s, op := persistence.Snapshot(), record.Value();
      ghost var view := ViewOf(s, ScopeOf(intent.header), op);
      var refusal := RecordResidueAssembly(env, intent.header, intent.payload.assembly, record, view);
      persistence.Surrounds(Work(ScopeOf(intent.header), MintDebt, refusal.None?));
      response := Settled(env, intent, digest, refusal, None, record, s, op, MintDebt,
                          AssembleDecision(cfg, env, view, op, intent.header, intent.payload.assembly));
    }

    method ContinueResolve(env: Env, intent: Intent, digest: Digest, record: OperationRecord) returns (response: Response)
      requires Files(ScopeOf(intent.header), record) && intent.payload.Resolve?
      modifies record, persistence`nextAudit, persistence`auditFacts, persistence`deliveries, persistence`sinkLog
      ensures var s := old(persistence.Snapshot()); var op := old(record.Value()); var p := intent.payload;
        var r := Finish(env, KindOf(intent.payload), digest, ResolveDecision(cfg, env, ViewOf(s, ScopeOf(intent.header), op), op, intent.header, p.class_, p.evidence, p.approval, p.expiresAt));
        response == r.response && persistence.Snapshot() == Absorb(cfg, env, s, intent, r)
    {
      ghost var s, op := persistence.Snapshot(), record.Value();
      ghost var view := ViewOf(s, ScopeOf(intent.header), op);
      var p := intent.payload;
      var refusal := ResolveCleanupDebt(env, intent.header, p.class_, p.evidence, p.approval, p.expiresAt, record, view);
      persistence.Surrounds(Work(ScopeOf(intent.header), MintAudit, refusal.None?));
      response := Settled(env, intent, digest, refusal, None, record, s, op, MintAudit,
                          ResolveDecision(cfg, env, view, op, intent.header, p.class_, p.evidence, p.approval, p.expiresAt));
    }

    method ContinueReconcile(env: Env, intent: Intent, digest: Digest, record: OperationRecord) returns (response: Response)
      requires Files(ScopeOf(intent.header), record) && intent.payload.Reconcile?
      modifies record, persistence`nextAudit, persistence`auditFacts, persistence`deliveries, persistence`sinkLog
      ensures var r := ReconcileOp(cfg, env, old(record.Value()), intent.header, intent.payload.mode, digest);
        response == r.response && persistence.Snapshot() == Absorb(cfg, env, old(persistence.Snapshot()), intent, r)
    {
      ghost var s := persistence.Snapshot();
      var declined;
      declined, response := Reconcile(env, intent.header, intent.payload.mode, record);
      persistence.Surrounds(Work(ScopeOf(intent.header), NoEffect, !declined));
      if !declined {
        ConcludeReconcile(env, intent, digest, response, record, s);
      }
    }

    /** Every authorized release submission is audited, whatever became of it. */
    method ContinueRelease(env: Env, intent: Intent, record: OperationRecord) returns (response: Response)
      requires Files(ScopeOf(intent.header), record) && intent.payload.Release?
      modifies record, persistence`nextAudit, persistence`auditFacts, persistence`deliveries, persistence`sinkLog
      ensures var r := ReleaseOp(cfg, env, old(record.Value()), intent.header);
        response == r.response && persistence.Snapshot() == Absorb(cfg, env, old(persistence.Snapshot()), intent, r)
    {
      var authorized := EnsureAuthority(intent.header.authority, ReleaseKind);
      if !authorized {
        return Fails(OwnershipDenied);
      }
      response := RunRelease(env, intent.header, record);
      persistence.Surrounds(Work(ScopeOf(intent.header), NoEffect, true));
      RecordAudit(env, intent.header, ReleaseKind, record);
    }

    /** The first submission of an intent against an operation on file. */
    method ContinueOperation(env: Env, intent: Intent, digest: Digest, record: OperationRecord) returns (response: Response)
      requires Files(ScopeOf(intent.header), record) && !intent.payload.Prepare? && record.candidate.runtimeRefs != []
      requires digest == RequestDigest(intent)
      modifies record, persistence`nextAudit, persistence`auditFacts, persistence`deliveries, persistence`sinkLog,
               persistence`activated, persistence`streams, persistence`nextDebt
      ensures var s := old(persistence.Snapshot()); var op := old(record.Value());
        var r := ContinueOp(cfg, env, ViewOf(s, ScopeOf(intent.header), op), op, intent);
        response == r.response && persistence.Snapshot() == Absorb(cfg, env, s, intent, r)
    {
      match intent.payload {
        case Verify(_) => response := ContinueVerify(env, intent, digest, record);
        case Activate => response := ContinueActivate(env, intent, digest, record);
        case Reject(_, _) => response := ContinueReject(env, intent, digest, record);
        case Cancel(_) => response := ContinueCancel(env, intent, digest, record);
        case Reconcile(_) => response := ContinueReconcile(env, intent, digest, record);
        case Assemble(_) => response := ContinueAssemble(env, intent, digest, record);
        case Release => response := ContinueRelease(env, intent, record);
        case Resolve(_, _, _, _) => response := ContinueResolve(env, intent, digest, record);
      }
    }

    // ---- Prepare ----

    /** The next version identity no fact names; skipped counters stay burned. */
    method MintVersionID() returns (id: ArtifactVersionID)
      modifies persistence`nextVersion
      ensures id == FirstFree(persistence.versionFacts.Keys, old(persistence.nextVersion)) && persistence.nextVersion == id
    {
      var taken := persistence.versionFacts.Keys;
      while true
        invariant FirstFree(taken, persistence.nextVersion) == FirstFree(taken, old(persistence.nextVersion))
        decreases Above(taken, persistence.nextVersion)
      {
        ghost var from := persistence.nextVersion;
        persistence.nextVersion := persistence.nextVersion + 1;
        id := persistence.nextVersion;
        if id !in persistence.versionFacts {
          return id;
        }
        assert from + 1 in Above(taken, from) && from + 1 !in Above(taken, from + 1);
      }
    }

    method MintArtifactID(task: TaskScope) returns (id: ArtifactID)
      modifies persistence`nextArtifact, persistence`artifactFacts
      ensures id == FirstFree(old(persistence.artifactFacts).Keys, old(persistence.nextArtifact))
      ensures persistence.nextArtifact == id && persistence.artifactFacts == old(persistence.artifactFacts)[id := task]
    {
      var taken := persistence.artifactFacts.Keys;
      while true
        invariant persistence.artifactFacts == old(persistence.artifactFacts)
        invariant FirstFree(taken, persistence.nextArtifact) == FirstFree(taken, old(persistence.nextArtifact))
        decreases Above(taken, persistence.nextArtifact)
      {
        ghost var from := persistence.nextArtifact;
        persistence.nextArtifact := persistence.nextArtifact + 1;
        id := persistence.nextArtifact;
        if id !in persistence.artifactFacts {
          persistence.artifactFacts := persistence.artifactFacts[id := task];
          return id;
        }
        assert from + 1 in Above(taken, from) && from + 1 !in Above(taken, from + 1);
      }
    }

    /** Mint one ArtifactID per specification, in slot order. */
    method MintAll(task: TaskScope, specs: seq<MemberSpec>) returns (members: seq<Member>)
      requires forall i | 0 <= i < |specs| :: cfg.nameOf(specs[i].logicalName).Some?
      modifies persistence`nextArtifact, persistence`artifactFacts
      ensures Minting(members, persistence.nextArtifact, persistence.artifactFacts)
        == MintMembers(cfg.nameOf, task, specs, old(persistence.nextArtifact), old(persistence.artifactFacts))
    {
      members := [];
      for i := 0 to |specs|
        invariant Minting(members, persistence.nextArtifact, persistence.artifactFacts)
          == MintMembers(cfg.nameOf, task, specs[..i], old(persistence.nextArtifact), old(persistence.artifactFacts))
      {
        assert specs[..i + 1][..i] == specs[..i];
        var spec := specs[i];
        var id := MintArtifactID(task);
        members := members + [Member(spec.slot, id, spec.kind, cfg.nameOf(spec.logicalName).value, spec.media, spec.size, spec.contentDigest)];
      }
      assert specs[..|specs|] == specs;
    }

    method CheckPrepare(env: Env, h: Header, p: PreparePayload) returns (refusal: Option<ErrorCode>)
      requires ValidPrepare(cfg.nameOf, p)
      ensures refusal == PrepareRefusal(cfg, env, persistence.Snapshot(), h, p)
    {
      if env.fault(BeforeOperationJournal).Some? {
        return env.fault(BeforeOperationJournal);
      }
      var authorized := EnsureAuthority(h.authority, PrepareKind);
      if !authorized {
        return Some(OwnershipDenied);
      }
      var stream := CurrentStream(TaskScope(h.domain, h.task));
      if h.expectedRevision != stream.revision {
        return Some(StaleAuthority);
      }
      if h.expectedHead != stream.head {
        return Some(StaleAuthority);
      }
      if p.kind == ManualEdit {
        if p.parent != stream.head {
          return Some(StaleAuthority);
        }
        if p.parent !in persistence.versionFacts {
          return Some(IntegrityFailure);
        }
      }
      var bound := Validation.CheckPrepareBindings(p);
      if !bound {
        return Some(InvalidIntent);
      }
      return None;
    }

    method CurrentStream(task: TaskScope) returns (stream: Stream)
      ensures stream == StreamOf(persistence.Snapshot(), task)
    {
      if task in persistence.streams {
        return persistence.streams[task];
      }
      return Stream(0, NO_VERSION);
    }

    method BuildCandidate(h: Header, p: PreparePayload, version: ArtifactVersionID, minted: seq<Member>) returns (candidate: Candidate)
      ensures candidate == CandidateOf(h, p, version, minted)
    {
      var members := Sort(minted, MemberBefore);
      var lineage := LineageDigestOf(h, p, version);
      var manifest := ManifestDigestOf(h.schema, version, h.task, p.kind, p.parent, lineage, members);
      candidate := Candidate(
        version, h.schema, p.kind, p.parent, p.contract, p.phaseRun, members, SortedStaging(p.staging),
        p.runtimeRefs, p.validationRef, p.commitRef, p.capabilityRefs, p.channels, manifest, lineage);
    }

    /** Mint the version and one artifact per specification; nothing else changes. */
    method MintIdentities(task: TaskScope, specs: seq<MemberSpec>) returns (version: ArtifactVersionID, minted: seq<Member>)
      requires forall i | 0 <= i < |specs| :: cfg.nameOf(specs[i].logicalName).Some?
      modifies persistence`nextVersion, persistence`nextArtifact, persistence`artifactFacts
      ensures version == FirstFree(old(persistence.versionFacts).Keys, old(persistence.nextVersion))
      ensures var m := MintMembers(cfg.nameOf, task, specs, old(persistence.nextArtifact), old(persistence.artifactFacts));
        && minted == m.members
        && persistence.Snapshot() == old(persistence.Snapshot()).(nextVersion := version, nextArtifact := m.next, artifactFacts := m.facts)
    {
      version := MintVersionID();
      minted := MintAll(task, specs);
      persistence.Burned();
    }

    /** Mint the identities in slot order and build the immutable candidate. */
    method DraftCandidate(h: Header, p: PreparePayload) returns (candidate: Candidate)
      requires ValidPrepare(cfg.nameOf, p)
      modifies persistence`nextVersion, persistence`nextArtifact, persistence`artifactFacts
      ensures Draft(persistence.Snapshot(), candidate) == Drafted(cfg, old(persistence.Snapshot()), h, p)
    {
      ghost var s := persistence.Snapshot();
      SpecsKeepNames(cfg.nameOf, p.members);
      var task, specs := TaskScope(h.domain, h.task), SortedSpecs(p.members);
      var version, minted := MintIdentities(task, specs);
      DraftedIs(cfg, s, h, p, version, MintMembers(cfg.nameOf, task, specs, s.nextArtifact, s.artifactFacts));
      candidate := BuildCandidate(h, p, version, minted);
    }

    /** File the operation, its stream, its version facts and its index entry. */
    method FileOperation(env: Env, h: Header, digest: Digest, candidate: Candidate) returns (record: OperationRecord)
      requires persistence.Separate() && ScopeOf(h) !in persistence.operations
      modifies persistence`operations, persistence`streams, persistence`versionFacts, persistence`versionIndex
      ensures fresh(record) && Files(ScopeOf(h), record) && persistence.operations == old(persistence.operations)[ScopeOf(h) := record]
      ensures var s := old(persistence.Snapshot());
        && record.Value() == NewOperation(env, s, h, candidate, digest)
        && persistence.Snapshot() == Persisted(s, ScopeOf(h), record.Value())
    {
      var stream := CurrentStream(TaskOf(ScopeOf(h)));
      record := new OperationRecord(h, digest, stream.revision, env.now, candidate);
      persistence.File(ScopeOf(h), record, stream);
    }

    /** File the operation, then journal and audit the prepare. */
    method Persist(env: Env, intent: Intent, digest: Digest, candidate: Candidate, ghost s: State) returns (response: Response)
      requires persistence.Separate() && ScopeOf(intent.header) !in persistence.operations && KindOf(intent.payload) == PrepareKind
      requires forall task :: StreamOf(s, task) == StreamOf(persistence.Snapshot(), task)
      modifies persistence
      ensures persistence.Separate() && persistence.KeepsRecords()
      ensures var step := Entered(cfg, env, s, Draft(old(persistence.Snapshot()), candidate), intent.header, digest);
        response == step.response && persistence.Snapshot() == step.state
    {
      ghost var burned := persistence.Snapshot();
      var record := FileOperation(env, intent.header, digest, candidate);
      ghost var op := record.Value();
      assert op == NewOperation(env, s, intent.header, candidate, digest);
      PersistedTwice(burned, ScopeOf(intent.header), op, Settle(env, op, PrepareKind, digest, None, NoEffect).op);
      response := Conclude(env, intent, digest, None, record, persistence.Snapshot(), NoEffect);
    }

    method Prepare(env: Env, intent: Intent, digest: Digest) returns (response: Response)
      requires persistence.Separate() && ScopeOf(intent.header) !in persistence.operations
      requires intent.payload.Prepare? && ValidIntent(cfg.nameOf, intent) && digest == RequestDigest(intent)
      modifies persistence
      ensures persistence.Separate() && persistence.KeepsRecords()
      ensures var step := PrepareStep(cfg, env, old(persistence.Snapshot()), intent);
        response == step.response && persistence.Snapshot() == step.state
    {
      var h, p := intent.header, intent.payload.prepare;
      var refusal := CheckPrepare(env, h, p);
      if refusal.Some? {
        return Fails(refusal.value);
      }
      var candidate := DraftCandidate(h, p);
      if env.fault(BeforeCandidatePersistence).Some? {
        return Fails(env.fault(BeforeCandidatePersistence).value);
      }
      response := Persist(env, intent, digest, candidate, old(persistence.Snapshot()));
    }

    // ---- The mutation seam ----

    method CheckIntent(intent: Intent) returns (ok: bool)
      ensures ok == ValidIntent(cfg.nameOf, intent)
    {
      if !ValidHeader(intent.header) {
        return false;
      }
      match intent.payload {
        case Prepare(p) => ok := Validation.CheckPreparePayload(cfg.nameOf, p);
        case _ => ok := ValidIntent(cfg.nameOf, intent);
      }
    }

    method FlagConflict(scope: OperationScope, record: OperationRecord)
      requires Files(scope, record)
      modifies record
      ensures scope in old(persistence.Snapshot()).operations && persistence.Snapshot() == Flagged(old(persistence.Snapshot()), scope)
    {
      record.integrityConflict := true;
      persistence.Surrounds(Work(scope, NoEffect, true));
    }

    /** A submission against an operation on file: replay, conflict, or continue. */
    method Resubmit(env: Env, intent: Intent, digest: Digest, record: OperationRecord) returns (response: Response)
      requires Files(ScopeOf(intent.header), record) && record.candidate.runtimeRefs != [] && digest == RequestDigest(intent)
      modifies record, persistence
      ensures persistence.Separate() && persistence.KeepsRecords()
      ensures var s := old(persistence.Snapshot()); ScopeOf(intent.header) in s.operations
      ensures var step := Resubmitted(cfg, env, old(persistence.Snapshot()), intent, old(record.Value()));
        response == step.response && persistence.Snapshot() == step.state
    {
      var kind := KindOf(intent.payload);
      // Reconcile and release always re-evaluate; everything else replays first.
      if kind != ReconcileKind && kind != ReleaseKind {
        if kind in record.outcomes && digest in record.outcomes[kind] {
          return Replayed(record.outcomes[kind][digest]);
        }
        if kind in record.outcomes || kind == PrepareKind {
          FlagConflict(ScopeOf(intent.header), record);
          return Fails(IntegrityConflict);
        }
      }
      response := ContinueOperation(env, intent, digest, record);
    }

    method Apply(env: Env, intent: Intent) returns (response: Response)
      requires persistence.Separate() && Pinned(persistence.Snapshot())
      modifies persistence, persistence.operations.Values
      ensures persistence.Separate() && persistence.KeepsRecords()
      ensures var step := Machine.Mutate(cfg, env, old(persistence.Snapshot()), intent);
        response == step.response && persistence.Snapshot() == step.state
    {
      if Major(intent.header.schema) != 1 {
        return Fails(UnsupportedSchema);
      }
      var valid := CheckIntent(intent);
      if !valid {
        return Fails(InvalidIntent);
      }
      var digest := RequestDigest(intent);
      if intent.header.requestDigest != digest {
        return Fails(InvalidIntent);
      }
      var scope := ScopeOf(intent.header);
      if scope !in persistence.operations {
        if KindOf(intent.payload) != PrepareKind {
          return Fails(NotFound);
        }
        response := Prepare(env, intent, digest);
        return;
      }
      var record := persistence.operations[scope];
      assert persistence.Snapshot().operations[scope] == record.Value();
      response := Resubmit(env, intent, digest, record);
    }

    /** One submission to a store that is ready for it. */
    method Submit(env: Env, intent: Intent) returns (response: Response)
      requires Ready()
      modifies this, persistence, persistence.operations.Values
      ensures Ready() && persistence.KeepsRecords()
      ensures Step(state, response) == Machine.Mutate(cfg, env, old(state), intent)
    {
      MutateKeepsPinned(cfg, env, state, intent);
      response := Apply(env, intent);
      state := persistence.Snapshot();
    }

    /** The single mutation seam: one atomic step of the machine, which keeps every
        invariant of the store. */
    method Mutate(env: Env, intent: Intent) returns (response: Response)
      requires Valid()
      modifies this, persistence, persistence.operations.Values
      ensures Valid() && persistence.KeepsRecords()
      ensures Step(state, response) == Machine.Mutate(cfg, env, old(state), intent)
    {
      MutateKeepsInv(cfg, env, state, intent);
      response := Submit(env, intent);
    }

    // ---- Projection backlog ----

    /** Retry at most `limit` undelivered facts of one Task, oldest first. */
    method RebuildProjectionDelivery(env: Env, task: TaskID, limit: nat) returns (ok: bool, backlog: Inspection)
      requires Valid()
      modifies this, persistence`deliveries, persistence`sinkLog
      ensures ok <==> task != "" && ValidLimit(limit)
      ensures state == RebuildStep(cfg, env, old(state), task, limit)
      ensures ok ==> Inspects(backlog, persistence.deliveries, persistence.auditFacts, task, limit)
      ensures Valid()
    {
      RebuildKeepsInv(cfg, env, state, task, limit);
      InvPins(cfg, RebuildStep(cfg, env, state, task, limit));
      ok, backlog := RedriveAndInspect(env, task, limit);
      state := persistence.Snapshot();
    }

    method RedriveAndInspect(env: Env, task: TaskID, limit: nat) returns (ok: bool, backlog: Inspection)
      modifies persistence`deliveries, persistence`sinkLog
      ensures ok <==> task != "" && ValidLimit(limit)
      ensures persistence.Snapshot() == RebuildStep(cfg, env, old(persistence.Snapshot()), task, limit)
      ensures ok ==> Inspects(backlog, persistence.deliveries, persistence.auditFacts, task, limit)
    {
      backlog := Inspection(0, 0, 0, []);
      if task == "" || !(0 < limit <= 100) {
        return false, backlog;
      }
      RedriveFacts(env, task, limit);
      assert persistence.Snapshot().operations == old(persistence.Snapshot()).operations;
      backlog := InspectProjectionBacklog(task, limit);
      return true, backlog;
    }

    method RedriveFacts(env: Env, task: TaskID, limit: nat)
      modifies persistence`deliveries, persistence`sinkLog
      ensures Projection(persistence.deliveries, persistence.sinkLog)
        == Redrive(cfg, env, Projection(old(persistence.deliveries), old(persistence.sinkLog)), persistence.auditFacts, task, limit)
    {
      ghost var whole := Redrive(cfg, env, Projection(persistence.deliveries, persistence.sinkLog), persistence.auditFacts, task, limit);
      var facts := persistence.auditFacts;
      var attempted := 0;
      var i := 0;
      assert facts[0..] == facts;
      while i < |facts|
        invariant 0 <= i <= |facts| && attempted <= limit
        invariant Redrive(cfg, env, Projection(persistence.deliveries, persistence.sinkLog), facts[i..], task, limit - attempted) == whole
      {
        assert facts[i..][0] == facts[i] && facts[i..][1..] == facts[i + 1..];
        if facts[i].task != task {
          i := i + 1;
          continue;
        }
        if attempted >= limit {
          break;
        }
        var id := facts[i].id;
        if id in persistence.deliveries && persistence.deliveries[id].audit && persistence.deliveries[id].telemetry {
          i := i + 1;
          continue;
        }
        DeliverProjection(env, id);
        attempted := attempted + 1;
        i := i + 1;
      }
    }

    /** The bounded delivery evidence of one Task, from its retained facts. */
    method InspectProjectionBacklog(task: TaskID, limit: nat) returns (b: Inspection)
      requires limit > 0
      ensures Inspects(b, persistence.deliveries, persistence.auditFacts, task, limit)
    {
      b := Inspection(0, 0, 0, []);
      var facts := persistence.auditFacts;
      for i := 0 to |facts|
        invariant b.evidence == TaskFacts(facts[..i], task) && |b.evidence| < limit && b.sourceFacts == |b.evidence|
        invariant b.delivered == DeliveredCount(persistence.deliveries, b.evidence) && b.delivered + b.pending == b.sourceFacts
      {
        assert facts[..i + 1][..i] == facts[..i];
        if facts[i].task != task {
          continue;
        }
        var id := facts[i].id;
        CountGrows(persistence.deliveries, b.evidence, id);
        if id in persistence.deliveries && persistence.deliveries[id].audit && persistence.deliveries[id].telemetry {
          b := Inspection(b.pending, b.delivered + 1, b.sourceFacts + 1, b.evidence + [id]);
        } else {
          b := Inspection(b.pending + 1, b.delivered, b.sourceFacts + 1, b.evidence + [id]);
        }
        if |b.evidence| >= limit {
          TaskFactsGrow(facts, task, i + 1);
          return b;
        }
      }
      assert facts[..|facts|] == facts;
    }

    // ---- Version history ----

    /** The Task's committed versions in the order the store lists them. */
    method ListVersions(task: TaskScope) returns (versions: seq<ActivatedVersion>)
      requires forall v | v in persistence.activated :: persistence.activated[v].version == v
      ensures Enumerates(persistence.Snapshot(), task, versions)
    {
      versions := [];
      var rest := persistence.activated.Keys;
      while rest != {}
        invariant rest <= persistence.activated.Keys && Distinct(versions)
        invariant forall a | a in versions ::
          a.version in persistence.activated && a.version !in rest && persistence.activated[a.version] == a && InTask(a, task)
        invariant forall v | v in persistence.activated && v !in rest && InTask(persistence.activated[v], task) :: persistence.activated[v] in versions
        decreases |rest|
      {
        var v :| v in rest;
        rest := rest - {v};
        if persistence.activated[v].domain != task.domain || persistence.activated[v].task != task.task {
          continue;
        }
        assert persistence.activated[v] !in versions;
        versions := versions + [persistence.activated[v]];
      }
    }

    /** The Task's version history: exactly its chain of committed versions, in
        revision order, whatever order the store lists them in. */
    method ActivatedVersionsForTask(task: TaskScope) returns (versions: seq<ActivatedVersion>)
      requires Valid()
      ensures var h := LogHistory(persistence.auditFacts, task);
        && |versions| == |h|
        && forall i | 0 <= i < |h| :: h[i] in persistence.activated && versions[i] == persistence.activated[h[i]]
    {
      ghost var s := persistence.Snapshot();
      HistoryIsLinear(s, task);
      VersionsAreFiled(s);
      var listed := ListVersions(task);
      LinearSorts(s, task, LogHistory(s.auditFacts, task), listed);
      versions := Sort(listed, RevisionBefore);
    }
  }

  lemma VersionsAreFiled(s: State)
    requires History(s)
    ensures forall v | v in s.activated :: s.activated[v].version == v
  {
    forall v | v in s.activated ensures s.activated[v].version == v { assert IsCommitted(s, v); }
  }
}
