/** What every journaled operation satisfies on its own, what no step ever
    undoes, and that each of the eight continuing intents keeps both. */
module Lifecycle {
  import opened Basics
  import opened Facts
  import opened Records
  import opened Evidence
  import opened ResidueRules
  import opened Manifests
  import opened Machine

  // ---- Invariants of one operation ----

  function MemberSlotsOf(s: seq<Member>): (r: seq<SlotID>)
    ensures |r| == |s| && forall i | 0 <= i < |s| :: r[i] == s[i].slot
  { seq(|s|, i requires 0 <= i < |s| => s[i].slot) }

  /** What prepare establishes about a candidate, for good. */
  ghost predicate SoundCandidate(task: TaskID, c: Candidate) {
    && c.version != NO_VERSION && c.runtimeRefs != [] && Major(c.schema) == 1
    && (c.kind == FirstGeneration || c.kind == ManualEdit)
    && (c.kind == FirstGeneration <==> c.parent == NO_VERSION)
    && |c.capabilityRefs| == |c.members|
    && Distinct(MemberSlotsOf(c.members)) && Distinct(CapabilitySlots(c.capabilityRefs))
    && (forall slot | slot in MemberSlotsOf(c.members) :: slot in CapabilitySlots(c.capabilityRefs))
    && (forall m | m in c.members :: Staged(c.staging, m))
    && (forall i, j | 0 <= i < j < |c.members| :: c.members[i].artifact < c.members[j].artifact)
    && c.manifestDigest == ManifestDigestOf(c.schema, c.version, task, c.kind, c.parent, c.lineageDigest, c.members)
  }

  /** The member's slot is staged, with the member's content digest and size. */
  ghost predicate Staged(staging: seq<Staging>, m: Member) {
    var s := StagingFor(staging, m.slot);
    s.Some? && s.value.contentDigest == m.contentDigest && s.value.size == m.size
  }

  ghost predicate SoundVerification(op: Operation) {
    && (op.verification.Some? <==> VerifyKind in op.outcomes)
    && (op.verification.Some? ==> op.verification.value.pendingSlots == [])
    && (op.state == OpPrepared && op.verification.Some? ==> op.verification.value.state == VFailed)
    && (op.state == OpVerified || op.state == OpActivated ==>
          op.verification.Some? && op.verification.value.state == VVerified)
    && (op.state == OpReconciliationRequired ==>
          op.verification.Some? && op.verification.value.state == VAmbiguous)
    && (op.state == OpActivated <==> op.evidence.Some?)
  }

  ghost predicate SoundResidue(cfg: Config, scope: OperationScope, op: Operation) {
    && (op.residue.Some? <==> op.state == OpRejected || op.state == OpCancelled)
    && (op.residue.Some? ==> SoundResidueRecord(cfg, scope, op, op.residue.value))
    && (op.debt.Some? <==> op.residue.Some? && op.residue.value.assembly.Some?)
    && (op.debt.Some? ==> SoundDebt(cfg, op, op.residue.value, op.debt.value))
    && (ResolveKind in op.outcomes ==> op.debt.Some?)
  }

  ghost predicate SoundResidueRecord(cfg: Config, scope: OperationScope, op: Operation, r: Residue) {
    && r.operation == scope.operation && r.domain == scope.domain && r.task == scope.task
    && r.generation == op.generation && r.fence == op.fence && r.staging == op.candidate.staging
    && (r.receipt.Some? ==> ValidReceipt(r.receipt.value, cfg.durableObjectAuthority))
    && (r.disposition == Pending || r.disposition == ReleaseRequested
        || (r.receipt.Some? && r.disposition == ApplyReceipt(r.receipt.value.outcome)))
    && (r.assembly.None? ==> r.debtID == 0)
  }

  ghost predicate SoundDebt(cfg: Config, op: Operation, r: Residue, d: Debt) {
    && r.assembly.Some? && DebtMatches(d, r) && d.reference == r.assembly.value.reference
    && d.id == r.debtID && d.id != 0
    && (d.resolutionClass != NoResolution <==> ResolveKind in op.outcomes)
    && (d.resolutionClass == NoResolution ==> d.status != DebtResolved && d.resolutionEvidence.None? && d.resolutionReason == NoReason)
    && (d.resolutionClass != NoResolution ==> d.resolutionReason == ReasonFor(d.resolutionClass))
    && (d.resolutionClass != NoResolution && d.resolutionClass != AcceptedException ==>
          d.resolutionEvidence.Some? && ValidResolutionEvidence(d.resolutionEvidence.value, cfg.durableObjectAuthority, d))
  }

  /** Each replayable kind holds at most one digest, filed under itself. */
  ghost predicate SoundJournal(op: Operation) {
    && PrepareKind in op.outcomes
    && (forall kind | kind in op.outcomes && Replayable(kind) :: SingleOutcome(op.outcomes[kind]))
  }

  ghost predicate SingleOutcome(byDigest: map<Digest, IntentOutcome>) {
    exists digest :: byDigest.Keys == {digest} && byDigest[digest].digest == digest
  }

  ghost predicate SoundOperation(cfg: Config, scope: OperationScope, op: Operation) {
    && op.id == scope.operation
    && SoundCandidate(scope.task, op.candidate)
    && SoundVerification(op)
    && SoundResidue(cfg, scope, op)
    && SoundJournal(op)
  }

  // ---- What no step undoes ----

  ghost predicate KeepsOutcomes(a: Outcomes, b: Outcomes) {
    forall kind | kind in a && Replayable(kind) :: kind in b && b[kind] == a[kind]
  }

  ghost predicate Evolves(a: Operation, b: Operation) {
    && b.id == a.id && b.requestDigest == a.requestDigest && b.candidate == a.candidate
    && b.generation == a.generation && b.fence == a.fence
    && (Terminal(a.state) ==> b.state == a.state)
    && (a.evidence.Some? ==> b.evidence == a.evidence)
    && (a.verification.Some? ==> b.verification.Some?)
    && (a.verification.Some? && a.verification.value.state == VFailed ==> b.verification == a.verification)
    && KeepsOutcomes(a.outcomes, b.outcomes)
    && (a.residue.Some? ==> b.residue.Some? && ResidueEvolves(a.residue.value, b.residue.value))
    && (a.debt.Some? ==> b.debt.Some? && DebtEvolves(a.debt.value, b.debt.value))
  }

  /** Evidence-backed closure is final; the obligation's identity never changes. */
  ghost predicate ResidueEvolves(a: Residue, b: Residue) {
    && b.staging == a.staging && b.expiry == a.expiry && b.operation == a.operation
    && (a.assembly.Some? ==> b.assembly == a.assembly && b.debtID == a.debtID)
    && (ClosedByEvidence(a.disposition) ==> b.disposition == a.disposition && b.receipt == a.receipt && b.attempts == a.attempts)
  }

  /** A recorded resolution is written once, and a debt whose status left resolved
      after that never returns to it. */
  ghost predicate DebtEvolves(a: Debt, b: Debt) {
    && b.id == a.id && b.reference == a.reference && b.identity == a.identity
    && b.resourceGeneration == a.resourceGeneration && b.resourceFence == a.resourceFence
    && b.revision >= a.revision
    && (a.resolutionClass != NoResolution && a.status != DebtResolved ==> b.status != DebtResolved)
    && (a.resolutionClass != NoResolution ==>
          && b.resolutionClass == a.resolutionClass && b.resolutionReason == a.resolutionReason
          && b.resolutionEvidence == a.resolutionEvidence && b.resolvedAt == a.resolvedAt
          && b.approval == a.approval && b.resolutionExpiresAt == a.resolutionExpiresAt
          && b.resolutionAudit == a.resolutionAudit)
  }

  lemma EvolvesReflexive(a: Operation)
    ensures Evolves(a, a)
  {
  }

  lemma EvolvesTransitive(a: Operation, b: Operation, c: Operation)
    requires Evolves(a, b) && Evolves(b, c)
    ensures Evolves(a, c)
  {
  }

  // ---- Journal entries ----

  lemma JournalAddsOne(outcomes: Outcomes, kind: IntentKind, digest: Digest, o: IntentOutcome)
    requires kind !in outcomes && o.digest == digest
    ensures Journal(outcomes, kind, digest, o)[kind].Keys == {digest}
    ensures SingleOutcome(Journal(outcomes, kind, digest, o)[kind])
    ensures KeepsOutcomes(outcomes, Journal(outcomes, kind, digest, o))
  {
    assert Journal(outcomes, kind, digest, o)[kind] == map[digest := o];
  }

  lemma RecordedKeepsJournal(op: Operation, op1: Operation, kind: IntentKind, digest: Digest, decision: Option<Decision>, error: Option<ErrorCode>, now: Instant)
    requires SoundJournal(op) && op1.outcomes == op.outcomes
    requires Replayable(kind) ==> kind !in op.outcomes
    ensures SoundJournal(Recorded(op1, kind, digest, decision, error, now))
    ensures KeepsOutcomes(op.outcomes, Recorded(op1, kind, digest, decision, error, now).outcomes)
  {
    if Replayable(kind) {
      JournalAddsOne(op.outcomes, kind, digest, IntentOutcome(digest, op1.state, decision, error, now));
    }
  }

  // ---- Each continuing intent keeps the operation sound and evolves it ----

  ghost predicate Keeps(cfg: Config, scope: OperationScope, op: Operation, r: OpResult) {
    r.Changed? ==> SoundOperation(cfg, scope, r.op) && Evolves(op, r.op)
  }

  lemma SettleKeeps(cfg: Config, scope: OperationScope, env: Env, op: Operation, op1: Operation, kind: IntentKind, digest: Digest, error: Option<ErrorCode>, effect: Effect)
    requires SoundOperation(cfg, scope, op) && Replayable(kind) && kind !in op.outcomes
    requires op1.id == op.id && op1.requestDigest == op.requestDigest && op1.candidate == op.candidate && op1.outcomes == op.outcomes
    requires op1.generation == op.generation && op1.fence == op.fence
    requires Evolves(op, op1)
    requires var op2 := Recorded(op1, kind, digest, Some(DecisionOf(op1, false, env.now)), error, env.now);
      SoundVerification(op2) && SoundResidue(cfg, scope, op2)
    ensures Keeps(cfg, scope, op, Settle(env, op1, kind, digest, error, effect))
  {
    RecordedKeepsJournal(op, op1, kind, digest, Some(DecisionOf(op1, false, env.now)), error, env.now);
  }

  lemma VerifyKeeps(cfg: Config, env: Env, scope: OperationScope, op: Operation, h: Header, v: VerifyPayload, digest: Digest)
    requires SoundOperation(cfg, scope, op) && VerifyKind !in op.outcomes
    ensures Keeps(cfg, scope, op, VerifyOp(cfg, env, op, h, v, digest))
  {
    var r := VerifyOp(cfg, env, op, h, v, digest);
    if r.Changed? {
      JudgedKeeps(cfg, env, scope, op, digest, Evaluate(RegistryOf(cfg), env.capability, op.candidate, h, v));
    }
  }

  lemma JudgedKeeps(cfg: Config, env: Env, scope: OperationScope, op: Operation, digest: Digest, verdict: Verdict)
    requires SoundOperation(cfg, scope, op) && VerifyKind !in op.outcomes
    requires op.state == OpPrepared || op.state == OpReconciliationRequired
    ensures Keeps(cfg, scope, op, Judged(env, op, digest, verdict))
  {
    match verdict
    case Ambiguous(accepted) =>
      SettleKeeps(cfg, scope, env, op, op.(verification := Some(Verification(VAmbiguous, accepted, None, [])), state := OpReconciliationRequired),
                  VerifyKind, digest, None, NoEffect);
    case Failing(failure) =>
      SettleKeeps(cfg, scope, env, op, op.(verification := Some(Verification(VFailed, [], Some(failure), [])), state := OpPrepared),
                  VerifyKind, digest, Some(FailureErrorCode(failure.kind)), NoEffect);
    case Accepting(accepted) =>
      SettleKeeps(cfg, scope, env, op, op.(verification := Some(Verification(VVerified, accepted, None, [])), state := OpVerified),
                  VerifyKind, digest, None, NoEffect);
  }

  lemma CommitKeeps(cfg: Config, env: Env, scope: OperationScope, op: Operation, h: Header, revision: StreamRevision, digest: Digest, effect: Effect)
    requires SoundOperation(cfg, scope, op) && ActivateKind !in op.outcomes && op.state == OpVerified
    ensures Keeps(cfg, scope, op, Settle(env, Committed(env, op, h, revision), ActivateKind, digest, None, effect))
  {
    SettleKeeps(cfg, scope, env, op, Committed(env, op, h, revision), ActivateKind, digest, None, effect);
  }

  lemma ActivateGoesAhead(cfg: Config, env: Env, view: View, op: Operation, h: Header)
    requires ActivateDecision(cfg, env, view, op, h).Proceed?
    ensures op.state == OpVerified
    ensures var revision := view.stream.revision + 1;
      ActivateDecision(cfg, env, view, op, h) == Proceed(Committed(env, op, h, revision), None, Commit(VersionOf(op, h, revision, env.now)))
  {
  }

  lemma ActivateKeeps(cfg: Config, env: Env, view: View, scope: OperationScope, op: Operation, h: Header, digest: Digest)
    requires SoundOperation(cfg, scope, op) && ActivateKind !in op.outcomes
    ensures Keeps(cfg, scope, op, ActivateOp(cfg, env, view, op, h, digest))
  {
    if ActivateDecision(cfg, env, view, op, h).Proceed? {
      ActivateGoesAhead(cfg, env, view, op, h);
      var revision := view.stream.revision + 1;
      CommitKeeps(cfg, env, scope, op, h, revision, digest, Commit(VersionOf(op, h, revision, env.now)));
    }
  }

  lemma RejectKeeps(cfg: Config, env: Env, scope: OperationScope, op: Operation, h: Header, reason: RejectReason, digest: Digest)
    requires SoundOperation(cfg, scope, op) && RejectKind !in op.outcomes && scope == ScopeOf(h)
    ensures Keeps(cfg, scope, op, RejectOp(cfg, env, op, h, reason, digest))
  {
    if RejectDecision(cfg, env, op, h, reason).Proceed? {
      SettleKeeps(cfg, scope, env, op, op.(rejectReason := reason, state := OpRejected, residue := Some(NewResidue(cfg, env, op, h))),
                  RejectKind, digest, None, NoEffect);
    }
  }

  lemma CancelKeeps(cfg: Config, env: Env, scope: OperationScope, op: Operation, h: Header, reason: CancelReason, digest: Digest)
    requires SoundOperation(cfg, scope, op) && CancelKind !in op.outcomes && scope == ScopeOf(h)
    ensures Keeps(cfg, scope, op, CancelOp(cfg, env, op, h, reason, digest))
  {
    if CancelDecision(cfg, env, op, h, reason).Proceed? {
      SettleKeeps(cfg, scope, env, op, op.(cancelReason := reason, state := OpCancelled, residue := Some(NewResidue(cfg, env, op, h))),
                  CancelKind, digest, None, NoEffect);
    }
  }

  lemma AssembleKeeps(cfg: Config, env: Env, view: View, scope: OperationScope, op: Operation, h: Header, a: Assembly, digest: Digest)
    requires SoundOperation(cfg, scope, op) && AssembleKind !in op.outcomes && view.debtID != 0
    ensures Keeps(cfg, scope, op, AssembleOp(cfg, env, view, op, h, a, digest))
  {
    if AssembleOp(cfg, env, view, op, h, a, digest).Changed? {
      SettleKeeps(cfg, scope, env, op,
                  op.(residue := Some(op.residue.value.(assembly := Some(a), debtID := view.debtID)),
                      debt := Some(NewDebt(env, op, h, a, view.debtID))),
                  AssembleKind, digest, None, MintDebt);
    }
  }

  lemma ResolutionKeeps(cfg: Config, env: Env, scope: OperationScope, op: Operation, d1: Debt, digest: Digest)
    requires SoundOperation(cfg, scope, op) && ResolveKind !in op.outcomes && op.debt.Some?
    requires DebtEvolves(op.debt.value, d1) && d1.resolutionClass != NoResolution
    requires d1.resolutionReason == ReasonFor(d1.resolutionClass)
    requires d1.resolutionClass != AcceptedException ==>
      d1.resolutionEvidence.Some? && ValidResolutionEvidence(d1.resolutionEvidence.value, cfg.durableObjectAuthority, op.debt.value)
    ensures Keeps(cfg, scope, op, Settle(env, op.(debt := Some(d1)), ResolveKind, digest, None, MintAudit))
  {
    var op1 := op.(debt := Some(d1));
    assert DebtMatches(d1, op.residue.value);
    SettleKeeps(cfg, scope, env, op, op1, ResolveKind, digest, None, MintAudit);
  }

  lemma ResolveKeeps(
    cfg: Config, env: Env, view: View, scope: OperationScope, op: Operation, h: Header, class_: ResolutionClass,
    evidence: Option<ResolutionEvidence>, approval: string, expiresAt: Instant, digest: Digest)
    requires SoundOperation(cfg, scope, op) && ResolveKind !in op.outcomes
    ensures Keeps(cfg, scope, op, ResolveOp(cfg, env, view, op, h, class_, evidence, approval, expiresAt, digest))
  {
    var r := ResolveOp(cfg, env, view, op, h, class_, evidence, approval, expiresAt, digest);
    if r.Changed? {
      var d := Closed(op.debt.value, env.now, view.auditID);
      if class_ == AcceptedException {
        ResolutionKeeps(cfg, env, scope, op, d.(resolutionClass := AcceptedException, resolutionReason := AdministratorException,
                                                approval := approval, resolutionExpiresAt := expiresAt), digest);
      } else {
        ResolutionKeeps(cfg, env, scope, op, d.(resolutionClass := class_, resolutionReason := ReasonFor(class_),
                                                resolutionEvidence := evidence), digest);
      }
    }
  }

  // ---- Release and reconcile, which never enter the replay journal ----

  /** A release attempt may touch these fields of a residue, and no others. */
  ghost predicate ResidueWorked(a: Residue, b: Residue) {
    b == a.(disposition := b.disposition, requiresReconciliation := b.requiresReconciliation, attempts := b.attempts,
            failures := b.failures, nextRetryAt := b.nextRetryAt, lastError := b.lastError, receipt := b.receipt)
  }

  /** A release attempt never resolves a debt and never touches its identity or resolution. */
  ghost predicate DebtWorked(a: Debt, b: Debt) {
    && b == a.(status := b.status, retry := b.retry, claimGeneration := b.claimGeneration, claimFence := b.claimFence,
               revision := b.revision, attempts := b.attempts, failures := b.failures, nextRetryAt := b.nextRetryAt,
               firstAttemptAt := b.firstAttemptAt, lastAttemptAt := b.lastAttemptAt, lastError := b.lastError,
               blockers := b.blockers)
    && b.revision >= a.revision && (b.status == DebtResolved ==> a.status == DebtResolved)
  }

  lemma WorkedDebtKeeps(cfg: Config, op: Operation, r: Residue, r': Residue, d: Debt, d': Debt)
    requires SoundDebt(cfg, op, r, d) && ResidueWorked(r, r') && DebtWorked(d, d')
    ensures SoundDebt(cfg, op, r', d') && DebtEvolves(d, d')
  {
  }

  lemma WorkedKeeps(cfg: Config, scope: OperationScope, op: Operation, r': Residue, debt': Option<Debt>)
    requires SoundOperation(cfg, scope, op) && op.residue.Some? && !ClosedByEvidence(op.residue.value.disposition)
    requires ResidueWorked(op.residue.value, r') && SoundResidueRecord(cfg, scope, op, r')
    requires debt'.Some? == op.debt.Some? && (debt'.Some? ==> DebtWorked(op.debt.value, debt'.value))
    ensures var op' := op.(residue := Some(r'), debt := debt'); SoundOperation(cfg, scope, op') && Evolves(op, op')
  {
    var op' := op.(residue := Some(r'), debt := debt');
    if debt'.Some? {
      WorkedDebtKeeps(cfg, op, op.residue.value, r', op.debt.value, debt'.value);
      assert SoundDebt(cfg, op', r', debt'.value);
    }
    assert SoundResidueRecord(cfg, scope, op', r');
    assert SoundVerification(op') && SoundJournal(op');
  }

  lemma ClaimedKeeps(cfg: Config, scope: OperationScope, op: Operation)
    requires SoundOperation(cfg, scope, op) && op.residue.Some? && !ClosedByEvidence(op.residue.value.disposition)
    ensures SoundOperation(cfg, scope, Claimed(op)) && Evolves(op, Claimed(op))
    ensures !ClosedByEvidence(Claimed(op).residue.value.disposition)
  {
    WorkedKeeps(cfg, scope, op, Claimed(op).residue.value, Claimed(op).debt);
  }

  lemma AttemptKeeps(cfg: Config, scope: OperationScope, op: Operation, category: ErrorCategory, now: Instant)
    requires SoundOperation(cfg, scope, op) && op.residue.Some? && !ClosedByEvidence(op.residue.value.disposition)
    ensures SoundOperation(cfg, scope, WithAttempt(op, category, now)) && Evolves(op, WithAttempt(op, category, now))
  {
    WorkedKeeps(cfg, scope, op, WithAttempt(op, category, now).residue.value, WithAttempt(op, category, now).debt);
  }

  lemma ReceiptWorks(op: Operation, receipt: ReleaseReceipt, now: Instant)
    requires op.residue.Some?
    ensures var op' := WithReceipt(op, receipt, now);
      && op'.residue.Some? && ResidueWorked(op.residue.value, op'.residue.value)
      && op'.residue.value.receipt == Some(receipt) && op'.residue.value.disposition == ApplyReceipt(receipt.outcome)
      && op'.debt.Some? == op.debt.Some? && (op.debt.Some? ==> DebtWorked(op.debt.value, op'.debt.value))
      && op' == op.(residue := op'.residue, debt := op'.debt)
  {
  }

  lemma ReceiptKeeps(cfg: Config, scope: OperationScope, op: Operation, receipt: ReleaseReceipt, now: Instant)
    requires SoundOperation(cfg, scope, op) && op.residue.Some? && !ClosedByEvidence(op.residue.value.disposition)
    requires ValidReceipt(receipt, cfg.durableObjectAuthority)
    ensures SoundOperation(cfg, scope, WithReceipt(op, receipt, now)) && Evolves(op, WithReceipt(op, receipt, now))
  {
    ReceiptWorks(op, receipt, now);
    WorkedKeeps(cfg, scope, op, WithReceipt(op, receipt, now).residue.value, WithReceipt(op, receipt, now).debt);
  }

  lemma ReleaseAttemptKeeps(cfg: Config, env: Env, scope: OperationScope, op: Operation, h: Header)
    requires SoundOperation(cfg, scope, op) && op.residue.Some? && !ClosedByEvidence(op.residue.value.disposition)
    ensures SoundOperation(cfg, scope, Attempted(cfg, env, op, h).op) && Evolves(op, Attempted(cfg, env, op, h).op)
  {
    match env.release(op.residue.value.staging, h.safetyEpoch)
    case NoPort => WaitedKeeps(cfg, scope, op, env.now);
    case PortError(code) => AttemptKeeps(cfg, scope, op, ReleaseErrorCategory(code), env.now);
    case Unresolved => WaitedKeeps(cfg, scope, op, env.now);
    case Resolved(receipt) =>
      if ValidReceipt(receipt, cfg.durableObjectAuthority) {
        ReceiptKeeps(cfg, scope, op, receipt, env.now);
      } else {
        EvolvesReflexive(op);
      }
  }

  lemma WaitedKeeps(cfg: Config, scope: OperationScope, op: Operation, now: Instant)
    requires SoundOperation(cfg, scope, op) && op.residue.Some? && !ClosedByEvidence(op.residue.value.disposition)
    ensures var waited := WithAttempt(op.(residue := Some(op.residue.value.(requiresReconciliation := true))), Unavailable, now);
      SoundOperation(cfg, scope, waited) && Evolves(op, waited)
  {
    var waiting := op.(residue := Some(op.residue.value.(requiresReconciliation := true)));
    WaitingKeeps(cfg, scope, op);
    AttemptKeeps(cfg, scope, waiting, Unavailable, now);
    EvolvesTransitive(op, waiting, WithAttempt(waiting, Unavailable, now));
  }

  lemma WaitingKeeps(cfg: Config, scope: OperationScope, op: Operation)
    requires SoundOperation(cfg, scope, op) && op.residue.Some? && !ClosedByEvidence(op.residue.value.disposition)
    ensures var waiting := op.(residue := Some(op.residue.value.(requiresReconciliation := true)));
      SoundOperation(cfg, scope, waiting) && Evolves(op, waiting)
  {
    WorkedKeeps(cfg, scope, op, op.residue.value.(requiresReconciliation := true), op.debt);
  }

  /** The integrity-failure guard of a release never fires: an operation's debt
      always names its residue's assembly. */
  lemma DebtAlwaysMatches(cfg: Config, scope: OperationScope, op: Operation)
    requires SoundOperation(cfg, scope, op) && op.debt.Some?
    ensures op.residue.Some? && DebtMatches(op.debt.value, op.residue.value)
  {
  }

  lemma OpenReleaseKeeps(cfg: Config, env: Env, scope: OperationScope, op: Operation, h: Header)
    requires SoundOperation(cfg, scope, op) && op.residue.Some? && !ClosedByEvidence(op.residue.value.disposition)
    ensures var after := Attempted(cfg, env, Claimed(op), h).op;
      SoundOperation(cfg, scope, after) && Evolves(op, after)
  {
    ClaimedKeeps(cfg, scope, op);
    ReleaseAttemptKeeps(cfg, env, scope, Claimed(op), h);
    EvolvesTransitive(op, Claimed(op), Attempted(cfg, env, Claimed(op), h).op);
  }

  /** A release either leaves the operation alone or attempts the open residue;
      on a sound operation there is no third case. */
  lemma RunReleaseCases(cfg: Config, env: Env, scope: OperationScope, op: Operation, h: Header)
    requires SoundOperation(cfg, scope, op)
    ensures var after := RunRelease(cfg, env, op, h).op;
      || after == op
      || (op.residue.Some? && !ClosedByEvidence(op.residue.value.disposition) && after == Attempted(cfg, env, Claimed(op), h).op)
  {
    if op.debt.Some? { DebtAlwaysMatches(cfg, scope, op); }
  }

  lemma RunReleaseKeeps(cfg: Config, env: Env, scope: OperationScope, op: Operation, h: Header)
    requires SoundOperation(cfg, scope, op)
    ensures SoundOperation(cfg, scope, RunRelease(cfg, env, op, h).op) && Evolves(op, RunRelease(cfg, env, op, h).op)
  {
    RunReleaseCases(cfg, env, scope, op, h);
    var after := RunRelease(cfg, env, op, h).op;
    if after == op {
      EvolvesReflexive(op);
    } else {
      OpenReleaseKeeps(cfg, env, scope, op, h);
    }
  }

  lemma ReleaseKeeps(cfg: Config, env: Env, scope: OperationScope, op: Operation, h: Header)
    requires SoundOperation(cfg, scope, op)
    ensures Keeps(cfg, scope, op, ReleaseOp(cfg, env, op, h))
  {
    RunReleaseKeeps(cfg, env, scope, op, h);
  }

  /** Journaling a reconcile outcome touches nothing the invariants read. */
  lemma ReconcileRecordKeeps(cfg: Config, scope: OperationScope, op: Operation, op1: Operation, digest: Digest, decision: Option<Decision>, error: Option<ErrorCode>, now: Instant)
    requires SoundOperation(cfg, scope, op1) && Evolves(op, op1)
    ensures var op2 := Recorded(op1, ReconcileKind, digest, decision, error, now);
      SoundOperation(cfg, scope, op2) && Evolves(op, op2)
  {
    RecordedKeepsJournal(op1, op1, ReconcileKind, digest, decision, error, now);
    var op2 := Recorded(op1, ReconcileKind, digest, decision, error, now);
    assert SoundVerification(op2);
    if op1.debt.Some? { assert SoundDebt(cfg, op2, op1.residue.value, op1.debt.value); }
    assert SoundResidue(cfg, scope, op2);
  }

  lemma RecheckedKeeps(cfg: Config, env: Env, scope: OperationScope, op: Operation, mode: ReconcileMode)
    requires SoundOperation(cfg, scope, op)
    ensures var op1 := Rechecked(env, op).(reconcileMode := mode);
      SoundOperation(cfg, scope, op1) && Evolves(op, op1)
    ensures SoundOperation(cfg, scope, op.(reconcileMode := mode)) && Evolves(op, op.(reconcileMode := mode))
  {
    ModeKeeps(cfg, scope, op, mode);
    if op.state == OpReconciliationRequired {
      RecheckKeeps(cfg, scope, op, CompleteVerificationOf(env.capability, op.candidate, op.verification.value), env, mode);
    }
  }

  lemma ModeKeeps(cfg: Config, scope: OperationScope, op: Operation, mode: ReconcileMode)
    requires SoundOperation(cfg, scope, op)
    ensures SoundOperation(cfg, scope, op.(reconcileMode := mode)) && Evolves(op, op.(reconcileMode := mode))
  {
    var op1 := op.(reconcileMode := mode);
    if op.debt.Some? { assert SoundDebt(cfg, op1, op.residue.value, op.debt.value); }
  }

  lemma RecheckKeeps(cfg: Config, scope: OperationScope, op: Operation, recheck: Recheck, env: Env, mode: ReconcileMode)
    requires SoundOperation(cfg, scope, op) && op.state == OpReconciliationRequired
    requires recheck == CompleteVerificationOf(env.capability, op.candidate, op.verification.value)
    ensures var op1 := Rechecked(env, op).(reconcileMode := mode);
      SoundOperation(cfg, scope, op1) && Evolves(op, op1)
  {
    var op1 := Rechecked(env, op).(reconcileMode := mode);
    assert SoundVerification(op1);
    assert SoundResidue(cfg, scope, op1);
    assert SoundJournal(op1);
  }

  lemma ReconcileKeeps(cfg: Config, env: Env, scope: OperationScope, op: Operation, h: Header, mode: ReconcileMode, digest: Digest)
    requires SoundOperation(cfg, scope, op)
    ensures Keeps(cfg, scope, op, ReconcileOp(cfg, env, op, h, mode, digest))
  {
    if ReconcileOp(cfg, env, op, h, mode, digest).Changed? {
      var op1 := op.(reconcileMode := mode);
      RecheckedKeeps(cfg, env, scope, op, mode);
      if mode == CompleteRelease {
        RunReleaseKeeps(cfg, env, scope, op1, h);
        var r := RunRelease(cfg, env, op1, h);
        EvolvesTransitive(op, op1, r.op);
        ReconcileRecordKeeps(cfg, scope, op, r.op, digest, r.response.decision, r.response.error, env.now);
      } else {
        var op2 := if mode == CompleteVerification then Rechecked(env, op).(reconcileMode := mode) else op1;
        ReconcileRecordKeeps(cfg, scope, op, op2, digest, Some(DecisionOf(op2, false, env.now)), None, env.now);
      }
    }
  }

  /** Every continuing intent that reaches its flow keeps the operation sound and
      never undoes what is final. */
  lemma ContinueKeeps(cfg: Config, env: Env, view: View, op: Operation, intent: Intent)
    requires SoundOperation(cfg, ScopeOf(intent.header), op) && !intent.payload.Prepare? && view.debtID != 0
    requires Replayable(KindOf(intent.payload)) ==> KindOf(intent.payload) !in op.outcomes
    ensures Keeps(cfg, ScopeOf(intent.header), op, ContinueOp(cfg, env, view, op, intent))
  {
    var h, scope := intent.header, ScopeOf(intent.header);
    var digest := RequestDigest(intent);
    match intent.payload
    case Verify(v) => VerifyKeeps(cfg, env, scope, op, h, v, digest);
    case Activate => ActivateKeeps(cfg, env, view, scope, op, h, digest);
    case Reject(reason, _) => RejectKeeps(cfg, env, scope, op, h, reason, digest);
    case Cancel(reason) => CancelKeeps(cfg, env, scope, op, h, reason, digest);
    case Reconcile(mode) => ReconcileKeeps(cfg, env, scope, op, h, mode, digest);
    case Assemble(a) => AssembleKeeps(cfg, env, view, scope, op, h, a, digest);
    case Release => ReleaseKeeps(cfg, env, scope, op, h);
    case Resolve(class_, evidence, approval, expiresAt) =>
      ResolveKeeps(cfg, env, view, scope, op, h, class_, evidence, approval, expiresAt, digest);
  }
}
