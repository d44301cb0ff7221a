/** What the journal, the publication evidence and the audit log of a reachable
    state say about how it came about. */
module Trail {
  import opened Basics
  import opened Facts
  import opened Records
  import opened Evidence
  import opened ResidueRules
  import opened Manifests
  import opened Machine
  import opened Lifecycle
  import opened Invariants
  import opened Preparation
  import opened Backlog
  import opened Steps
  import opened Runs
  import opened Publication
  import R = Reachability

  // ---- One operation ----

  /** Each final state, and each debt, has the outcome of its own flow on record. */
  ghost predicate Journaled(op: Operation) {
    && (ActivateKind in op.outcomes <==> op.state == OpActivated)
    && (RejectKind in op.outcomes <==> op.state == OpRejected)
    && (CancelKind in op.outcomes <==> op.state == OpCancelled)
    && (AssembleKind in op.outcomes <==> op.debt.Some?)
  }

  /** The evidence names exactly this operation's candidate, claim and revision. */
  ghost predicate EvidenceBinds(scope: OperationScope, op: Operation, e: PublicationEvidence) {
    var c := op.candidate;
    && e.operation == scope.operation && e.domain == scope.domain && e.task == scope.task
    && e.requestDigest == op.requestDigest && e.generation == op.generation && e.fence == op.fence
    && e.phaseRun == c.phaseRun && e.version == c.version && e.currentHead == c.version
    && e.manifestDigest == c.manifestDigest && e.lineageDigest == c.lineageDigest
    && e.kind == c.kind && e.parent == c.parent && e.streamRevision == op.streamRevision
  }

  ghost predicate Accounted(scope: OperationScope, op: Operation) {
    Journaled(op) && (op.evidence.Some? ==> EvidenceBinds(scope, op, op.evidence.value))
  }

  /** Journaling an outcome keeps the account when the operation became what the
      outcome stands for, and nothing else. */
  lemma RecordingAccounts(
    scope: OperationScope, op: Operation, op1: Operation, kind: IntentKind, digest: Digest,
    decision: Option<Decision>, error: Option<ErrorCode>, now: Instant)
    requires Accounted(scope, op) && op1.outcomes == op.outcomes
    requires op1.state == OpActivated <==> op.state == OpActivated || kind == ActivateKind
    requires op1.state == OpRejected <==> op.state == OpRejected || kind == RejectKind
    requires op1.state == OpCancelled <==> op.state == OpCancelled || kind == CancelKind
    requires op1.debt.Some? <==> op.debt.Some? || kind == AssembleKind
    requires op1.evidence.Some? ==> EvidenceBinds(scope, op1, op1.evidence.value)
    ensures Accounted(scope, Recorded(op1, kind, digest, decision, error, now))
  {
    var op2 := Recorded(op1, kind, digest, decision, error, now);
    assert op2.outcomes.Keys == op.outcomes.Keys + {kind};
    assert op2.evidence.Some? ==> EvidenceBinds(scope, op2, op2.evidence.value);
  }

  lemma SettleAccounts(
    env: Env, scope: OperationScope, op: Operation, op1: Operation, kind: IntentKind, digest: Digest, error: Option<ErrorCode>, effect: Effect)
    requires Accounted(scope, op) && op1.outcomes == op.outcomes
    requires op1.state == OpActivated <==> op.state == OpActivated || kind == ActivateKind
    requires op1.state == OpRejected <==> op.state == OpRejected || kind == RejectKind
    requires op1.state == OpCancelled <==> op.state == OpCancelled || kind == CancelKind
    requires op1.debt.Some? <==> op.debt.Some? || kind == AssembleKind
    requires op1.evidence.Some? ==> EvidenceBinds(scope, op1, op1.evidence.value)
    ensures Accounted(scope, Settle(env, op1, kind, digest, error, effect).op)
  {
    RecordingAccounts(scope, op, op1, kind, digest, Some(DecisionOf(op1, false, env.now)), error, env.now);
  }

  /** A changed operation whose evidence, claim and candidate are as before. */
  ghost predicate SameEvidence(op: Operation, op1: Operation) {
    && op1.evidence == op.evidence && op1.candidate == op.candidate && op1.requestDigest == op.requestDigest
    && op1.generation == op.generation && op1.fence == op.fence && op1.streamRevision == op.streamRevision
  }

  lemma SameEvidenceBinds(scope: OperationScope, op: Operation, op1: Operation)
    requires Accounted(scope, op) && SameEvidence(op, op1)
    ensures op1.evidence.Some? ==> EvidenceBinds(scope, op1, op1.evidence.value)
  {
  }

  lemma JudgementAccounts(env: Env, scope: OperationScope, op: Operation, digest: Digest, verdict: Verdict)
    requires Accounted(scope, op) && !Terminal(op.state)
    ensures Accounted(scope, Judged(env, op, digest, verdict).op)
  {
    var d := Judgement(op, verdict);
    SameEvidenceBinds(scope, op, d.op);
    SettleAccounts(env, scope, op, d.op, VerifyKind, digest, d.error, d.effect);
  }

  lemma VerifyAccounts(cfg: Config, env: Env, scope: OperationScope, op: Operation, h: Header, v: VerifyPayload, digest: Digest)
    requires Accounted(scope, op) && op.candidate.runtimeRefs != []
    ensures var r := VerifyOp(cfg, env, op, h, v, digest); r.Changed? ==> Accounted(scope, r.op)
  {
    if VerifyDecision(cfg, env, op, h, v).Proceed? {
      JudgementAccounts(env, scope, op, digest, Evaluate(RegistryOf(cfg), env.capability, op.candidate, h, v));
    }
  }

  lemma CommitAccounts(env: Env, op: Operation, h: Header, revision: StreamRevision, digest: Digest, effect: Effect)
    requires Accounted(ScopeOf(h), op) && op.id == h.operation && op.state == OpVerified
    requires h.generation == op.generation && h.fence == op.fence
    ensures Accounted(ScopeOf(h), Settle(env, Committed(env, op, h, revision), ActivateKind, digest, None, effect).op)
  {
    var op1 := Committed(env, op, h, revision);
    assert EvidenceBinds(ScopeOf(h), op1, op1.evidence.value);
    SettleAccounts(env, ScopeOf(h), op, op1, ActivateKind, digest, None, effect);
  }

  lemma ActivateAccounts(cfg: Config, env: Env, view: View, op: Operation, h: Header, digest: Digest)
    requires Accounted(ScopeOf(h), op) && op.id == h.operation
    ensures var r := ActivateOp(cfg, env, view, op, h, digest); r.Changed? ==> Accounted(ScopeOf(h), r.op)
  {
    if ActivateDecision(cfg, env, view, op, h).Proceed? {
      var revision := view.stream.revision + 1;
      CommitAccounts(env, op, h, revision, digest, Commit(VersionOf(op, h, revision, env.now)));
    }
  }

  lemma RejectAccounts(cfg: Config, env: Env, scope: OperationScope, op: Operation, h: Header, reason: RejectReason, digest: Digest)
    requires Accounted(scope, op)
    ensures var r := RejectOp(cfg, env, op, h, reason, digest); r.Changed? ==> Accounted(scope, r.op)
  {
    var d := RejectDecision(cfg, env, op, h, reason);
    if d.Proceed? {
      SameEvidenceBinds(scope, op, d.op);
      SettleAccounts(env, scope, op, d.op, RejectKind, digest, d.error, d.effect);
    }
  }

  lemma CancelAccounts(cfg: Config, env: Env, scope: OperationScope, op: Operation, h: Header, reason: CancelReason, digest: Digest)
    requires Accounted(scope, op)
    ensures var r := CancelOp(cfg, env, op, h, reason, digest); r.Changed? ==> Accounted(scope, r.op)
  {
    var d := CancelDecision(cfg, env, op, h, reason);
    if d.Proceed? {
      SameEvidenceBinds(scope, op, d.op);
      SettleAccounts(env, scope, op, d.op, CancelKind, digest, d.error, d.effect);
    }
  }

  lemma AssembleAccounts(cfg: Config, env: Env, view: View, scope: OperationScope, op: Operation, h: Header, a: Assembly, digest: Digest)
    requires Accounted(scope, op)
    ensures var r := AssembleOp(cfg, env, view, op, h, a, digest); r.Changed? ==> Accounted(scope, r.op)
  {
    var d := AssembleDecision(cfg, env, view, op, h, a);
    if d.Proceed? {
      SameEvidenceBinds(scope, op, d.op);
      SettleAccounts(env, scope, op, d.op, AssembleKind, digest, d.error, d.effect);
    }
  }

  lemma ResolveAccounts(
    cfg: Config, env: Env, view: View, scope: OperationScope, op: Operation, h: Header, class_: ResolutionClass,
    evidence: Option<ResolutionEvidence>, approval: string, expiresAt: Instant, digest: Digest)
    requires Accounted(scope, op)
    ensures var r := ResolveOp(cfg, env, view, op, h, class_, evidence, approval, expiresAt, digest); r.Changed? ==> Accounted(scope, r.op)
  {
    var d := ResolveDecision(cfg, env, view, op, h, class_, evidence, approval, expiresAt);
    if d.Proceed? {
      SameEvidenceBinds(scope, op, d.op);
      SettleAccounts(env, scope, op, d.op, ResolveKind, digest, d.error, d.effect);
    }
  }

  /** Only the residue and the debt differ, and a debt neither appears nor goes. */
  ghost predicate Touches(op: Operation, op': Operation) {
    op' == op.(residue := op'.residue, debt := op'.debt) && op'.debt.Some? == op.debt.Some?
  }

  lemma TouchesTransitive(a: Operation, b: Operation, c: Operation)
    requires Touches(a, b) && Touches(b, c)
    ensures Touches(a, c)
  {
  }

  lemma AttemptTouches(cfg: Config, env: Env, op: Operation, h: Header)
    requires op.residue.Some?
    ensures Touches(op, Attempted(cfg, env, op, h).op)
  {
    var waiting := op.(residue := Some(op.residue.value.(requiresReconciliation := true)));
    match env.release(op.residue.value.staging, h.safetyEpoch)
    case NoPort => WithAttemptTouches(op, waiting, Unavailable, env.now);
    case PortError(code) => WithAttemptTouches(op, op, ReleaseErrorCategory(code), env.now);
    case Unresolved => WithAttemptTouches(op, waiting, Unavailable, env.now);
    case Resolved(receipt) => ReceiptWorks(op, receipt, env.now);
  }

  lemma WithAttemptTouches(op: Operation, waiting: Operation, category: ErrorCategory, now: Instant)
    requires Touches(op, waiting) && waiting.residue.Some?
    ensures Touches(op, WithAttempt(waiting, category, now))
  {
  }

  lemma ClaimTouches(op: Operation)
    requires op.residue.Some?
    ensures Touches(op, Claimed(op)) && Claimed(op).residue.Some?
  {
  }

  lemma RunReleaseShape(cfg: Config, env: Env, op: Operation, h: Header)
    ensures var op' := RunRelease(cfg, env, op, h).op;
      || op' == op
      || (op.residue.Some? && op' == op.(residue := Some(MarkExpired(op.residue.value, env.now))))
      || (op.residue.Some? && op' == Attempted(cfg, env, Claimed(op), h).op)
  {
  }

  /** A release works on the residue and the debt, and on nothing else. */
  lemma ReleaseTouches(cfg: Config, env: Env, op: Operation, h: Header)
    ensures Touches(op, RunRelease(cfg, env, op, h).op)
  {
    RunReleaseShape(cfg, env, op, h);
    if op.residue.Some? {
      ClaimTouches(op);
      AttemptTouches(cfg, env, Claimed(op), h);
      TouchesTransitive(op, Claimed(op), Attempted(cfg, env, Claimed(op), h).op);
    }
  }

  lemma TouchedAccounts(scope: OperationScope, op: Operation, op': Operation)
    requires Accounted(scope, op) && Touches(op, op')
    ensures Accounted(scope, op')
  {
    SameEvidenceBinds(scope, op, op');
  }

  /** What a reconcile may change of an operation before it is journaled. */
  ghost predicate Reconciles(op: Operation, op1: Operation) {
    && SameEvidence(op, op1) && op1.outcomes == op.outcomes && op1.debt.Some? == op.debt.Some?
    && (op1.state == op.state || (!Terminal(op.state) && !Terminal(op1.state)))
  }

  lemma ReconcileRecordAccounts(
    scope: OperationScope, op: Operation, op1: Operation, digest: Digest, decision: Option<Decision>, error: Option<ErrorCode>, now: Instant)
    requires Accounted(scope, op) && Reconciles(op, op1)
    ensures Accounted(scope, Recorded(op1, ReconcileKind, digest, decision, error, now))
  {
    SameEvidenceBinds(scope, op, op1);
    RecordingAccounts(scope, op, op1, ReconcileKind, digest, decision, error, now);
  }

  lemma RecheckReconciles(env: Env, op: Operation)
    ensures Reconciles(op, Rechecked(env, op).(reconcileMode := CompleteVerification))
  {
  }

  lemma AnsweredReconciles(cfg: Config, env: Env, op: Operation, h: Header, mode: ReconcileMode)
    requires ReconcileDecision(cfg, env, op, h, mode).Answered?
    ensures Reconciles(op, ReconcileDecision(cfg, env, op, h, mode).op)
  {
    match mode
    case CompleteRelease => ReleaseTouches(cfg, env, op.(reconcileMode := mode), h);
    case CompleteVerification => RecheckReconciles(env, op);
    case _ =>
  }

  lemma ReconcileAccounts(cfg: Config, env: Env, scope: OperationScope, op: Operation, h: Header, mode: ReconcileMode, digest: Digest)
    requires Accounted(scope, op)
    ensures var r := ReconcileOp(cfg, env, op, h, mode, digest); r.Changed? ==> Accounted(scope, r.op)
  {
    var d := ReconcileDecision(cfg, env, op, h, mode);
    if d.Answered? {
      AnsweredReconciles(cfg, env, op, h, mode);
      ReconcileRecordAccounts(scope, op, d.op, digest, d.response.decision, d.response.error, env.now);
    }
  }

  lemma ContinueAccounts(cfg: Config, env: Env, view: View, op: Operation, intent: Intent)
    requires SoundOperation(cfg, ScopeOf(intent.header), op) && Accounted(ScopeOf(intent.header), op) && !intent.payload.Prepare?
    ensures var r := ContinueOp(cfg, env, view, op, intent); r.Changed? ==> Accounted(ScopeOf(intent.header), r.op)
  {
    var h, scope, digest := intent.header, ScopeOf(intent.header), RequestDigest(intent);
    match intent.payload
    case Verify(v) => VerifyAccounts(cfg, env, scope, op, h, v, digest);
    case Activate => ActivateAccounts(cfg, env, view, op, h, digest);
    case Reject(reason, _) => RejectAccounts(cfg, env, scope, op, h, reason, digest);
    case Cancel(reason) => CancelAccounts(cfg, env, scope, op, h, reason, digest);
    case Reconcile(mode) => ReconcileAccounts(cfg, env, scope, op, h, mode, digest);
    case Assemble(a) => AssembleAccounts(cfg, env, view, scope, op, h, a, digest);
    case Resolve(class_, evidence, approval, expiresAt) =>
      ResolveAccounts(cfg, env, view, scope, op, h, class_, evidence, approval, expiresAt, digest);
    case Release =>
      ReleaseTouches(cfg, env, op, h);
      TouchedAccounts(scope, op, RunRelease(cfg, env, op, h).op);
  }

  // ---- Who acted ----

  /** The fact's digest is that of a request for this action on this operation,
      by this authority, and the authority may make it: by mode for reconcile. */
  ghost predicate Attributed(cfg: Config, f: AuditFact) {
    && f.requestDigest.Sha256? && f.requestDigest.canonical.OfRequest?
    && var h, p := f.requestDigest.canonical.header, f.requestDigest.canonical.payload;
       && ScopeOf(h) == Subject(f) && h.request == f.request && h.authority == f.authority && KindOf(p) == f.action
       && if p.Reconcile? then ReconcileAuthorized(cfg, f.authority, p.mode) else Authorized(cfg, f.authority, f.action)
  }

  ghost predicate MayAct(cfg: Config, intent: Intent) {
    var a, p := intent.header.authority, intent.payload;
    if p.Reconcile? then ReconcileAuthorized(cfg, a, p.mode) else Authorized(cfg, a, KindOf(p))
  }

  lemma ChangedMayAct(cfg: Config, env: Env, view: View, op: Operation, intent: Intent)
    requires op.candidate.runtimeRefs != [] && !intent.payload.Prepare? && ContinueOp(cfg, env, view, op, intent).Changed?
    ensures MayAct(cfg, intent)
  {
  }

  lemma DigestAttributes(cfg: Config, intent: Intent, id: AuditFactID, op: Operation, now: Instant)
    requires intent.header.requestDigest == RequestDigest(intent) && MayAct(cfg, intent)
    ensures Attributed(cfg, FactOf(id, intent.header, KindOf(intent.payload), op, now))
  {
  }

  // ---- Which audit identity a resolution names ----

  /** A resolution names the identity right before that of its own audit fact,
      and no retained fact carries the identity it names. */
  ghost predicate Stamped(log: seq<AuditFact>, next: AuditFactID, scope: OperationScope, d: Debt) {
    if d.resolutionClass == NoResolution then d.resolutionAudit == 0
    else
      && 0 < d.resolutionAudit < next
      && (forall i | 0 <= i < |log| :: log[i].id != d.resolutionAudit)
      && (exists i :: 0 <= i < |log| && IsResolution(log[i], scope, d))
  }

  ghost predicate IsResolution(f: AuditFact, scope: OperationScope, d: Debt) {
    f.id == d.resolutionAudit + 1 && Subject(f) == scope && f.action == ResolveKind
  }

  /** How a step may change what a debt says about its resolution. */
  ghost predicate StampFits(before: Option<Debt>, d: Debt, auditID: AuditFactID, intent: Intent, effect: Effect) {
    || (d.resolutionClass == NoResolution && d.resolutionAudit == 0)
    || (before.Some? && d.resolutionClass == before.value.resolutionClass && d.resolutionAudit == before.value.resolutionAudit)
    || (d.resolutionClass != NoResolution && d.resolutionAudit == auditID && intent.payload.Resolve? && effect == MintAudit)
  }

  lemma AttemptKeepsStamp(cfg: Config, env: Env, op: Operation, h: Header)
    requires op.residue.Some? && op.debt.Some?
    ensures var d := Attempted(cfg, env, op, h).op.debt;
      d.Some? && d.value.resolutionClass == op.debt.value.resolutionClass && d.value.resolutionAudit == op.debt.value.resolutionAudit
  {
  }

  lemma ReleaseKeepsStamp(cfg: Config, env: Env, op: Operation, h: Header)
    requires op.debt.Some?
    ensures var d := RunRelease(cfg, env, op, h).op.debt;
      d.Some? && d.value.resolutionClass == op.debt.value.resolutionClass && d.value.resolutionAudit == op.debt.value.resolutionAudit
  {
    if op.residue.Some? { AttemptKeepsStamp(cfg, env, Claimed(op), h); }
  }

  lemma ReconcileStamps(cfg: Config, env: Env, op: Operation, h: Header, mode: ReconcileMode, digest: Digest)
    requires ReconcileOp(cfg, env, op, h, mode, digest).Changed? && op.debt.Some?
    ensures var d := ReconcileOp(cfg, env, op, h, mode, digest).op.debt;
      d.Some? && d.value.resolutionClass == op.debt.value.resolutionClass && d.value.resolutionAudit == op.debt.value.resolutionAudit
  {
    if mode == CompleteRelease { ReleaseKeepsStamp(cfg, env, op.(reconcileMode := mode), h); }
  }

  lemma ResolveStamps(cfg: Config, env: Env, view: View, op: Operation, intent: Intent)
    requires op.candidate.runtimeRefs != [] && intent.payload.Resolve? && ContinueOp(cfg, env, view, op, intent).Changed?
    ensures var r := ContinueOp(cfg, env, view, op, intent);
      r.op.debt.Some? && StampFits(op.debt, r.op.debt.value, view.auditID, intent, r.effect)
  {
  }

  lemma VerifyKeepsDebt(cfg: Config, env: Env, op: Operation, h: Header, v: VerifyPayload, digest: Digest)
    requires op.candidate.runtimeRefs != [] && VerifyOp(cfg, env, op, h, v, digest).Changed?
    ensures VerifyOp(cfg, env, op, h, v, digest).op.debt == op.debt
  {
  }

  lemma FinalKeepsDebt(cfg: Config, env: Env, view: View, op: Operation, intent: Intent)
    requires op.candidate.runtimeRefs != [] && (intent.payload.Activate? || intent.payload.Reject? || intent.payload.Cancel?)
    requires ContinueOp(cfg, env, view, op, intent).Changed?
    ensures ContinueOp(cfg, env, view, op, intent).op.debt == op.debt
  {
  }

  lemma AssembleStamps(cfg: Config, env: Env, view: View, op: Operation, h: Header, a: Assembly, digest: Digest)
    requires AssembleOp(cfg, env, view, op, h, a, digest).Changed?
    ensures var d := AssembleOp(cfg, env, view, op, h, a, digest).op.debt;
      d.Some? && d.value.resolutionClass == NoResolution && d.value.resolutionAudit == 0
  {
  }

  lemma ContinueStamps(cfg: Config, env: Env, view: View, op: Operation, intent: Intent)
    requires op.candidate.runtimeRefs != [] && !intent.payload.Prepare? && ContinueOp(cfg, env, view, op, intent).Changed?
    ensures var r := ContinueOp(cfg, env, view, op, intent);
      (op.debt.Some? ==> r.op.debt.Some?) && (r.op.debt.Some? ==> StampFits(op.debt, r.op.debt.value, view.auditID, intent, r.effect))
  {
    match intent.payload
    case Resolve(_, _, _, _) => ResolveStamps(cfg, env, view, op, intent);
    case Release =>
      ReleaseTouches(cfg, env, op, intent.header);
      if op.debt.Some? { ReleaseKeepsStamp(cfg, env, op, intent.header); }
    case Reconcile(mode) =>
      ReconcileTouches(cfg, env, op, intent.header, mode, RequestDigest(intent));
      if op.debt.Some? { ReconcileStamps(cfg, env, op, intent.header, mode, RequestDigest(intent)); }
    case Verify(v) => VerifyKeepsDebt(cfg, env, op, intent.header, v, RequestDigest(intent));
    case Assemble(a) => AssembleStamps(cfg, env, view, op, intent.header, a, RequestDigest(intent));
    case _ => FinalKeepsDebt(cfg, env, view, op, intent);
  }

  lemma ReconcileTouches(cfg: Config, env: Env, op: Operation, h: Header, mode: ReconcileMode, digest: Digest)
    requires ReconcileOp(cfg, env, op, h, mode, digest).Changed?
    ensures ReconcileOp(cfg, env, op, h, mode, digest).op.debt.Some? == op.debt.Some?
  {
    if mode == CompleteRelease { ReleaseTouches(cfg, env, op.(reconcileMode := mode), h); }
  }

  // ---- The whole state ----

  ghost predicate Tracked(cfg: Config, s: State) {
    && (forall x | x in s.operations :: Accounted(x, s.operations[x]))
    && (forall x | x in s.operations && s.operations[x].debt.Some? :: Stamped(s.auditFacts, s.nextAudit, x, s.operations[x].debt.value))
    && (forall i | 0 <= i < |s.auditFacts| :: Attributed(cfg, s.auditFacts[i]))
  }

  /** One operation replaced or entered, and one fact retained about it. */
  ghost predicate Adds(s: State, s': State, scope: OperationScope, op: Operation, f: AuditFact) {
    && s'.operations == s.operations[scope := op] && s'.auditFacts == s.auditFacts + [f]
    && s.nextAudit < f.id == s'.nextAudit && Subject(f) == scope
  }

  lemma LongerLogStamps(log: seq<AuditFact>, next: AuditFactID, f: AuditFact, scope: OperationScope, d: Debt)
    requires Stamped(log, next, scope, d) && next < f.id
    ensures Stamped(log + [f], f.id, scope, d)
  {
    if d.resolutionClass != NoResolution {
      var i :| 0 <= i < |log| && IsResolution(log[i], scope, d);
      assert IsResolution((log + [f])[i], scope, d);
    }
  }

  lemma NewStamp(log: seq<AuditFact>, next: AuditFactID, f: AuditFact, scope: OperationScope, d: Debt)
    requires forall i | 0 <= i < |log| :: log[i].id <= next
    requires d.resolutionClass != NoResolution && d.resolutionAudit == next + 1 && IsResolution(f, scope, d)
    ensures Stamped(log + [f], f.id, scope, d)
  {
    assert (log + [f])[|log|] == f;
  }

  ghost predicate DebtFits(s: State, scope: OperationScope, op: Operation, intent: Intent, effect: Effect, f: AuditFact) {
    op.debt.Some? ==>
      && StampFits(if scope in s.operations then s.operations[scope].debt else None, op.debt.value, s.nextAudit + 1, intent, effect)
      && (effect == MintAudit ==> f.id == s.nextAudit + 2 && f.action == KindOf(intent.payload))
  }

  lemma AddedStamp(cfg: Config, s: State, s': State, scope: OperationScope, op: Operation, f: AuditFact, intent: Intent, effect: Effect)
    requires Tracked(cfg, s) && Adds(s, s', scope, op, f) && DebtFits(s, scope, op, intent, effect, f) && op.debt.Some?
    requires forall i | 0 <= i < |s.auditFacts| :: s.auditFacts[i].id <= s.nextAudit
    ensures Stamped(s'.auditFacts, s'.nextAudit, scope, op.debt.value)
  {
    var d := op.debt.value;
    if d.resolutionClass != NoResolution {
      if d.resolutionAudit == s.nextAudit + 1 && f.id == s.nextAudit + 2 && f.action == ResolveKind {
        NewStamp(s.auditFacts, s.nextAudit, f, scope, d);
      } else {
        LongerLogStamps(s.auditFacts, s.nextAudit, f, scope, s.operations[scope].debt.value);
        SameStamp(s'.auditFacts, s'.nextAudit, scope, s.operations[scope].debt.value, d);
      }
    }
  }

  lemma SameStamp(log: seq<AuditFact>, next: AuditFactID, scope: OperationScope, d: Debt, d': Debt)
    requires Stamped(log, next, scope, d) && d'.resolutionClass == d.resolutionClass && d'.resolutionAudit == d.resolutionAudit
    ensures Stamped(log, next, scope, d')
  {
    if d.resolutionClass != NoResolution {
      var i :| 0 <= i < |log| && IsResolution(log[i], scope, d);
      assert IsResolution(log[i], scope, d');
    }
  }

  lemma AddingTracks(cfg: Config, s: State, s': State, scope: OperationScope, op: Operation, f: AuditFact, intent: Intent, effect: Effect)
    requires Tracked(cfg, s) && Adds(s, s', scope, op, f) && DebtFits(s, scope, op, intent, effect, f)
    requires forall i | 0 <= i < |s.auditFacts| :: s.auditFacts[i].id <= s.nextAudit
    requires Accounted(scope, op) && Attributed(cfg, f)
    ensures Tracked(cfg, s')
  {
    forall x | x in s'.operations && s'.operations[x].debt.Some?
      ensures Stamped(s'.auditFacts, s'.nextAudit, x, s'.operations[x].debt.value)
    {
      if x == scope {
        AddedStamp(cfg, s, s', scope, op, f, intent, effect);
      } else {
        LongerLogStamps(s.auditFacts, s.nextAudit, f, x, s.operations[x].debt.value);
      }
    }
  }

  // ---- Each way a step changes the state ----

  lemma AbsorbAdds(cfg: Config, env: Env, s: State, intent: Intent, r: OpResult)
    requires r.Changed?
    ensures var id := s.nextAudit + if r.effect == MintAudit then 2 else 1;
      Adds(s, Absorb(cfg, env, s, intent, r), ScopeOf(intent.header), r.op, FactOf(id, intent.header, KindOf(intent.payload), r.op, env.now))
  {
    AuditedAppends(cfg, env, Affected(s, ScopeOf(intent.header), r.op, r.effect), intent.header, KindOf(intent.payload), r.op);
    AffectedMints(s, ScopeOf(intent.header), r.op, r.effect);
  }

  lemma AffectedMints(s: State, scope: OperationScope, op: Operation, effect: Effect)
    ensures var s1 := Affected(s, scope, op, effect);
      && s1.operations == s.operations[scope := op] && s1.auditFacts == s.auditFacts
      && s1.nextAudit == s.nextAudit + if effect == MintAudit then 1 else 0
  {
  }

  lemma ContinueTracks(cfg: Config, env: Env, s: State, intent: Intent)
    requires Inv(cfg, s) && Tracked(cfg, s) && ScopeOf(intent.header) in s.operations && !intent.payload.Prepare?
    requires intent.header.requestDigest == RequestDigest(intent)
    requires s.operations[ScopeOf(intent.header)].candidate.runtimeRefs != []
    ensures var scope := ScopeOf(intent.header);
      Tracked(cfg, Absorb(cfg, env, s, intent, ContinueOp(cfg, env, ViewOf(s, scope, s.operations[scope]), s.operations[scope], intent)))
  {
    var scope := ScopeOf(intent.header);
    var op := s.operations[scope];
    var view := ViewOf(s, scope, op);
    var r := ContinueOp(cfg, env, view, op, intent);
    if r.Changed? {
      assert SoundOperation(cfg, scope, op);
      ContinueAccounts(cfg, env, view, op, intent);
      ContinueStamps(cfg, env, view, op, intent);
      ChangedMayAct(cfg, env, view, op, intent);
      AbsorbTracks(cfg, env, s, intent, r);
    }
  }

  lemma AbsorbTracks(cfg: Config, env: Env, s: State, intent: Intent, r: OpResult)
    requires AuditRefines(s) && Tracked(cfg, s) && ScopeOf(intent.header) in s.operations && r.Changed?
    requires intent.header.requestDigest == RequestDigest(intent) && MayAct(cfg, intent) && Accounted(ScopeOf(intent.header), r.op)
    requires r.op.debt.Some? ==> StampFits(s.operations[ScopeOf(intent.header)].debt, r.op.debt.value, s.nextAudit + 1, intent, r.effect)
    ensures Tracked(cfg, Absorb(cfg, env, s, intent, r))
  {
    var scope := ScopeOf(intent.header);
    var id := s.nextAudit + if r.effect == MintAudit then 2 else 1;
    AbsorbAdds(cfg, env, s, intent, r);
    DigestAttributes(cfg, intent, id, r.op, env.now);
    AddingTracks(cfg, s, Absorb(cfg, env, s, intent, r), scope, r.op,
                 FactOf(id, intent.header, KindOf(intent.payload), r.op, env.now), intent, r.effect);
  }

  lemma SameTracks(cfg: Config, s: State, s': State)
    requires Tracked(cfg, s) && s'.operations == s.operations && s'.auditFacts == s.auditFacts && s'.nextAudit == s.nextAudit
    ensures Tracked(cfg, s')
  {
  }

  lemma FlagAccounts(scope: OperationScope, op: Operation)
    requires Accounted(scope, op)
    ensures Accounted(scope, op.(integrityConflict := true))
  {
    SameEvidenceBinds(scope, op, op.(integrityConflict := true));
  }

  lemma FlagTracks(cfg: Config, s: State, scope: OperationScope)
    requires Tracked(cfg, s) && scope in s.operations
    ensures Tracked(cfg, Flagged(s, scope))
  {
    FlagAccounts(scope, s.operations[scope]);
    FlaggedTracks(cfg, s, Flagged(s, scope), scope, s.operations[scope].(integrityConflict := true));
  }

  lemma FlaggedTracks(cfg: Config, s: State, s': State, scope: OperationScope, op: Operation)
    requires Tracked(cfg, s) && scope in s.operations && s' == s.(operations := s.operations[scope := op])
    requires Accounted(scope, op) && op.debt == s.operations[scope].debt
    ensures Tracked(cfg, s')
  {
  }

  lemma EnteredAdds(cfg: Config, env: Env, s: State, draft: Draft, h: Header, digest: Digest)
    requires draft.state.operations == s.operations && draft.state.auditFacts == s.auditFacts && draft.state.nextAudit == s.nextAudit
    ensures var op := Settle(env, NewOperation(env, s, h, draft.candidate, digest), PrepareKind, digest, None, NoEffect).op;
      && Adds(s, Entered(cfg, env, s, draft, h, digest).state, ScopeOf(h), op, FactOf(s.nextAudit + 1, h, PrepareKind, op, env.now))
      && op.debt.None? && Accounted(ScopeOf(h), op)
  {
    var op := Settle(env, NewOperation(env, s, h, draft.candidate, digest), PrepareKind, digest, None, NoEffect).op;
    AuditedAppends(cfg, env, Persisted(draft.state, ScopeOf(h), op), h, PrepareKind, op);
  }

  lemma DraftKeepsLog(cfg: Config, s: State, h: Header, p: PreparePayload)
    requires ValidPrepare(cfg.nameOf, p)
    ensures var b := Drafted(cfg, s, h, p).state;
      b.operations == s.operations && b.auditFacts == s.auditFacts && b.nextAudit == s.nextAudit
  {
  }

  lemma PrepareKeepsOthers(cfg: Config, env: Env, s: State, intent: Intent, x: OperationScope)
    requires intent.payload.Prepare? && ValidIntent(cfg.nameOf, intent) && ScopeOf(intent.header) !in s.operations && x in s.operations
    ensures var s' := PrepareStep(cfg, env, s, intent).state; x in s'.operations && s'.operations[x] == s.operations[x]
  {
    var h, p := intent.header, intent.payload.prepare;
    if PrepareRefusal(cfg, env, s, h, p).None? {
      DraftKeepsLog(cfg, s, h, p);
      EnteredAdds(cfg, env, s, Drafted(cfg, s, h, p), h, RequestDigest(intent));
    }
  }

  lemma PrepareTracks(cfg: Config, env: Env, s: State, intent: Intent)
    requires AuditRefines(s) && Tracked(cfg, s) && intent.payload.Prepare? && ValidIntent(cfg.nameOf, intent)
    requires intent.header.requestDigest == RequestDigest(intent)
    ensures Tracked(cfg, PrepareStep(cfg, env, s, intent).state)
  {
    var h, p, digest := intent.header, intent.payload.prepare, RequestDigest(intent);
    if PrepareRefusal(cfg, env, s, h, p).None? {
      var draft := Drafted(cfg, s, h, p);
      DraftKeepsLog(cfg, s, h, p);
      if env.fault(BeforeCandidatePersistence).Some? {
        SameTracks(cfg, s, draft.state);
      } else {
        EnteredTracks(cfg, env, s, draft, intent);
      }
    }
  }

  lemma EnteredTracks(cfg: Config, env: Env, s: State, draft: Draft, intent: Intent)
    requires AuditRefines(s) && Tracked(cfg, s) && intent.payload.Prepare? && MayAct(cfg, intent)
    requires draft.state.operations == s.operations && draft.state.auditFacts == s.auditFacts && draft.state.nextAudit == s.nextAudit
    requires intent.header.requestDigest == RequestDigest(intent)
    ensures Tracked(cfg, Entered(cfg, env, s, draft, intent.header, RequestDigest(intent)).state)
  {
    var h, digest := intent.header, RequestDigest(intent);
    var op := Settle(env, NewOperation(env, s, h, draft.candidate, digest), PrepareKind, digest, None, NoEffect).op;
    EnteredAdds(cfg, env, s, draft, h, digest);
    DigestAttributes(cfg, intent, s.nextAudit + 1, op, env.now);
    AddingTracks(cfg, s, Entered(cfg, env, s, draft, h, digest).state, ScopeOf(h), op,
                 FactOf(s.nextAudit + 1, h, PrepareKind, op, env.now), intent, NoEffect);
  }

  lemma MutateTracks(cfg: Config, env: Env, s: State, intent: Intent)
    requires Inv(cfg, s) && Pinned(s) && Tracked(cfg, s)
    ensures Tracked(cfg, Mutate(cfg, env, s, intent).state)
  {
    MutateRoute(cfg, env, s, intent);
    match RouteOf(cfg, s, intent)
    case Refused =>
    case Prepares => PrepareTracks(cfg, env, s, intent);
    case Flags => FlagTracks(cfg, s, ScopeOf(intent.header));
    case Continues => ContinueTracks(cfg, env, s, intent);
  }

  lemma TakesTracks(cfg: Config, s: State, s': State)
    requires Inv(cfg, s) && Tracked(cfg, s) && Takes(cfg, s, s')
    ensures Tracked(cfg, s')
  {
    var input: Input :| Pinned(s) && s' == Next(cfg, s, input);
    match input
    case Submit(env, intent) => MutateTracks(cfg, env, s, intent);
    case Rebuild(env, task, limit) =>
      RebuildShape(cfg, env, s, task, limit);
      SameTracks(cfg, s, s');
  }

  lemma ReachableTracked(cfg: Config, s: State)
    requires Reachable(cfg, s)
    ensures Tracked(cfg, s)
  {
    var step := (a: State, b: State) => Takes(cfg, a, b);
    var kept := (a: State) => Inv(cfg, a) && Tracked(cfg, a);
    InitialState(cfg);
    forall a, b | kept(a) && step(a, b) ensures kept(b) {
      TakesKeepsInv(cfg, a, b);
      TakesTracks(cfg, a, b);
    }
    R.Invariance(step, kept, EMPTY_STATE, s);
  }

  // ---- What follows for every reachable state ----

  /** Every retained audit fact names an authority that may take its action, for
      reconcile in the mode that was requested, and carries the digest of that
      authority's request for this action on this operation. */
  lemma FactsAreAuthorized(cfg: Config, s: State, i: nat)
    requires Reachable(cfg, s) && i < |s.auditFacts|
    ensures var f := s.auditFacts[i];
      && f.requestDigest.Sha256? && f.requestDigest.canonical.OfRequest?
      && var h, p := f.requestDigest.canonical.header, f.requestDigest.canonical.payload;
         && ScopeOf(h) == Subject(f) && h.authority == f.authority && KindOf(p) == f.action
         && (!p.Reconcile? ==> Authorized(cfg, f.authority, f.action))
         && (p.Reconcile? ==> ReconcileAuthorized(cfg, f.authority, p.mode))
  {
    ReachableTracked(cfg, s);
    assert Attributed(cfg, s.auditFacts[i]);
  }

  /** Each final state and each debt has the outcome of its own flow on record. */
  lemma JournalTellsState(cfg: Config, s: State, scope: OperationScope)
    requires Reachable(cfg, s) && scope in s.operations
    ensures Journaled(s.operations[scope])
  {
    ReachableTracked(cfg, s);
    assert Accounted(scope, s.operations[scope]);
  }

  /** The evidence committed with a version binds that version: its operation and
      request, its place in the history, its claim, and a manifest digest that
      recomputes from the stored members. */
  lemma EvidenceBindsCommit(cfg: Config, s: State, v: ArtifactVersionID)
    requires Reachable(cfg, s) && v in s.activated
    ensures var a := s.activated[v];
      var e, scope := a.evidence, OperationScope(a.domain, a.task, a.operation);
      && e.version == v && e.currentHead == v && ScopeOfEvidence(e) == scope && e.streamRevision == a.streamRevision
      && e.kind == a.kind && e.parent == a.parent && e.phaseRun == a.phaseRun && e.lineageDigest == a.lineageDigest
      && e.manifestDigest == ManifestDigestOf(a.schema, v, a.task, a.kind, a.parent, a.lineageDigest, a.members)
      && scope in s.operations && s.operations[scope].evidence == Some(e)
      && e.requestDigest == s.operations[scope].requestDigest
      && e.generation == s.operations[scope].generation && e.fence == s.operations[scope].fence
  {
    ReachableTracked(cfg, s);
    CommittedIsSound(cfg, s, v);
    ReachableHistory(cfg, s);
    assert IsCommitted(s, v);
    var scope := s.versionIndex[v];
    assert Accounted(scope, s.operations[scope]);
    assert EvidenceBinds(scope, s.operations[scope], s.activated[v].evidence);
  }

  function ScopeOfEvidence(e: PublicationEvidence): OperationScope { OperationScope(e.domain, e.task, e.operation) }

  /** The audit identity a debt resolution names was minted for it, but no
      retained fact carries it: its own fact carries the next one. */
  lemma ResolutionAuditIsUnclaimed(cfg: Config, s: State, scope: OperationScope)
    requires Reachable(cfg, s) && scope in s.operations && s.operations[scope].debt.Some?
    ensures var d := s.operations[scope].debt.value;
      && (d.resolutionAudit == 0 <==> d.resolutionClass == NoResolution)
      && (forall i | 0 <= i < |s.auditFacts| :: s.auditFacts[i].id != d.resolutionAudit)
      && (d.resolutionAudit != 0 ==>
            d.resolutionAudit < s.nextAudit && exists i :: 0 <= i < |s.auditFacts| && IsResolution(s.auditFacts[i], scope, d))
  {
    ReachableInv(cfg, s);
    ReachableTracked(cfg, s);
    assert Stamped(s.auditFacts, s.nextAudit, scope, s.operations[scope].debt.value);
  }
}
