/** Lifecycle safety over whole runs: what is final stays final, a failed
    verification never publishes, and residue and cleanup debt close only on
    evidence. */
module Safety {
  import opened Basics
  import opened Facts
  import opened Records
  import opened ResidueRules
  import opened Manifests
  import opened Machine
  import opened Lifecycle
  import opened Invariants
  import opened Backlog
  import opened Steps
  import opened Runs
  import opened Trail

  // ---- States ----

  /** Activated, rejected and cancelled are final, and an operation's candidate
      never changes from prepare on. */
  lemma TerminalIsFinal(cfg: Config, s: State, s': State, scope: OperationScope)
    requires Reachable(cfg, s) && Later(cfg, s, s') && scope in s.operations
    ensures scope in s'.operations && s'.operations[scope].candidate == s.operations[scope].candidate
    ensures Terminal(s.operations[scope].state) ==>
      s'.operations[scope].state == s.operations[scope].state && (s.operations[scope].evidence.Some? ==> s'.operations[scope].evidence == s.operations[scope].evidence)
  {
    LaterSound(cfg, s, s', scope);
  }

  /** An operation whose verification was ever recorded as failed is never
      verified or activated afterwards. */
  lemma FailedNeverPublishes(cfg: Config, s: State, s': State, scope: OperationScope)
    requires Reachable(cfg, s) && Later(cfg, s, s') && scope in s.operations
    requires s.operations[scope].verification.Some? && s.operations[scope].verification.value.state == VFailed
    ensures scope in s'.operations && s'.operations[scope].verification == s.operations[scope].verification
    ensures s'.operations[scope].state != OpVerified && s'.operations[scope].state != OpActivated
  {
    LaterSound(cfg, s, s', scope);
  }

  /** Only a verified operation is ever activated, and exactly the activated ones
      carry publication evidence. */
  lemma ActivatedWasVerified(cfg: Config, s: State, scope: OperationScope)
    requires Reachable(cfg, s) && scope in s.operations
    ensures var op := s.operations[scope];
      && (op.state == OpActivated ==> op.verification.Some? && op.verification.value.state == VVerified)
      && (op.state == OpActivated <==> op.evidence.Some?)
      && (op.verification.Some? ==> op.verification.value.pendingSlots == [])
  {
    ReachableSound(cfg, s, scope);
  }

  // ---- Residue and debt ----

  /** Residue exists exactly for rejected and cancelled operations and names the
      candidate's staging; a debt exists exactly when an assembly was recorded and
      names it; a stored disposition is open or backed by a valid stored receipt,
      so expired is never stored. */
  lemma ResidueStructure(cfg: Config, s: State, scope: OperationScope)
    requires Reachable(cfg, s) && scope in s.operations
    ensures var op := s.operations[scope];
      && (op.residue.Some? <==> op.state == OpRejected || op.state == OpCancelled)
      && (op.residue.Some? ==>
            var r := op.residue.value;
            && r.staging == op.candidate.staging && r.disposition != Expired && r.disposition != NoDisposition
            && (r.disposition != Pending && r.disposition != ReleaseRequested ==>
                  r.receipt.Some? && ValidReceipt(r.receipt.value, cfg.durableObjectAuthority)
                  && r.disposition == ApplyReceipt(r.receipt.value.outcome)))
      && (op.debt.Some? <==> op.residue.Some? && op.residue.value.assembly.Some?)
      && (op.debt.Some? ==> DebtMatches(op.debt.value, op.residue.value) && op.debt.value.id == op.residue.value.debtID)
  {
    ReachableSound(cfg, s, scope);
  }

  /** Closure by evidence is final: the receipt, the disposition and the attempt
      count of a closed residue never change again. */
  lemma ClosureIsFinal(cfg: Config, s: State, s': State, scope: OperationScope)
    requires Reachable(cfg, s) && Later(cfg, s, s') && scope in s.operations && s.operations[scope].residue.Some?
    requires ClosedByEvidence(s.operations[scope].residue.value.disposition)
    ensures scope in s'.operations && s'.operations[scope].residue.Some?
    ensures var a, b := s.operations[scope].residue.value, s'.operations[scope].residue.value;
      b.disposition == a.disposition && b.receipt == a.receipt && b.attempts == a.attempts && b.staging == a.staging
  {
    LaterSound(cfg, s, s', scope);
  }

  type ReleasePort = (seq<Staging>, SafetyEpoch) -> ReleaseAnswer

  lemma ClosedReleaseIsIdle(cfg: Config, env: Env, other: ReleasePort, op: Operation, h: Header)
    requires op.residue.Some? && ClosedByEvidence(op.residue.value.disposition)
    ensures RunRelease(cfg, env, op, h).op == op
    ensures RunRelease(cfg, env.(release := other), op, h) == RunRelease(cfg, env, op, h)
  {
  }

  lemma ReconcilingIgnoresPort(cfg: Config, env: Env, other: ReleasePort, op: Operation, h: Header, mode: ReconcileMode)
    requires mode == CompleteRelease ==> op.residue.Some? && ClosedByEvidence(op.residue.value.disposition)
    ensures ReconcileDecision(cfg, env.(release := other), op, h, mode) == ReconcileDecision(cfg, env, op, h, mode)
  {
    match mode
    case CompleteRelease => ClosedReleaseIsIdle(cfg, env, other, op.(reconcileMode := mode), h);
    case _ =>
  }

  lemma ReconcileIgnoresPort(cfg: Config, env: Env, other: ReleasePort, op: Operation, h: Header, mode: ReconcileMode, digest: Digest)
    requires mode == CompleteRelease ==> op.residue.Some? && ClosedByEvidence(op.residue.value.disposition)
    ensures ReconcileOp(cfg, env.(release := other), op, h, mode, digest) == ReconcileOp(cfg, env, op, h, mode, digest)
  {
    ReconcilingIgnoresPort(cfg, env, other, op, h, mode);
  }

  lemma ReleaseIgnoresPort(cfg: Config, env: Env, other: ReleasePort, op: Operation, h: Header)
    requires op.residue.Some? && ClosedByEvidence(op.residue.value.disposition)
    ensures ReleaseOp(cfg, env.(release := other), op, h) == ReleaseOp(cfg, env, op, h)
  {
    ClosedReleaseIsIdle(cfg, env, other, op, h);
  }

  lemma FinishIgnoresPort(env: Env, other: ReleasePort, kind: IntentKind, digest: Digest, d: Decided)
    ensures Finish(env.(release := other), kind, digest, d) == Finish(env, kind, digest, d)
  {
  }

  lemma VerifyIgnoresPort(cfg: Config, env: Env, other: ReleasePort, op: Operation, h: Header, v: VerifyPayload, digest: Digest)
    requires op.candidate.runtimeRefs != []
    ensures VerifyOp(cfg, env.(release := other), op, h, v, digest) == VerifyOp(cfg, env, op, h, v, digest)
  {
    FinishIgnoresPort(env, other, VerifyKind, digest, VerifyDecision(cfg, env, op, h, v));
  }

  lemma ActivateIgnoresPort(cfg: Config, env: Env, other: ReleasePort, view: View, op: Operation, h: Header, digest: Digest)
    ensures ActivateOp(cfg, env.(release := other), view, op, h, digest) == ActivateOp(cfg, env, view, op, h, digest)
  {
    FinishIgnoresPort(env, other, ActivateKind, digest, ActivateDecision(cfg, env, view, op, h));
  }

  lemma DebtIgnoresPort(cfg: Config, env: Env, other: ReleasePort, view: View, op: Operation, h: Header, p: Payload, digest: Digest)
    ensures p.Assemble? ==>
      AssembleOp(cfg, env.(release := other), view, op, h, p.assembly, digest) == AssembleOp(cfg, env, view, op, h, p.assembly, digest)
    ensures p.Resolve? ==>
      ResolveOp(cfg, env.(release := other), view, op, h, p.class_, p.evidence, p.approval, p.expiresAt, digest)
        == ResolveOp(cfg, env, view, op, h, p.class_, p.evidence, p.approval, p.expiresAt, digest)
  {
    if p.Assemble? { FinishIgnoresPort(env, other, AssembleKind, digest, AssembleDecision(cfg, env, view, op, h, p.assembly)); }
    if p.Resolve? {
      FinishIgnoresPort(env, other, ResolveKind, digest, ResolveDecision(cfg, env, view, op, h, p.class_, p.evidence, p.approval, p.expiresAt));
    }
  }

  lemma EndIgnoresPort(cfg: Config, env: Env, other: ReleasePort, op: Operation, h: Header, p: Payload, digest: Digest)
    ensures p.Reject? ==>
      RejectOp(cfg, env.(release := other), op, h, p.rejectReason, digest) == RejectOp(cfg, env, op, h, p.rejectReason, digest)
    ensures p.Cancel? ==>
      CancelOp(cfg, env.(release := other), op, h, p.cancelReason, digest) == CancelOp(cfg, env, op, h, p.cancelReason, digest)
  {
    if p.Reject? { FinishIgnoresPort(env, other, RejectKind, digest, RejectDecision(cfg, env, op, h, p.rejectReason)); }
    if p.Cancel? { FinishIgnoresPort(env, other, CancelKind, digest, CancelDecision(cfg, env, op, h, p.cancelReason)); }
  }

  lemma ContinueIgnoresPort(cfg: Config, env: Env, other: ReleasePort, view: View, op: Operation, intent: Intent)
    requires op.candidate.runtimeRefs != [] && !intent.payload.Prepare?
    requires op.residue.Some? && ClosedByEvidence(op.residue.value.disposition)
    ensures ContinueOp(cfg, env.(release := other), view, op, intent) == ContinueOp(cfg, env, view, op, intent)
  {
    var h, p, digest := intent.header, intent.payload, RequestDigest(intent);
    match intent.payload
    case Verify(v) => VerifyIgnoresPort(cfg, env, other, op, h, v, digest);
    case Activate => ActivateIgnoresPort(cfg, env, other, view, op, h, digest);
    case Reconcile(mode) => ReconcileIgnoresPort(cfg, env, other, op, h, mode, digest);
    case Release => ReleaseIgnoresPort(cfg, env, other, op, h);
    case Reject(_, _) => EndIgnoresPort(cfg, env, other, op, h, p, digest);
    case Cancel(_) => EndIgnoresPort(cfg, env, other, op, h, p, digest);
    case Assemble(_) => DebtIgnoresPort(cfg, env, other, view, op, h, p, digest);
    case Resolve(_, _, _, _) => DebtIgnoresPort(cfg, env, other, view, op, h, p, digest);
  }

  lemma AuditedIgnoresPort(cfg: Config, env: Env, other: ReleasePort, s: State, h: Header, kind: IntentKind, op: Operation)
    ensures Audited(cfg, env.(release := other), s, h, kind, op) == Audited(cfg, env, s, h, kind, op)
  {
  }

  lemma AbsorbIgnoresPort(cfg: Config, env: Env, other: ReleasePort, s: State, intent: Intent, r: OpResult)
    ensures Absorb(cfg, env.(release := other), s, intent, r) == Absorb(cfg, env, s, intent, r)
  {
    if r.Changed? {
      AuditedIgnoresPort(cfg, env, other, Affected(s, ScopeOf(intent.header), r.op, r.effect), intent.header, KindOf(intent.payload), r.op);
    }
  }

  /** Once a residue is closed by evidence no submission to its operation depends
      on what the release port would answer: nothing is released twice. */
  lemma ClosedIsNotReleasedAgain(cfg: Config, env: Env, other: ReleasePort, s: State, intent: Intent)
    requires Pinned(s) && ScopeOf(intent.header) in s.operations && s.operations[ScopeOf(intent.header)].residue.Some?
    requires ClosedByEvidence(s.operations[ScopeOf(intent.header)].residue.value.disposition)
    ensures Mutate(cfg, env.(release := other), s, intent).state == Mutate(cfg, env, s, intent).state
  {
    var scope := ScopeOf(intent.header);
    MutateRoute(cfg, env, s, intent);
    MutateRoute(cfg, env.(release := other), s, intent);
    if RouteOf(cfg, s, intent).Continues? {
      ContinueIgnoresPort(cfg, env, other, ViewOf(s, scope, s.operations[scope]), s.operations[scope], intent);
      AbsorbIgnoresPort(cfg, env, other, s, intent, ContinueOp(cfg, env, ViewOf(s, scope, s.operations[scope]), s.operations[scope], intent));
    }
  }

  /** The resolution of a debt is written once. Unless it is an accepted exception
      it rests on evidence from the registered authority that binds exactly this
      debt's resource identity, generation and fence. */
  lemma ResolutionIsWrittenOnce(cfg: Config, s: State, s': State, scope: OperationScope)
    requires Reachable(cfg, s) && Later(cfg, s, s') && scope in s.operations && s.operations[scope].debt.Some?
    requires s.operations[scope].debt.value.resolutionClass != NoResolution
    ensures scope in s'.operations && s'.operations[scope].debt.Some?
    ensures var a, b := s.operations[scope].debt.value, s'.operations[scope].debt.value;
      && b.id == a.id && b.resolutionClass == a.resolutionClass && b.resolutionReason == a.resolutionReason
      && b.resolutionEvidence == a.resolutionEvidence && b.resolvedAt == a.resolvedAt && b.approval == a.approval
      && (a.resolutionClass == AcceptedException
          || (a.resolutionEvidence.Some? && ValidResolutionEvidence(a.resolutionEvidence.value, cfg.durableObjectAuthority, b)))
  {
    ReachableSound(cfg, s, scope);
    LaterSound(cfg, s, s', scope);
  }

  // ---- A resolved debt can be blocked again ----

  /** The release reaches the port, which answers with a valid blocked receipt. */
  ghost predicate Blocks(cfg: Config, env: Env, op: Operation, h: Header) {
    && op.residue.Some? && (op.state == OpRejected || op.state == OpCancelled)
    && h.generation == op.generation && h.fence == op.fence && !ClosedByEvidence(op.residue.value.disposition)
    && var answer := env.release(op.residue.value.staging, h.safetyEpoch);
       answer.Resolved? && ValidReceipt(answer.receipt, cfg.durableObjectAuthority) && answer.receipt.outcome == OutcomeBlocked
  }

  lemma AttemptStatus(cfg: Config, env: Env, op: Operation, h: Header)
    requires op.residue.Some? && op.debt.Some?
    ensures var after := Attempted(cfg, env, op, h).op;
      var answer := env.release(op.residue.value.staging, h.safetyEpoch);
      && after.debt.Some?
      && after.debt.value.status ==
         if answer.Resolved? && ValidReceipt(answer.receipt, cfg.durableObjectAuthority) && answer.receipt.outcome == OutcomeBlocked
         then DebtBlocked else op.debt.value.status
  {
  }

  /** On a sound operation a release leaves a resolved debt resolved exactly when
      it does not bring back a blocked receipt; then it leaves it blocked. */
  lemma ReleaseReopensIff(cfg: Config, env: Env, scope: OperationScope, op: Operation, h: Header)
    requires SoundOperation(cfg, scope, op) && op.debt.Some? && op.debt.value.status == DebtResolved
    ensures var after := RunRelease(cfg, env, op, h).op;
      after.debt.Some? && after.debt.value.status == if Blocks(cfg, env, op, h) then DebtBlocked else DebtResolved
  {
    RunReleaseCases(cfg, env, scope, op, h);
    AttemptStatus(cfg, env, Claimed(op), h);
    DebtAlwaysMatches(cfg, scope, op);
  }

  /** The submission is an authorized release of this operation, by either intent,
      that gets past the entry checks and brings back a valid blocked receipt. */
  ghost predicate Reopens(cfg: Config, env: Env, s: State, intent: Intent, scope: OperationScope)
    requires scope in s.operations
  {
    && ScopeOf(intent.header) == scope && EntryRefusal(cfg, intent).None? && Releases(intent.payload) && MayAct(cfg, intent)
    && Blocks(cfg, env, s.operations[scope], intent.header)
  }

  predicate Releases(p: Payload) { p.Release? || p == Reconcile(CompleteRelease) }

  ghost predicate ReopensTo(op: Operation, reopened: bool) {
    op.debt.Some? && op.debt.value.status == if reopened then DebtBlocked else DebtResolved
  }

  lemma ReconcileReopens(cfg: Config, env: Env, scope: OperationScope, op: Operation, h: Header, digest: Digest)
    requires SoundOperation(cfg, scope, op) && op.debt.Some? && op.debt.value.status == DebtResolved
    ensures var r := ReconcileOp(cfg, env, op, h, CompleteRelease, digest);
      && (r.Changed? <==> ReconcileAuthorized(cfg, h.authority, CompleteRelease))
      && (r.Changed? ==> ReopensTo(r.op, Blocks(cfg, env, op, h)))
  {
    ModeKeeps(cfg, scope, op, CompleteRelease);
    ReleaseReopensIff(cfg, env, scope, op.(reconcileMode := CompleteRelease), h);
  }

  lemma ReleaseReopens(cfg: Config, env: Env, scope: OperationScope, op: Operation, h: Header)
    requires SoundOperation(cfg, scope, op) && op.debt.Some? && op.debt.value.status == DebtResolved
    ensures var r := ReleaseOp(cfg, env, op, h);
      && (r.Changed? <==> Authorized(cfg, h.authority, ReleaseKind))
      && (r.Changed? ==> ReopensTo(r.op, Blocks(cfg, env, op, h)))
  {
    ReleaseReopensIff(cfg, env, scope, op, h);
  }

  lemma ReleasingOp(cfg: Config, env: Env, view: View, op: Operation, intent: Intent)
    requires SoundOperation(cfg, ScopeOf(intent.header), op) && op.debt.Some? && op.debt.value.status == DebtResolved
    requires Releases(intent.payload)
    ensures var r := ContinueOp(cfg, env, view, op, intent);
      (r.Changed? <==> MayAct(cfg, intent)) && (r.Changed? ==> ReopensTo(r.op, Blocks(cfg, env, op, intent.header)))
  {
    if intent.payload.Release? {
      ReleaseReopens(cfg, env, ScopeOf(intent.header), op, intent.header);
    } else {
      ReconcileReopens(cfg, env, ScopeOf(intent.header), op, intent.header, RequestDigest(intent));
    }
  }

  /** Nothing else touches a resolved debt. */
  lemma OthersKeepResolved(cfg: Config, env: Env, view: View, op: Operation, intent: Intent)
    requires op.candidate.runtimeRefs != [] && op.debt.Some? && op.debt.value.status == DebtResolved
    requires !intent.payload.Prepare? && !Releases(intent.payload) && ContinueOp(cfg, env, view, op, intent).Changed?
    ensures ContinueOp(cfg, env, view, op, intent).op.debt == op.debt
  {
    match intent.payload
    case Verify(v) => VerifyKeepsDebt(cfg, env, op, intent.header, v, RequestDigest(intent));
    case Assemble(a) => AssembleNeedsNoDebt(cfg, env, view, op, intent.header, a, RequestDigest(intent));
    case Resolve(class_, evidence, approval, expiresAt) =>
      ResolveNeedsOpen(cfg, env, view, op, intent.header, class_, evidence, approval, expiresAt, RequestDigest(intent));
    case Reconcile(mode) => ReportKeepsDebt(cfg, env, op, intent.header, mode, RequestDigest(intent));
    case _ => FinalKeepsDebt(cfg, env, view, op, intent);
  }

  lemma AssembleNeedsNoDebt(cfg: Config, env: Env, view: View, op: Operation, h: Header, a: Assembly, digest: Digest)
    requires op.debt.Some?
    ensures AssembleOp(cfg, env, view, op, h, a, digest).Unchanged?
  {
  }

  lemma ResolveNeedsOpen(
    cfg: Config, env: Env, view: View, op: Operation, h: Header, class_: ResolutionClass,
    evidence: Option<ResolutionEvidence>, approval: string, expiresAt: Instant, digest: Digest)
    requires op.debt.Some? && op.debt.value.status == DebtResolved
    ensures ResolveOp(cfg, env, view, op, h, class_, evidence, approval, expiresAt, digest).Unchanged?
  {
  }

  lemma ReportKeepsDebt(cfg: Config, env: Env, op: Operation, h: Header, mode: ReconcileMode, digest: Digest)
    requires mode != CompleteRelease && ReconcileOp(cfg, env, op, h, mode, digest).Changed?
    ensures ReconcileOp(cfg, env, op, h, mode, digest).op.debt == op.debt
  {
  }

  ghost predicate HasResolved(s: State, scope: OperationScope) {
    scope in s.operations && s.operations[scope].debt.Some? && s.operations[scope].debt.value.status == DebtResolved
  }

  /** The debt of this operation is blocked exactly when `reopened`, resolved otherwise. */
  ghost predicate Stands(s: State, scope: OperationScope, reopened: bool) {
    scope in s.operations && ReopensTo(s.operations[scope], reopened)
  }

  lemma ContinuingOp(cfg: Config, env: Env, view: View, op: Operation, intent: Intent)
    requires SoundOperation(cfg, ScopeOf(intent.header), op) && op.debt.Some? && op.debt.value.status == DebtResolved
    requires !intent.payload.Prepare?
    ensures var r := ContinueOp(cfg, env, view, op, intent);
      ReopensTo(if r.Changed? then r.op else op, Releases(intent.payload) && MayAct(cfg, intent) && Blocks(cfg, env, op, intent.header))
  {
    if Releases(intent.payload) {
      ReleasingOp(cfg, env, view, op, intent);
    } else if ContinueOp(cfg, env, view, op, intent).Changed? {
      OthersKeepResolved(cfg, env, view, op, intent);
    }
  }

  lemma AbsorbedOp(cfg: Config, env: Env, s: State, intent: Intent, r: OpResult, scope: OperationScope)
    requires ScopeOf(intent.header) in s.operations && scope in s.operations
    ensures var s' := Absorb(cfg, env, s, intent, r);
      scope in s'.operations && s'.operations[scope] == if r.Changed? && scope == ScopeOf(intent.header) then r.op else s.operations[scope]
  {
    if r.Changed? { AbsorbShape(cfg, env, s, intent, r); }
  }

  lemma ContinueStands(cfg: Config, env: Env, s: State, intent: Intent, scope: OperationScope)
    requires SoundOperations(cfg, s) && HasResolved(s, scope) && ScopeOf(intent.header) in s.operations && !intent.payload.Prepare?
    requires s.operations[ScopeOf(intent.header)].candidate.runtimeRefs != [] && EntryRefusal(cfg, intent).None?
    ensures var own := ScopeOf(intent.header);
      Stands(Absorb(cfg, env, s, intent, ContinueOp(cfg, env, ViewOf(s, own, s.operations[own]), s.operations[own], intent)), scope,
             Reopens(cfg, env, s, intent, scope))
  {
    var own := ScopeOf(intent.header);
    var view := ViewOf(s, own, s.operations[own]);
    AbsorbedOp(cfg, env, s, intent, ContinueOp(cfg, env, view, s.operations[own], intent), scope);
    if own == scope {
      assert SoundOperation(cfg, own, s.operations[own]);
      ContinuingOp(cfg, env, view, s.operations[own], intent);
    }
  }

  lemma PrepareStands(cfg: Config, env: Env, s: State, intent: Intent, scope: OperationScope)
    requires HasResolved(s, scope) && intent.payload.Prepare? && ValidIntent(cfg.nameOf, intent) && ScopeOf(intent.header) !in s.operations
    ensures HasResolved(PrepareStep(cfg, env, s, intent).state, scope)
  {
    PrepareKeepsOthers(cfg, env, s, intent, scope);
  }

  lemma FlagStands(s: State, flagged: OperationScope, scope: OperationScope)
    requires HasResolved(s, scope) && flagged in s.operations
    ensures HasResolved(Flagged(s, flagged), scope)
  {
  }

  lemma IdleStands(cfg: Config, env: Env, s: State, intent: Intent, scope: OperationScope)
    requires Pinned(s) && HasResolved(s, scope) && !RouteOf(cfg, s, intent).Continues?
    ensures HasResolved(Mutate(cfg, env, s, intent).state, scope)
  {
    MutateRoute(cfg, env, s, intent);
    match RouteOf(cfg, s, intent)
    case Refused =>
    case Prepares => PrepareStands(cfg, env, s, intent, scope);
    case Flags => FlagStands(s, ScopeOf(intent.header), scope);
  }

  lemma ReopeningContinues(cfg: Config, env: Env, s: State, intent: Intent, scope: OperationScope)
    requires scope in s.operations && Reopens(cfg, env, s, intent, scope)
    ensures RouteOf(cfg, s, intent).Continues?
  {
  }

  /** A resolved debt does not stay resolved for ever. Across any submission to any
      reachable state it becomes blocked exactly when the submission is an authorized
      release of its operation that reaches the port and brings back a valid blocked
      receipt; every other submission leaves it resolved. */
  lemma ResolvedStaysUnlessBlocked(cfg: Config, env: Env, s: State, intent: Intent, scope: OperationScope)
    requires Reachable(cfg, s) && HasResolved(s, scope)
    ensures Pinned(s) && Stands(Mutate(cfg, env, s, intent).state, scope, Reopens(cfg, env, s, intent, scope))
  {
    ReachableInv(cfg, s);
    InvPins(cfg, s);
    if RouteOf(cfg, s, intent).Continues? {
      MutateContinues(cfg, env, s, intent);
      ContinueStands(cfg, env, s, intent, scope);
    } else {
      IdleStands(cfg, env, s, intent, scope);
      if Reopens(cfg, env, s, intent, scope) { ReopeningContinues(cfg, env, s, intent, scope); }
    }
  }

  /** And such a debt is never resolved again: its one resolution is on record,
      so every further resolve is a replay or a conflict. */
  lemma ReopenedNeverResolves(cfg: Config, s: State, s': State, scope: OperationScope)
    requires Reachable(cfg, s) && Later(cfg, s, s') && scope in s.operations && s.operations[scope].debt.Some?
    requires s.operations[scope].debt.value.resolutionClass != NoResolution && s.operations[scope].debt.value.status != DebtResolved
    ensures scope in s'.operations && s'.operations[scope].debt.Some? && s'.operations[scope].debt.value.status != DebtResolved
  {
    LaterSound(cfg, s, s', scope);
  }

  // ---- Sinks ----

  /** Over any run each sink accepts each fact at most once, and exactly the
      accepted facts are recorded as delivered. */
  lemma SinksAcceptOnce(cfg: Config, s: State, s': State)
    requires Reachable(cfg, s) && Later(cfg, s, s')
    ensures s.sinkLog <= s'.sinkLog && Distinct(s'.sinkLog)
    ensures forall id :: AuditAccepted(id) in s'.sinkLog <==> id in s'.deliveries && s'.deliveries[id].audit
    ensures forall id :: TelemetryAccepted(id) in s'.sinkLog <==> id in s'.deliveries && s'.deliveries[id].telemetry
  {
    LaterGrows(cfg, s, s');
    LaterInv(cfg, s, s');
  }

  /** With both sinks configured and accepting, one redrive delivers exactly
      min(limit, undelivered) of the Task's facts and touches no other state, so
      repeated redrives drain the backlog. */
  lemma RebuildDrains(cfg: Config, env: Env, s: State, task: TaskID, limit: nat)
    requires Reachable(cfg, s) && SinksAccept(cfg, env, s.auditFacts) && task != "" && ValidLimit(limit)
    ensures var s' := RebuildStep(cfg, env, s, task, limit);
      var before := UndeliveredCount(s.deliveries, s.auditFacts, task);
      && s' == s.(deliveries := s'.deliveries, sinkLog := s'.sinkLog)
      && UndeliveredCount(s'.deliveries, s'.auditFacts, task) == before - Smaller(limit, before)
  {
    ReachableInv(cfg, s);
    RedriveDrains(cfg, env, Projection(s.deliveries, s.sinkLog), s.auditFacts, task, limit);
  }
}
