/** One atomic mutation keeps every invariant of the state. */
module Steps {
  import opened Basics
  import opened Facts
  import opened Records
  import opened Evidence
  import opened ResidueRules
  import opened Manifests
  import opened Machine
  import opened Lifecycle
  import opened Invariants
  import opened Preparation
  import opened Backlog

  // ---- What a continuing step adds around its operation ----

  /** Only activation commits, and it commits the candidate of a verified
      operation onto the head its parent names. */
  ghost predicate EffectFits(s: State, scope: OperationScope, op: Operation, intent: Intent, r: OpResult)
    requires r.Changed?
  {
    && SameIdentity(s, op, r.op, r.effect)
    && (r.effect.Commit? <==> intent.payload.Activate?)
    && (!r.effect.Commit? ==> SameCommitment(op, r.op))
    && (r.effect.Commit? ==> CommitFits(s, scope, op, r.op, r.effect.version))
  }

  ghost predicate CommitFits(s: State, scope: OperationScope, op: Operation, op': Operation, a: ActivatedVersion) {
    var stream := StreamOf(s, TaskOf(scope));
    && op.state == OpVerified && op'.state == OpActivated && op'.candidate == op.candidate
    && a.version == op.candidate.version && a.domain == scope.domain && a.task == scope.task && a.operation == scope.operation
    && a.streamRevision == stream.revision + 1 && Snapshots(a, op')
    && (op.candidate.kind == FirstGeneration ==> stream.head == NO_VERSION)
    && (op.candidate.kind == ManualEdit ==> op.candidate.parent == stream.head)
  }

  /** A step that neither mints a debt nor enters or leaves Activated. */
  ghost predicate Quiet(op: Operation, op': Operation) {
    && SameCommitment(op, op') && op'.debt.Some? == op.debt.Some?
    && (op.debt.Some? ==> op'.debt.value.id == op.debt.value.id)
  }

  lemma AttemptIsQuiet(cfg: Config, env: Env, op: Operation, h: Header)
    requires op.residue.Some?
    ensures Quiet(op, Attempted(cfg, env, op, h).op)
  {
    var waiting := op.(residue := Some(op.residue.value.(requiresReconciliation := true)));
    match env.release(op.residue.value.staging, h.safetyEpoch)
    case NoPort => WithAttemptIsQuiet(waiting, Unavailable, env.now);
    case PortError(code) => WithAttemptIsQuiet(op, ReleaseErrorCategory(code), env.now);
    case Unresolved => WithAttemptIsQuiet(waiting, Unavailable, env.now);
    case Resolved(receipt) => WithReceiptIsQuiet(op, receipt, env.now);
  }

  lemma WithAttemptIsQuiet(op: Operation, category: ErrorCategory, now: Instant)
    requires op.residue.Some?
    ensures Quiet(op, WithAttempt(op, category, now))
  {
  }

  lemma WithReceiptIsQuiet(op: Operation, receipt: ReleaseReceipt, now: Instant)
    requires op.residue.Some?
    ensures Quiet(op, WithReceipt(op, receipt, now))
  {
  }

  lemma ReleaseIsQuiet(cfg: Config, env: Env, scope: OperationScope, op: Operation, h: Header)
    requires SoundOperation(cfg, scope, op)
    ensures Quiet(op, RunRelease(cfg, env, op, h).op)
  {
    RunReleaseCases(cfg, env, scope, op, h);
    if RunRelease(cfg, env, op, h).op != op {
      AttemptIsQuiet(cfg, env, Claimed(op), h);
    }
  }

  lemma ReconcileIsQuiet(cfg: Config, env: Env, scope: OperationScope, op: Operation, h: Header, mode: ReconcileMode, digest: Digest)
    requires SoundOperation(cfg, scope, op) && ReconcileOp(cfg, env, op, h, mode, digest).Changed?
    ensures Quiet(op, ReconcileOp(cfg, env, op, h, mode, digest).op)
    ensures ReconcileOp(cfg, env, op, h, mode, digest).effect == NoEffect
  {
    if mode == CompleteRelease {
      RecheckedKeeps(cfg, env, scope, op, mode);
      ReleaseIsQuiet(cfg, env, scope, op.(reconcileMode := mode), h);
    }
  }

  lemma VerifyIsQuiet(cfg: Config, env: Env, op: Operation, h: Header, v: VerifyPayload, digest: Digest)
    requires op.candidate.runtimeRefs != [] && VerifyOp(cfg, env, op, h, v, digest).Changed?
    requires op.state == OpActivated <==> op.evidence.Some?
    ensures Quiet(op, VerifyOp(cfg, env, op, h, v, digest).op)
    ensures VerifyOp(cfg, env, op, h, v, digest).effect == NoEffect
  {
    JudgedIsQuiet(env, op, digest, Evaluate(RegistryOf(cfg), env.capability, op.candidate, h, v));
  }

  lemma JudgedIsQuiet(env: Env, op: Operation, digest: Digest, verdict: Verdict)
    requires op.state != OpActivated
    ensures Judged(env, op, digest, verdict).Changed? && Judged(env, op, digest, verdict).effect == NoEffect
    ensures Quiet(op, Judged(env, op, digest, verdict).op)
  {
  }

  lemma ActivateCommits(cfg: Config, env: Env, s: State, scope: OperationScope, op: Operation, h: Header, digest: Digest)
    requires scope == ScopeOf(h) && SoundOperation(cfg, scope, op)
    requires ActivateOp(cfg, env, ViewOf(s, scope, op), op, h, digest).Changed?
    ensures var r := ActivateOp(cfg, env, ViewOf(s, scope, op), op, h, digest);
      r.effect.Commit? && CommitFits(s, scope, op, r.op, r.effect.version) && SameIdentity(s, op, r.op, r.effect)
  {
  }

  lemma ContinueEffect(cfg: Config, env: Env, s: State, scope: OperationScope, op: Operation, intent: Intent)
    requires SoundOperation(cfg, scope, op) && scope == ScopeOf(intent.header) && !intent.payload.Prepare?
    requires ContinueOp(cfg, env, ViewOf(s, scope, op), op, intent).Changed?
    ensures EffectFits(s, scope, op, intent, ContinueOp(cfg, env, ViewOf(s, scope, op), op, intent))
  {
    var h, digest, view := intent.header, RequestDigest(intent), ViewOf(s, scope, op);
    var r := ContinueOp(cfg, env, view, op, intent);
    match intent.payload
    case Verify(v) => VerifyIsQuiet(cfg, env, op, h, v, digest); QuietFits(s, scope, op, intent, r);
    case Activate => ActivateCommits(cfg, env, s, scope, op, h, digest);
    case Reconcile(mode) => ReconcileIsQuiet(cfg, env, scope, op, h, mode, digest); QuietFits(s, scope, op, intent, r);
    case Release => ReleaseIsQuiet(cfg, env, scope, op, h); QuietFits(s, scope, op, intent, r);
    case Reject(reason, _) => RejectIsQuiet(cfg, env, op, h, reason, digest); QuietFits(s, scope, op, intent, r);
    case Cancel(reason) => CancelIsQuiet(cfg, env, op, h, reason, digest); QuietFits(s, scope, op, intent, r);
    case Assemble(a) => AssembleMints(cfg, env, view, op, h, a, digest);
    case Resolve(class_, evidence, approval, expiresAt) =>
      ResolveIsQuiet(cfg, env, view, op, h, class_, evidence, approval, expiresAt, digest);
  }

  lemma RejectIsQuiet(cfg: Config, env: Env, op: Operation, h: Header, reason: RejectReason, digest: Digest)
    requires RejectOp(cfg, env, op, h, reason, digest).Changed?
    ensures Quiet(op, RejectOp(cfg, env, op, h, reason, digest).op) && RejectOp(cfg, env, op, h, reason, digest).effect == NoEffect
  {
  }

  lemma CancelIsQuiet(cfg: Config, env: Env, op: Operation, h: Header, reason: CancelReason, digest: Digest)
    requires CancelOp(cfg, env, op, h, reason, digest).Changed?
    ensures Quiet(op, CancelOp(cfg, env, op, h, reason, digest).op) && CancelOp(cfg, env, op, h, reason, digest).effect == NoEffect
  {
  }

  lemma AssembleMints(cfg: Config, env: Env, view: View, op: Operation, h: Header, a: Assembly, digest: Digest)
    requires AssembleOp(cfg, env, view, op, h, a, digest).Changed?
    ensures var r := AssembleOp(cfg, env, view, op, h, a, digest);
      && r.effect == MintDebt && SameCommitment(op, r.op)
      && op.debt.None? && r.op.debt.Some? && r.op.debt.value.id == view.debtID
  {
  }

  lemma ResolveIsQuiet(
    cfg: Config, env: Env, view: View, op: Operation, h: Header, class_: ResolutionClass,
    evidence: Option<ResolutionEvidence>, approval: string, expiresAt: Instant, digest: Digest)
    requires ResolveOp(cfg, env, view, op, h, class_, evidence, approval, expiresAt, digest).Changed?
    ensures var r := ResolveOp(cfg, env, view, op, h, class_, evidence, approval, expiresAt, digest);
      Quiet(op, r.op) && r.effect == MintAudit
  {
  }

  lemma QuietFits(s: State, scope: OperationScope, op: Operation, intent: Intent, r: OpResult)
    requires r.Changed? && Quiet(op, r.op) && r.effect == NoEffect && !intent.payload.Activate?
    ensures EffectFits(s, scope, op, intent, r)
  {
  }

  // ---- The committing step extends one Task's history ----

  lemma UncommittedIsNew(s: State, scope: OperationScope)
    requires Identities(s) && History(s) && scope in s.operations && s.operations[scope].state != OpActivated
    ensures s.operations[scope].candidate.version !in s.activated
  {
    var v := s.operations[scope].candidate.version;
    assert OwnsIdentities(s, scope, s.operations[scope]);
    assert v in s.activated ==> IsCommitted(s, v);
  }

  lemma HeadIsLast(s: State, task: TaskScope)
    requires Identities(s) && History(s)
    ensures var h := LogHistory(s.auditFacts, task);
      && StreamOf(s, task).revision == |h| && (h == [] <==> StreamOf(s, task).head == NO_VERSION)
      && (h != [] ==> StreamOf(s, task).head == h[|h| - 1])
  {
    StreamIsLogged(s, task);
    var h := LogHistory(s.auditFacts, task);
    if h != [] { HistoryIsNamed(s, task, |h| - 1); }
  }

  ghost predicate CommitsOnto(s: State, s': State, scope: OperationScope, op': Operation, a: ActivatedVersion, f: AuditFact) {
    var task := TaskOf(scope);
    && s'.activated == s.activated[a.version := a]
    && s'.streams == s.streams[task := Stream(a.streamRevision, a.version)]
    && s'.operations == s.operations[scope := op'] && s'.versionIndex == s.versionIndex
    && s'.auditFacts == s.auditFacts + [f] && ActivationIn(f, task) && f.version == a.version
  }

  lemma CommitExtendsTask(s: State, s': State, scope: OperationScope, op': Operation, a: ActivatedVersion, f: AuditFact)
    requires Identities(s) && History(s) && scope in s.operations
    requires (s.operations[scope].candidate.kind == FirstGeneration <==> s.operations[scope].candidate.parent == NO_VERSION)
    requires s.operations[scope].candidate.kind == FirstGeneration || s.operations[scope].candidate.kind == ManualEdit
    requires CommitFits(s, scope, s.operations[scope], op', a) && CommitsOnto(s, s', scope, op', a, f)
    ensures LogHistory(s'.auditFacts, TaskOf(scope)) == LogHistory(s.auditFacts, TaskOf(scope)) + [a.version]
    ensures TaskHistory(s', TaskOf(scope))
  {
    var task := TaskOf(scope);
    LogGrows(s.auditFacts, f, task, scope);
    UncommittedIsNew(s, scope);
    HeadIsLast(s, task);
    assert TaskHistory(s, task);
    CommitLinks(s, s', task, op', a);
  }

  lemma CommitLinks(s: State, s': State, task: TaskScope, op': Operation, a: ActivatedVersion)
    requires TaskHistory(s, task) && a.version !in s.activated && s'.activated == s.activated[a.version := a]
    requires LogHistory(s'.auditFacts, task) == LogHistory(s.auditFacts, task) + [a.version]
    requires s'.streams == s.streams[task := Stream(a.streamRevision, a.version)]
    requires a.domain == task.domain && a.task == task.task && a.streamRevision == StreamOf(s, task).revision + 1
    requires a.parent == StreamOf(s, task).head && (a.kind == FirstGeneration <==> a.parent == NO_VERSION)
    requires a.kind == FirstGeneration || a.kind == ManualEdit
    requires var h := LogHistory(s.auditFacts, task);
      h != [] ==> StreamOf(s, task).head != NO_VERSION
    ensures TaskHistory(s', task)
  {
    var h, h' := LogHistory(s.auditFacts, task), LogHistory(s'.auditFacts, task);
    forall i | 0 <= i < |h'| ensures Link(s', task, h', i) {
      if i < |h| { assert Link(s, task, h, i); }
    }
  }

  lemma CommitLeavesOthers(s: State, s': State, scope: OperationScope, op': Operation, a: ActivatedVersion, f: AuditFact, task: TaskScope)
    requires Identities(s) && History(s) && scope in s.operations && task != TaskOf(scope)
    requires CommitFits(s, scope, s.operations[scope], op', a) && CommitsOnto(s, s', scope, op', a, f)
    ensures LogHistory(s'.auditFacts, task) == LogHistory(s.auditFacts, task)
    ensures TaskHistory(s', task)
  {
    LogGrows(s.auditFacts, f, task, scope);
    UncommittedIsNew(s, scope);
    assert TaskHistory(s, task);
    var h := LogHistory(s.auditFacts, task);
    forall i | 0 <= i < |h| ensures Link(s', task, h, i) { assert Link(s, task, h, i); }
  }

  /** Every Task's history only grows at a commit. */
  lemma CommitGrowsHistories(s: State, s': State, scope: OperationScope, op': Operation, a: ActivatedVersion, f: AuditFact, task: TaskScope)
    requires CommitsOnto(s, s', scope, op', a, f)
    ensures LogHistory(s.auditFacts, task) <= LogHistory(s'.auditFacts, task)
  {
    LogGrows(s.auditFacts, f, task, scope);
  }

  lemma CommitKeepsCommitted(s: State, s': State, scope: OperationScope, op': Operation, a: ActivatedVersion, f: AuditFact, v: ArtifactVersionID)
    requires Identities(s) && History(s) && scope in s.operations && v in s.activated
    requires CommitFits(s, scope, s.operations[scope], op', a) && CommitsOnto(s, s', scope, op', a, f)
    ensures IsCommitted(s', v)
  {
    UncommittedIsNew(s, scope);
    assert IsCommitted(s, v);
    CommitGrowsHistories(s, s', scope, op', a, f, TaskScope(s.activated[v].domain, s.activated[v].task));
    assert s.versionIndex[v] != scope;
  }

  lemma CommitIsCommitted(s: State, s': State, scope: OperationScope, op': Operation, a: ActivatedVersion, f: AuditFact)
    requires Identities(s) && History(s) && scope in s.operations
    requires CommitFits(s, scope, s.operations[scope], op', a) && CommitsOnto(s, s', scope, op', a, f)
    ensures IsCommitted(s', a.version)
  {
    assert OwnsIdentities(s, scope, s.operations[scope]);
    HeadIsLast(s, TaskOf(scope));
    LogGrows(s.auditFacts, f, TaskOf(scope), scope);
  }

  lemma CommitKeepsPlaced(s: State, s': State, scope: OperationScope, op': Operation, a: ActivatedVersion, f: AuditFact, x: OperationScope)
    requires History(s) && scope in s.operations && x in s.operations
    requires CommitFits(s, scope, s.operations[scope], op', a) && CommitsOnto(s, s', scope, op', a, f)
    ensures Placed(s', x, s'.operations[x])
  {
    assert Placed(s, x, s.operations[x]);
    CommitGrowsHistories(s, s', scope, op', a, f, TaskOf(x));
  }

  lemma CommitKeepsHistory(s: State, s': State, scope: OperationScope, op': Operation, a: ActivatedVersion, f: AuditFact)
    requires Identities(s) && History(s) && scope in s.operations
    requires (s.operations[scope].candidate.kind == FirstGeneration <==> s.operations[scope].candidate.parent == NO_VERSION)
    requires s.operations[scope].candidate.kind == FirstGeneration || s.operations[scope].candidate.kind == ManualEdit
    requires CommitFits(s, scope, s.operations[scope], op', a) && CommitsOnto(s, s', scope, op', a, f)
    ensures History(s')
  {
    CommitExtendsTask(s, s', scope, op', a, f);
    CommitIsCommitted(s, s', scope, op', a, f);
    forall task ensures TaskHistory(s', task) {
      if task != TaskOf(scope) { CommitLeavesOthers(s, s', scope, op', a, f, task); }
    }
    forall v | v in s'.activated ensures IsCommitted(s', v) {
      if v != a.version { CommitKeepsCommitted(s, s', scope, op', a, f, v); }
    }
    forall x | x in s'.operations ensures Placed(s', x, s'.operations[x]) {
      CommitKeepsPlaced(s, s', scope, op', a, f, x);
    }
  }

  // ---- Continuing an operation ----

  lemma AbsorbCommits(cfg: Config, env: Env, s: State, intent: Intent, r: OpResult)
    requires r.Changed? && r.effect.Commit? && intent.payload.Activate? && ScopeOf(intent.header) in s.operations
    requires CommitFits(s, ScopeOf(intent.header), s.operations[ScopeOf(intent.header)], r.op, r.effect.version)
    ensures var s' := Absorb(cfg, env, s, intent, r);
      |s'.auditFacts| == |s.auditFacts| + 1
      && CommitsOnto(s, s', ScopeOf(intent.header), r.op, r.effect.version, s'.auditFacts[|s.auditFacts|])
  {
  }

  lemma AbsorbShape(cfg: Config, env: Env, s: State, intent: Intent, r: OpResult)
    requires r.Changed?
    ensures var s' := Absorb(cfg, env, s, intent, r);
      && s'.operations == s.operations[ScopeOf(intent.header) := r.op] && s'.versionIndex == s.versionIndex
      && s'.auditFacts == s.auditFacts + [FactOf(Affected(s, ScopeOf(intent.header), r.op, r.effect).nextAudit + 1,
                                                 intent.header, KindOf(intent.payload), r.op, env.now)]
      && (!r.effect.Commit? ==> s'.streams == s.streams && s'.activated == s.activated)
  {
    AffectedShape(s, ScopeOf(intent.header), r.op, r.effect);
    AuditedShape(cfg, env, Affected(s, ScopeOf(intent.header), r.op, r.effect), intent.header, KindOf(intent.payload), r.op);
  }

  lemma AuditedShape(cfg: Config, env: Env, s: State, h: Header, kind: IntentKind, op: Operation)
    ensures var s' := Audited(cfg, env, s, h, kind, op);
      && s'.operations == s.operations && s'.versionIndex == s.versionIndex && s'.streams == s.streams
      && s'.activated == s.activated && s'.auditFacts == s.auditFacts + [FactOf(s.nextAudit + 1, h, kind, op, env.now)]
  {
  }

  lemma AffectedShape(s: State, scope: OperationScope, op: Operation, effect: Effect)
    ensures var s1 := Affected(s, scope, op, effect);
      && s1.operations == s.operations[scope := op] && s1.auditFacts == s.auditFacts && s1.versionIndex == s.versionIndex
      && s1.deliveries == s.deliveries && s1.sinkLog == s.sinkLog && s1.nextAudit >= s.nextAudit
      && (!effect.Commit? ==> s1.streams == s.streams && s1.activated == s.activated)
  {
  }

  lemma QuietReplacement(s: State, s': State, scope: OperationScope, op': Operation, f: AuditFact)
    requires scope in s.operations && SameCommitment(s.operations[scope], op') && f.action != ActivateKind
    requires s'.operations == s.operations[scope := op'] && s'.versionIndex == s.versionIndex
    requires s'.auditFacts == s.auditFacts + [f] && s'.streams == s.streams && s'.activated == s.activated
    ensures SameHistoryFacts(s, s')
  {
    forall task ensures LogHistory(s'.auditFacts, task) == LogHistory(s.auditFacts, task) {
      LogGrows(s.auditFacts, f, task, scope);
    }
  }

  lemma AbsorbIsQuiet(cfg: Config, env: Env, s: State, intent: Intent, r: OpResult)
    requires r.Changed? && !r.effect.Commit? && !intent.payload.Activate? && ScopeOf(intent.header) in s.operations
    requires SameCommitment(s.operations[ScopeOf(intent.header)], r.op)
    ensures SameHistoryFacts(s, Absorb(cfg, env, s, intent, r))
  {
    AbsorbShape(cfg, env, s, intent, r);
    var id := Affected(s, ScopeOf(intent.header), r.op, r.effect).nextAudit + 1;
    QuietReplacement(s, Absorb(cfg, env, s, intent, r), ScopeOf(intent.header), r.op,
                     FactOf(id, intent.header, KindOf(intent.payload), r.op, env.now));
  }

  lemma AbsorbKeepsHistory(cfg: Config, env: Env, s: State, intent: Intent, r: OpResult)
    requires Identities(s) && History(s) && ScopeOf(intent.header) in s.operations && r.Changed?
    requires SoundCandidate(intent.header.task, s.operations[ScopeOf(intent.header)].candidate)
    requires EffectFits(s, ScopeOf(intent.header), s.operations[ScopeOf(intent.header)], intent, r)
    ensures History(Absorb(cfg, env, s, intent, r))
  {
    var scope := ScopeOf(intent.header);
    var s' := Absorb(cfg, env, s, intent, r);
    if r.effect.Commit? {
      AbsorbCommits(cfg, env, s, intent, r);
      CommitKeepsHistory(s, s', scope, r.op, r.effect.version, s'.auditFacts[|s.auditFacts|]);
    } else {
      AbsorbIsQuiet(cfg, env, s, intent, r);
      QuietStepKeepsHistory(s, s');
    }
  }

  lemma AbsorbKeepsIdentities(cfg: Config, env: Env, s: State, intent: Intent, r: OpResult)
    requires Identities(s) && ScopeOf(intent.header) in s.operations && r.Changed?
    requires SameIdentity(s, s.operations[ScopeOf(intent.header)], r.op, r.effect)
    ensures Identities(Absorb(cfg, env, s, intent, r))
  {
    var scope := ScopeOf(intent.header);
    AffectedKeepsIdentities(s, scope, r.op, r.effect);
    AuditedKeepsIdentities(cfg, env, Affected(s, scope, r.op, r.effect), intent.header, KindOf(intent.payload), r.op);
  }

  lemma AbsorbKeepsOrder(cfg: Config, env: Env, s: State, intent: Intent, r: OpResult)
    requires AuditRefines(s) && Ledger(Projection(s.deliveries, s.sinkLog)) && ScopeOf(intent.header) in s.operations && r.Changed?
    requires TaskHistory(s, TaskOf(ScopeOf(intent.header)))
    requires EffectFits(s, ScopeOf(intent.header), s.operations[ScopeOf(intent.header)], intent, r)
    ensures var s' := Absorb(cfg, env, s, intent, r); AuditRefines(s') && Ledger(Projection(s'.deliveries, s'.sinkLog))
  {
    var scope := ScopeOf(intent.header);
    AffectedShape(s, scope, r.op, r.effect);
    AuditedKeepsOrder(cfg, env, Affected(s, scope, r.op, r.effect), intent.header, KindOf(intent.payload), r.op);
  }

  lemma ReplaceKeepsSound(cfg: Config, s: State, s': State, scope: OperationScope, op': Operation)
    requires SoundOperations(cfg, s) && SoundOperation(cfg, scope, op') && s'.operations == s.operations[scope := op']
    ensures SoundOperations(cfg, s')
  {
  }

  lemma ContinueKeepsInv(cfg: Config, env: Env, s: State, intent: Intent)
    requires Inv(cfg, s) && ScopeOf(intent.header) in s.operations && !intent.payload.Prepare?
    requires Replayable(KindOf(intent.payload)) ==> KindOf(intent.payload) !in s.operations[ScopeOf(intent.header)].outcomes
    requires s.operations[ScopeOf(intent.header)].candidate.runtimeRefs != []
    ensures var scope := ScopeOf(intent.header);
      Inv(cfg, Absorb(cfg, env, s, intent, ContinueOp(cfg, env, ViewOf(s, scope, s.operations[scope]), s.operations[scope], intent)))
  {
    var scope := ScopeOf(intent.header);
    var op := s.operations[scope];
    assert SoundOperation(cfg, scope, op);
    var r := ContinueOp(cfg, env, ViewOf(s, scope, op), op, intent);
    if r.Changed? {
      ContinueKeeps(cfg, env, ViewOf(s, scope, op), op, intent);
      ContinueEffect(cfg, env, s, scope, op, intent);
      AbsorbKeepsHistory(cfg, env, s, intent, r);
      AbsorbKeepsIdentities(cfg, env, s, intent, r);
      AbsorbKeepsOrder(cfg, env, s, intent, r);
      AbsorbShape(cfg, env, s, intent, r);
      ReplaceKeepsSound(cfg, s, Absorb(cfg, env, s, intent, r), scope, r.op);
    }
  }

  // ---- Preparing an operation ----

  /** The counters a draft burns, and the facts it files for its members. */
  ghost predicate Burns(s: State, b: State, task: TaskScope, c: Candidate) {
    && b == s.(nextVersion := c.version, nextArtifact := b.nextArtifact, artifactFacts := b.artifactFacts)
    && c.version > s.nextVersion && b.nextArtifact >= s.nextArtifact
    && (forall a | a in s.artifactFacts :: a in b.artifactFacts && b.artifactFacts[a] == s.artifactFacts[a])
    && (forall a | a in b.artifactFacts :: 0 < a <= b.nextArtifact)
    && (forall m | m in c.members :: m.artifact > s.nextArtifact && m.artifact in b.artifactFacts && b.artifactFacts[m.artifact] == task)
  }

  lemma DraftBurns(cfg: Config, s: State, h: Header, p: PreparePayload)
    requires Identities(s) && ValidPrepare(cfg.nameOf, p)
    ensures var draft := Drafted(cfg, s, h, p);
      Burns(s, draft.state, TaskScope(h.domain, h.task), draft.candidate)
  {
    var specs := SortedSpecs(p.members);
    var task := TaskScope(h.domain, h.task);
    SpecsKeepNames(cfg.nameOf, p.members);
    SortedSpecsFacts(p);
    MintingIsFresh(cfg.nameOf, task, specs, s.nextArtifact, s.artifactFacts);
    var minting := MintMembers(cfg.nameOf, task, specs, s.nextArtifact, s.artifactFacts);
    MintedInOrder(task, specs, s.nextArtifact, s.artifactFacts, minting);
    assert Drafted(cfg, s, h, p).candidate.members == minting.members;
    forall m | m in minting.members ensures m.artifact > s.nextArtifact && m.artifact in minting.facts && minting.facts[m.artifact] == task {
      var i :| 0 <= i < |minting.members| && minting.members[i] == m;
    }
  }

  lemma BurnKeepsInv(cfg: Config, s: State, b: State, task: TaskScope, c: Candidate)
    requires Inv(cfg, s) && Burns(s, b, task, c)
    ensures Inv(cfg, b)
  {
    BurnKeepsIdentities(s, b, task, c);
    forall task ensures TaskHistory(b, task) {
      assert TaskHistory(s, task);
      forall i | 0 <= i < |LogHistory(s.auditFacts, task)| ensures Link(b, task, LogHistory(s.auditFacts, task), i) {
        assert Link(s, task, LogHistory(s.auditFacts, task), i);
      }
    }
    forall v | v in b.activated ensures IsCommitted(b, v) { assert IsCommitted(s, v); }
    forall x | x in b.operations ensures Placed(b, x, b.operations[x]) { assert Placed(s, x, s.operations[x]); }
  }

  lemma BurnKeepsIdentities(s: State, b: State, task: TaskScope, c: Candidate)
    requires Identities(s) && Burns(s, b, task, c)
    ensures Identities(b)
  {
    forall x | x in b.operations ensures OwnsIdentities(b, x, b.operations[x]) { assert OwnsIdentities(s, x, s.operations[x]); }
    forall v | v in b.versionIndex ensures Indexed(b, v) { assert Indexed(s, v); }
  }

  /** The new operation of a draft, entering the journal. */
  ghost predicate Enters(s: State, b: State, s': State, scope: OperationScope, op: Operation) {
    && scope !in s.operations && Burns(s, b, TaskOf(scope), op.candidate) && s' == Persisted(b, scope, op)
    && op.debt.None? && op.residue.None? && op.state == OpPrepared
  }

  lemma NewArtifactsApart(s: State, b: State, scope: OperationScope, op: Operation, x: OperationScope)
    requires Identities(s) && Burns(s, b, TaskOf(scope), op.candidate) && op.debt.None? && x in s.operations
    ensures Apart(op, s.operations[x]) && Apart(s.operations[x], op)
  {
    assert OwnsIdentities(s, x, s.operations[x]);
  }

  lemma NewVersionIsNew(s: State, v: ArtifactVersionID)
    requires Identities(s) && v > s.nextVersion
    ensures History(s) ==> v !in s.activated
    ensures v !in s.versionIndex
  {
    assert v in s.versionIndex ==> Indexed(s, v);
    assert History(s) && v in s.activated ==> IsCommitted(s, v);
  }

  lemma EnteringOwns(s: State, b: State, s': State, scope: OperationScope, op: Operation, x: OperationScope)
    requires Identities(s) && Enters(s, b, s', scope, op) && x in s'.operations
    ensures OwnsIdentities(s', x, s'.operations[x])
  {
    NewVersionIsNew(s, op.candidate.version);
    if x != scope { assert OwnsIdentities(s, x, s.operations[x]); }
  }

  lemma EnteringIndexes(s: State, b: State, s': State, scope: OperationScope, op: Operation, v: ArtifactVersionID)
    requires Identities(s) && Enters(s, b, s', scope, op) && v in s'.versionIndex
    ensures Indexed(s', v)
  {
    NewVersionIsNew(s, op.candidate.version);
    if v != op.candidate.version { assert Indexed(s, v); }
  }

  lemma EnteringApart(s: State, b: State, s': State, scope: OperationScope, op: Operation, x: OperationScope, y: OperationScope)
    requires Identities(s) && Enters(s, b, s', scope, op) && x in s'.operations && y in s'.operations && x != y
    ensures Apart(s'.operations[x], s'.operations[y])
  {
    if x == scope { NewArtifactsApart(s, b, scope, op, y); }
    else if y == scope { NewArtifactsApart(s, b, scope, op, x); }
    else { assert Apart(s.operations[x], s.operations[y]); }
  }

  lemma EnteringKeepsIdentities(s: State, b: State, s': State, scope: OperationScope, op: Operation)
    requires Identities(s) && Enters(s, b, s', scope, op)
    ensures Identities(s')
  {
    forall x | x in s'.operations ensures OwnsIdentities(s', x, s'.operations[x]) { EnteringOwns(s, b, s', scope, op, x); }
    forall v | v in s'.versionIndex ensures Indexed(s', v) { EnteringIndexes(s, b, s', scope, op, v); }
    forall x, y | x in s'.operations && y in s'.operations && x != y ensures Apart(s'.operations[x], s'.operations[y]) {
      EnteringApart(s, b, s', scope, op, x, y);
    }
  }

  lemma EnteringShape(s: State, b: State, s': State, scope: OperationScope, op: Operation)
    requires Enters(s, b, s', scope, op)
    ensures s'.operations == s.operations[scope := op] && s'.versionIndex == s.versionIndex[op.candidate.version := scope]
    ensures s'.activated == s.activated && s'.auditFacts == s.auditFacts
    ensures forall task :: StreamOf(s', task) == StreamOf(s, task)
    ensures s'.nextAudit == s.nextAudit && s'.deliveries == s.deliveries && s'.sinkLog == s.sinkLog
  {
  }

  lemma EnteringIsQuiet(s: State, b: State, s': State, scope: OperationScope, op: Operation)
    requires Identities(s) && Enters(s, b, s', scope, op)
    requires op.candidate.parent != NO_VERSION ==> op.candidate.parent in LogHistory(s.auditFacts, TaskOf(scope))
    ensures SameHistoryFacts(s, s')
  {
    NewVersionIsNew(s, op.candidate.version);
    EnteringShape(s, b, s', scope, op);
    AdditionIsQuiet(s, s', scope, op);
  }

  lemma AdditionIsQuiet(s: State, s': State, scope: OperationScope, op: Operation)
    requires scope !in s.operations && op.candidate.version !in s.versionIndex && op.state == OpPrepared
    requires s'.operations == s.operations[scope := op] && s'.versionIndex == s.versionIndex[op.candidate.version := scope]
    requires s'.activated == s.activated && s'.auditFacts == s.auditFacts
    requires forall task :: StreamOf(s', task) == StreamOf(s, task)
    requires op.candidate.parent != NO_VERSION ==> op.candidate.parent in LogHistory(s.auditFacts, TaskOf(scope))
    ensures SameHistoryFacts(s, s')
  {
    assert Placed(s', scope, op);
  }

  // ---- A prepare that persists ----

  lemma NewOperationIsSound(cfg: Config, env: Env, s: State, intent: Intent)
    requires Identities(s) && intent.payload.Prepare? && ValidIntent(cfg.nameOf, intent) && ValidBindings(intent.payload.prepare)
    ensures var h := intent.header;
      var c := Drafted(cfg, s, h, intent.payload.prepare).candidate;
      var r := Settle(env, NewOperation(env, s, h, c, RequestDigest(intent)), PrepareKind, RequestDigest(intent), None, NoEffect);
      r.Changed? && SoundOperation(cfg, ScopeOf(h), r.op)
  {
    CandidateIsSound(cfg, s, intent.header, intent.payload.prepare);
    FreshIsSound(cfg, env, s, intent.header, Drafted(cfg, s, intent.header, intent.payload.prepare).candidate, RequestDigest(intent));
  }

  lemma FreshIsSound(cfg: Config, env: Env, s: State, h: Header, c: Candidate, digest: Digest)
    requires SoundCandidate(h.task, c)
    ensures var r := Settle(env, NewOperation(env, s, h, c, digest), PrepareKind, digest, None, NoEffect);
      r.Changed? && SoundOperation(cfg, ScopeOf(h), r.op)
  {
    var op := NewOperation(env, s, h, c, digest);
    JournalAddsOne(op.outcomes, PrepareKind, digest, IntentOutcome(digest, op.state, Some(DecisionOf(op, false, env.now)), None, env.now));
  }

  /** A manual edit that passes the guards of prepare names the Task's last version. */
  lemma PreparedParentIsHead(cfg: Config, env: Env, s: State, h: Header, p: PreparePayload)
    requires Identities(s) && History(s) && ValidPrepare(cfg.nameOf, p) && PrepareRefusal(cfg, env, s, h, p).None?
    ensures p.parent != NO_VERSION ==> p.parent in LogHistory(s.auditFacts, TaskScope(h.domain, h.task))
  {
    HeadIsLast(s, TaskScope(h.domain, h.task));
  }

  lemma EnteringAuditedKeepsInv(cfg: Config, env: Env, s: State, b: State, s1: State, h: Header, op: Operation)
    requires Inv(cfg, s) && Enters(s, b, s1, ScopeOf(h), op) && SoundOperation(cfg, ScopeOf(h), op)
    requires op.candidate.parent != NO_VERSION ==> op.candidate.parent in LogHistory(s.auditFacts, TaskOf(ScopeOf(h)))
    ensures Inv(cfg, Audited(cfg, env, s1, h, PrepareKind, op))
  {
    var scope := ScopeOf(h);
    var s2 := Audited(cfg, env, s1, h, PrepareKind, op);
    EnteringKeepsIdentities(s, b, s1, scope, op);
    AuditedKeepsIdentities(cfg, env, s1, h, PrepareKind, op);
    EnteringIsQuiet(s, b, s1, scope, op);
    QuietStepKeepsHistory(s, s1);
    AuditedKeepsHistory(cfg, env, s1, h, PrepareKind, op);
    ReplaceKeepsSound(cfg, s, s2, scope, op);
    EnteringKeepsOrder(cfg, env, s, b, s1, h, op);
  }

  lemma EnteringKeepsOrder(cfg: Config, env: Env, s: State, b: State, s1: State, h: Header, op: Operation)
    requires AuditRefines(s) && Ledger(Projection(s.deliveries, s.sinkLog)) && Enters(s, b, s1, ScopeOf(h), op)
    ensures var s2 := Audited(cfg, env, s1, h, PrepareKind, op); AuditRefines(s2) && Ledger(Projection(s2.deliveries, s2.sinkLog))
  {
    AuditedKeepsOrder(cfg, env, s1, h, PrepareKind, op);
  }

  lemma AuditedKeepsHistory(cfg: Config, env: Env, s: State, h: Header, kind: IntentKind, op: Operation)
    requires History(s) && kind != ActivateKind
    ensures History(Audited(cfg, env, s, h, kind, op))
  {
    var s' := Audited(cfg, env, s, h, kind, op);
    AuditedShape(cfg, env, s, h, kind, op);
    forall task ensures LogHistory(s'.auditFacts, task) == LogHistory(s.auditFacts, task) {
      LogGrows(s.auditFacts, FactOf(s.nextAudit + 1, h, kind, op, env.now), task, ScopeOf(h));
    }
    QuietStepKeepsHistory(s, s');
  }

  lemma PrepareKeepsInv(cfg: Config, env: Env, s: State, intent: Intent)
    requires Inv(cfg, s) && intent.payload.Prepare? && ValidIntent(cfg.nameOf, intent) && ScopeOf(intent.header) !in s.operations
    ensures Inv(cfg, PrepareStep(cfg, env, s, intent).state)
  {
    var h, p := intent.header, intent.payload.prepare;
    if PrepareRefusal(cfg, env, s, h, p).None? {
      var draft := Drafted(cfg, s, h, p);
      DraftBurns(cfg, s, h, p);
      if env.fault(BeforeCandidatePersistence).Some? {
        BurnKeepsInv(cfg, s, draft.state, TaskScope(h.domain, h.task), draft.candidate);
      } else {
        var digest := RequestDigest(intent);
        var r := Settle(env, NewOperation(env, s, h, draft.candidate, digest), PrepareKind, digest, None, NoEffect);
        NewOperationIsSound(cfg, env, s, intent);
        PreparedParentIsHead(cfg, env, s, h, p);
        EnteringAuditedKeepsInv(cfg, env, s, draft.state, Persisted(draft.state, ScopeOf(h), r.op), h, r.op);
      }
    }
  }

  // ---- A conflicting submission ----

  lemma FlagIsSound(cfg: Config, scope: OperationScope, op: Operation)
    requires SoundOperation(cfg, scope, op)
    ensures SoundOperation(cfg, scope, op.(integrityConflict := true)) && Evolves(op, op.(integrityConflict := true))
  {
    var op' := op.(integrityConflict := true);
    if op.debt.Some? { assert SoundDebt(cfg, op', op.residue.value, op.debt.value); }
  }

  lemma FlagKeepsHistory(s: State, scope: OperationScope)
    requires History(s) && scope in s.operations
    ensures History(Flagged(s, scope))
  {
    assert SameCommitment(s.operations[scope], s.operations[scope].(integrityConflict := true));
    QuietStepKeepsHistory(s, Flagged(s, scope));
  }

  lemma FlagKeepsLog(s: State, scope: OperationScope)
    requires AuditRefines(s) && scope in s.operations
    ensures AuditRefines(Flagged(s, scope))
  {
  }

  lemma FlagKeepsInv(cfg: Config, s: State, scope: OperationScope)
    requires Inv(cfg, s) && scope in s.operations
    ensures Inv(cfg, Flagged(s, scope))
  {
    FlagIsSound(cfg, scope, s.operations[scope]);
    ReplaceKeepsSound(cfg, s, Flagged(s, scope), scope, s.operations[scope].(integrityConflict := true));
    ReplaceKeepsIdentities(s, Flagged(s, scope), scope, s.operations[scope].(integrityConflict := true));
    FlagKeepsHistory(s, scope);
    FlagKeepsLog(s, scope);
  }

  // ---- Any mutation ----

  /** The four things a submission can do. */
  datatype Route = Refused | Prepares | Flags | Continues

  ghost function RouteOf(cfg: Config, s: State, intent: Intent): Route {
    var scope, kind := ScopeOf(intent.header), KindOf(intent.payload);
    if EntryRefusal(cfg, intent).Some? then Refused
    else if scope !in s.operations then (if kind == PrepareKind then Prepares else Refused)
    else if Replayable(kind) && kind in s.operations[scope].outcomes then
      if RequestDigest(intent) in s.operations[scope].outcomes[kind] then Refused else Flags
    else if kind == PrepareKind then Flags
    else Continues
  }

  lemma MutateContinues(cfg: Config, env: Env, s: State, intent: Intent)
    requires Pinned(s) && RouteOf(cfg, s, intent).Continues?
    ensures var scope := ScopeOf(intent.header);
      && scope in s.operations && !intent.payload.Prepare?
      && (Replayable(KindOf(intent.payload)) ==> KindOf(intent.payload) !in s.operations[scope].outcomes)
      && var op := s.operations[scope];
         Mutate(cfg, env, s, intent).state == Absorb(cfg, env, s, intent, ContinueOp(cfg, env, ViewOf(s, scope, op), op, intent))
  {
  }

  lemma MutateRoute(cfg: Config, env: Env, s: State, intent: Intent)
    requires Pinned(s)
    ensures var scope := ScopeOf(intent.header);
      var s' := Mutate(cfg, env, s, intent).state;
      match RouteOf(cfg, s, intent)
      case Refused => s' == s
      case Prepares => EntryRefusal(cfg, intent).None? && intent.payload.Prepare? && scope !in s.operations
                       && s' == PrepareStep(cfg, env, s, intent).state
      case Flags => scope in s.operations && s' == Flagged(s, scope)
      case Continues =>
        && scope in s.operations && !intent.payload.Prepare?
        && (Replayable(KindOf(intent.payload)) ==> KindOf(intent.payload) !in s.operations[scope].outcomes)
        && var op := s.operations[scope];
           s' == Absorb(cfg, env, s, intent, ContinueOp(cfg, env, ViewOf(s, scope, op), op, intent))
  {
    if RouteOf(cfg, s, intent).Continues? { MutateContinues(cfg, env, s, intent); }
  }

  lemma MutateKeepsInv(cfg: Config, env: Env, s: State, intent: Intent)
    requires Inv(cfg, s)
    ensures Pinned(s) && Inv(cfg, Mutate(cfg, env, s, intent).state)
  {
    InvPins(cfg, s);
    MutateRoute(cfg, env, s, intent);
    match RouteOf(cfg, s, intent)
    case Refused =>
    case Prepares => PrepareKeepsInv(cfg, env, s, intent);
    case Flags => FlagKeepsInv(cfg, s, ScopeOf(intent.header));
    case Continues => ContinueKeepsInv(cfg, env, s, intent);
  }

  // ---- Runtime references stay pinned ----

  lemma AttemptKeepsCandidate(cfg: Config, env: Env, op: Operation, h: Header)
    requires op.residue.Some?
    ensures Attempted(cfg, env, op, h).op.candidate == op.candidate
  {
  }

  lemma ReconcileKeepsCandidate(cfg: Config, env: Env, op: Operation, h: Header, mode: ReconcileMode)
    requires ReconcileDecision(cfg, env, op, h, mode).Answered?
    ensures ReconcileDecision(cfg, env, op, h, mode).op.candidate == op.candidate
  {
    if mode == CompleteRelease { ReleaseKeepsCandidate(cfg, env, op.(reconcileMode := mode), h); }
  }

  lemma ReleaseKeepsCandidate(cfg: Config, env: Env, op: Operation, h: Header)
    ensures RunRelease(cfg, env, op, h).op.candidate == op.candidate
  {
    if op.residue.Some? { AttemptKeepsCandidate(cfg, env, Claimed(op), h); }
  }

  lemma ContinueKeepsCandidate(cfg: Config, env: Env, view: View, op: Operation, intent: Intent)
    requires op.candidate.runtimeRefs != [] && !intent.payload.Prepare? && ContinueOp(cfg, env, view, op, intent).Changed?
    ensures ContinueOp(cfg, env, view, op, intent).op.candidate == op.candidate
  {
    match intent.payload
    case Reconcile(mode) => ReconcileKeepsCandidate(cfg, env, op, intent.header, mode);
    case Release => ReleaseKeepsCandidate(cfg, env, op, intent.header);
    case _ =>
  }

  lemma PrepareKeepsPinned(cfg: Config, env: Env, s: State, intent: Intent)
    requires Pinned(s) && intent.payload.Prepare? && ValidIntent(cfg.nameOf, intent)
    ensures Pinned(PrepareStep(cfg, env, s, intent).state)
  {
  }

  lemma ContinueKeepsPinned(cfg: Config, env: Env, s: State, intent: Intent)
    requires Pinned(s) && ScopeOf(intent.header) in s.operations && !intent.payload.Prepare?
    ensures var scope := ScopeOf(intent.header);
      Pinned(Absorb(cfg, env, s, intent, ContinueOp(cfg, env, ViewOf(s, scope, s.operations[scope]), s.operations[scope], intent)))
  {
    var scope := ScopeOf(intent.header);
    var view := ViewOf(s, scope, s.operations[scope]);
    var r := ContinueOp(cfg, env, view, s.operations[scope], intent);
    if r.Changed? {
      ContinueKeepsCandidate(cfg, env, view, s.operations[scope], intent);
      AbsorbShape(cfg, env, s, intent, r);
    }
  }

  /** No flow can find an operation without a pinned runtime reference. */
  lemma MutateKeepsPinned(cfg: Config, env: Env, s: State, intent: Intent)
    requires Pinned(s)
    ensures Pinned(Mutate(cfg, env, s, intent).state)
  {
    MutateRoute(cfg, env, s, intent);
    match RouteOf(cfg, s, intent)
    case Refused =>
    case Prepares => PrepareKeepsPinned(cfg, env, s, intent);
    case Flags =>
    case Continues => ContinueKeepsPinned(cfg, env, s, intent);
  }

  lemma RebuildShape(cfg: Config, env: Env, s: State, task: TaskID, limit: nat)
    ensures var s' := RebuildStep(cfg, env, s, task, limit);
      s' == s.(deliveries := s'.deliveries, sinkLog := s'.sinkLog)
  {
  }

  lemma RedeliveredKeepsInv(cfg: Config, s: State, s': State)
    requires Inv(cfg, s) && s' == s.(deliveries := s'.deliveries, sinkLog := s'.sinkLog)
    requires Ledger(Projection(s'.deliveries, s'.sinkLog))
    ensures Inv(cfg, s')
  {
    RedeliveredKeepsIdentities(s, s');
    RedeliveredKeepsHistory(s, s');
    RedeliveredKeepsLog(s, s');
    RedeliveredKeepsSound(cfg, s, s');
  }

  lemma RedeliveredKeepsHistory(s: State, s': State)
    requires History(s) && s' == s.(deliveries := s'.deliveries, sinkLog := s'.sinkLog)
    ensures History(s')
  {
    QuietStepKeepsHistory(s, s');
  }

  lemma RedeliveredKeepsSound(cfg: Config, s: State, s': State)
    requires SoundOperations(cfg, s) && s'.operations == s.operations
    ensures SoundOperations(cfg, s')
  {
  }

  lemma RedeliveredKeepsLog(s: State, s': State)
    requires AuditRefines(s) && s' == s.(deliveries := s'.deliveries, sinkLog := s'.sinkLog)
    ensures AuditRefines(s')
  {
  }

  lemma RebuildKeepsInv(cfg: Config, env: Env, s: State, task: TaskID, limit: nat)
    requires Inv(cfg, s)
    ensures Inv(cfg, RebuildStep(cfg, env, s, task, limit))
  {
    RebuildShape(cfg, env, s, task, limit);
    RedriveKeeps(cfg, env, Projection(s.deliveries, s.sinkLog), s.auditFacts, task, limit);
    RedeliveredKeepsInv(cfg, s, RebuildStep(cfg, env, s, task, limit));
  }

  lemma RedeliveredKeepsIdentities(s: State, s': State)
    requires Identities(s) && s' == s.(deliveries := s'.deliveries, sinkLog := s'.sinkLog)
    ensures Identities(s')
  {
    forall x | x in s'.operations ensures OwnsIdentities(s', x, s'.operations[x]) { assert OwnsIdentities(s, x, s.operations[x]); }
    forall v | v in s'.versionIndex ensures Indexed(s', v) { assert Indexed(s, v); }
  }
}
