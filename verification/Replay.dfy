/** Exactly-once mutations: a recorded outcome is returned unchanged for ever,
    and a response lost after the outcome was recorded costs nothing. */
module Replay {
  import opened Basics
  import opened Facts
  import opened Records
  import opened Evidence
  import opened Machine
  import opened Lifecycle
  import opened Invariants
  import opened Steps
  import opened Runs

  /** The outcome of this very request is in the journal of its operation. */
  ghost predicate IsRecorded(s: State, intent: Intent) {
    var scope, kind := ScopeOf(intent.header), KindOf(intent.payload);
    scope in s.operations && kind in s.operations[scope].outcomes && RequestDigest(intent) in s.operations[scope].outcomes[kind]
  }

  ghost function OutcomeOf(s: State, intent: Intent): IntentOutcome
    requires IsRecorded(s, intent)
  {
    s.operations[ScopeOf(intent.header)].outcomes[KindOf(intent.payload)][RequestDigest(intent)]
  }

  lemma RecordedStays(cfg: Config, s: State, s': State, intent: Intent)
    requires Reachable(cfg, s) && Later(cfg, s, s') && Replayable(KindOf(intent.payload)) && IsRecorded(s, intent)
    ensures IsRecorded(s', intent) && OutcomeOf(s', intent) == OutcomeOf(s, intent)
  {
    LaterSound(cfg, s, s', ScopeOf(intent.header));
  }

  lemma RecordedReplays(cfg: Config, env: Env, s: State, intent: Intent)
    requires Pinned(s) && IsRecorded(s, intent) && Replayable(KindOf(intent.payload)) && EntryRefusal(cfg, intent).None?
    ensures Mutate(cfg, env, s, intent) == Step(s, Replayed(OutcomeOf(s, intent)))
  {
  }

  /** Once recorded, an outcome is returned to every later submission of the same
      request, in every later state and under any clock, faults and ports, and
      that submission leaves the whole state alone. */
  lemma ExactlyOnce(cfg: Config, env: Env, s: State, s': State, intent: Intent)
    requires Reachable(cfg, s) && Later(cfg, s, s') && Replayable(KindOf(intent.payload)) && IsRecorded(s, intent)
    requires EntryRefusal(cfg, intent).None?
    ensures Pinned(s') && Mutate(cfg, env, s', intent) == Step(s', Replayed(OutcomeOf(s, intent)))
  {
    LaterInv(cfg, s, s');
    InvPins(cfg, s');
    RecordedStays(cfg, s, s', intent);
    RecordedReplays(cfg, env, s', intent);
  }

  /** A replayable kind is recorded for one request at most; every other request
      of that kind is refused, changes no more than the conflict flag, and leaves
      the recorded outcome in place. */
  lemma ConflictIsRefused(cfg: Config, env: Env, s: State, intent: Intent, other: Intent)
    requires Reachable(cfg, s) && IsRecorded(s, intent) && Replayable(KindOf(intent.payload))
    requires ScopeOf(other.header) == ScopeOf(intent.header) && KindOf(other.payload) == KindOf(intent.payload)
    requires RequestDigest(other) != RequestDigest(intent) && EntryRefusal(cfg, other).None?
    ensures Pinned(s) && Mutate(cfg, env, s, other) == Step(Flagged(s, ScopeOf(intent.header)), Fails(IntegrityConflict))
    ensures IsRecorded(Flagged(s, ScopeOf(intent.header)), intent)
  {
    ReachableInv(cfg, s);
    InvPins(cfg, s);
    OnlyOneDigest(cfg, s, intent, other);
    ConflictFlags(cfg, env, s, other);
  }

  lemma OnlyOneDigest(cfg: Config, s: State, intent: Intent, other: Intent)
    requires SoundOperations(cfg, s) && IsRecorded(s, intent) && Replayable(KindOf(intent.payload))
    requires ScopeOf(other.header) == ScopeOf(intent.header) && KindOf(other.payload) == KindOf(intent.payload)
    requires RequestDigest(other) != RequestDigest(intent)
    ensures !IsRecorded(s, other)
  {
    var scope, kind := ScopeOf(intent.header), KindOf(intent.payload);
    assert SoundOperation(cfg, scope, s.operations[scope]);
    SingleExcludes(s.operations[scope].outcomes[kind], RequestDigest(intent), RequestDigest(other));
  }

  lemma SingleExcludes(byDigest: map<Digest, IntentOutcome>, digest: Digest, other: Digest)
    requires SingleOutcome(byDigest) && digest in byDigest && other != digest
    ensures other !in byDigest
  {
    var only :| byDigest.Keys == {only};
    assert digest in byDigest.Keys;
  }

  lemma ConflictFlags(cfg: Config, env: Env, s: State, other: Intent)
    requires Pinned(s) && EntryRefusal(cfg, other).None? && ScopeOf(other.header) in s.operations
    requires Replayable(KindOf(other.payload)) && KindOf(other.payload) in s.operations[ScopeOf(other.header)].outcomes
    requires !IsRecorded(s, other)
    ensures Mutate(cfg, env, s, other) == Step(Flagged(s, ScopeOf(other.header)), Fails(IntegrityConflict))
  {
  }

  // ---- A lost response ----

  /** Two environments that differ at most in whether the response is lost. */
  ghost predicate SameButResponse(a: Env, b: Env) {
    && b == a.(fault := b.fault)
    && (forall p: FaultPoint | p != BeforeResponse :: a.fault(p) == b.fault(p))
  }

  /** Same effect on the state; the responses may differ. */
  ghost predicate SameEffect(a: OpResult, b: OpResult) {
    match a
    case Unchanged(_) => b == a
    case Changed(op, effect, _) => b.Changed? && b.op == op && b.effect == effect
  }

  lemma SettleLosesNothing(a: Env, b: Env, op: Operation, kind: IntentKind, digest: Digest, error: Option<ErrorCode>, effect: Effect)
    requires SameButResponse(a, b)
    ensures SameEffect(Settle(a, op, kind, digest, error, effect), Settle(b, op, kind, digest, error, effect))
  {
  }

  lemma VerifyLosesNothing(cfg: Config, a: Env, b: Env, op: Operation, h: Header, v: VerifyPayload, digest: Digest)
    requires SameButResponse(a, b) && op.candidate.runtimeRefs != []
    ensures SameEffect(VerifyOp(cfg, a, op, h, v, digest), VerifyOp(cfg, b, op, h, v, digest))
  {
    JudgedLosesNothing(a, b, op, digest, Evaluate(RegistryOf(cfg), a.capability, op.candidate, h, v));
  }

  lemma JudgedLosesNothing(a: Env, b: Env, op: Operation, digest: Digest, verdict: Verdict)
    requires SameButResponse(a, b)
    ensures SameEffect(Judged(a, op, digest, verdict), Judged(b, op, digest, verdict))
  {
  }

  lemma ResolveLosesNothing(
    cfg: Config, a: Env, b: Env, view: View, op: Operation, h: Header, class_: ResolutionClass,
    evidence: Option<ResolutionEvidence>, approval: string, expiresAt: Instant, digest: Digest)
    requires SameButResponse(a, b)
    ensures SameEffect(ResolveOp(cfg, a, view, op, h, class_, evidence, approval, expiresAt, digest),
                       ResolveOp(cfg, b, view, op, h, class_, evidence, approval, expiresAt, digest))
  {
  }

  lemma ReleaseLosesNothing(cfg: Config, a: Env, b: Env, op: Operation, h: Header)
    requires SameButResponse(a, b)
    ensures SameEffect(ReleaseOp(cfg, a, op, h), ReleaseOp(cfg, b, op, h))
  {
  }

  lemma FinishLosesNothing(a: Env, b: Env, kind: IntentKind, digest: Digest, d: Decided)
    requires SameButResponse(a, b)
    ensures SameEffect(Finish(a, kind, digest, d), Finish(b, kind, digest, d))
  {
  }

  lemma ActivateLosesNothing(cfg: Config, a: Env, b: Env, view: View, op: Operation, h: Header, digest: Digest)
    requires SameButResponse(a, b)
    ensures SameEffect(ActivateOp(cfg, a, view, op, h, digest), ActivateOp(cfg, b, view, op, h, digest))
  {
    assert ActivateDecision(cfg, a, view, op, h) == ActivateDecision(cfg, b, view, op, h);
    FinishLosesNothing(a, b, ActivateKind, digest, ActivateDecision(cfg, a, view, op, h));
  }

  lemma RejectLosesNothing(cfg: Config, a: Env, b: Env, op: Operation, h: Header, reason: RejectReason, digest: Digest)
    requires SameButResponse(a, b)
    ensures SameEffect(RejectOp(cfg, a, op, h, reason, digest), RejectOp(cfg, b, op, h, reason, digest))
  {
    FinishLosesNothing(a, b, RejectKind, digest, RejectDecision(cfg, a, op, h, reason));
  }

  lemma CancelLosesNothing(cfg: Config, a: Env, b: Env, op: Operation, h: Header, reason: CancelReason, digest: Digest)
    requires SameButResponse(a, b)
    ensures SameEffect(CancelOp(cfg, a, op, h, reason, digest), CancelOp(cfg, b, op, h, reason, digest))
  {
    FinishLosesNothing(a, b, CancelKind, digest, CancelDecision(cfg, a, op, h, reason));
  }

  lemma AssembleLosesNothing(cfg: Config, a: Env, b: Env, view: View, op: Operation, h: Header, x: Assembly, digest: Digest)
    requires SameButResponse(a, b)
    ensures SameEffect(AssembleOp(cfg, a, view, op, h, x, digest), AssembleOp(cfg, b, view, op, h, x, digest))
  {
    FinishLosesNothing(a, b, AssembleKind, digest, AssembleDecision(cfg, a, view, op, h, x));
  }

  lemma ContinueLosesNothing(cfg: Config, a: Env, b: Env, view: View, op: Operation, intent: Intent)
    requires SameButResponse(a, b) && op.candidate.runtimeRefs != []
    requires !intent.payload.Prepare? && !intent.payload.Reconcile?
    ensures SameEffect(ContinueOp(cfg, a, view, op, intent), ContinueOp(cfg, b, view, op, intent))
  {
    var h, digest := intent.header, RequestDigest(intent);
    match intent.payload
    case Verify(v) => VerifyLosesNothing(cfg, a, b, op, h, v, digest);
    case Activate => ActivateLosesNothing(cfg, a, b, view, op, h, digest);
    case Reject(reason, _) => RejectLosesNothing(cfg, a, b, op, h, reason, digest);
    case Cancel(reason) => CancelLosesNothing(cfg, a, b, op, h, reason, digest);
    case Assemble(x) => AssembleLosesNothing(cfg, a, b, view, op, h, x, digest);
    case Release => ReleaseLosesNothing(cfg, a, b, op, h);
    case Resolve(class_, evidence, approval, expiresAt) =>
      ResolveLosesNothing(cfg, a, b, view, op, h, class_, evidence, approval, expiresAt, digest);
  }

  lemma AuditedLosesNothing(cfg: Config, a: Env, b: Env, s: State, h: Header, kind: IntentKind, op: Operation)
    requires SameButResponse(a, b)
    ensures Audited(cfg, a, s, h, kind, op) == Audited(cfg, b, s, h, kind, op)
  {
  }

  lemma EntryLosesNothing(cfg: Config, a: Env, b: Env, s: State, draft: Draft, h: Header, digest: Digest)
    requires SameButResponse(a, b)
    ensures Entered(cfg, a, s, draft, h, digest).state == Entered(cfg, b, s, draft, h, digest).state
  {
    var r := Settle(a, NewOperation(a, s, h, draft.candidate, digest), PrepareKind, digest, None, NoEffect);
    SettleLosesNothing(a, b, NewOperation(a, s, h, draft.candidate, digest), PrepareKind, digest, None, NoEffect);
    AuditedLosesNothing(cfg, a, b, Persisted(draft.state, ScopeOf(h), r.op), h, PrepareKind, r.op);
  }

  lemma PrepareLosesNothing(cfg: Config, a: Env, b: Env, s: State, intent: Intent)
    requires SameButResponse(a, b) && intent.payload.Prepare? && ValidIntent(cfg.nameOf, intent)
    ensures PrepareStep(cfg, a, s, intent).state == PrepareStep(cfg, b, s, intent).state
  {
    var h, p := intent.header, intent.payload.prepare;
    assert PrepareRefusal(cfg, a, s, h, p) == PrepareRefusal(cfg, b, s, h, p);
    if PrepareRefusal(cfg, a, s, h, p).None? {
      EntryLosesNothing(cfg, a, b, s, Drafted(cfg, s, h, p), h, RequestDigest(intent));
    }
  }

  lemma AbsorbLosesNothing(cfg: Config, a: Env, b: Env, s: State, intent: Intent, r: OpResult, q: OpResult)
    requires SameButResponse(a, b) && SameEffect(r, q)
    ensures Absorb(cfg, a, s, intent, r) == Absorb(cfg, b, s, intent, q)
  {
    if r.Changed? {
      AuditedLosesNothing(cfg, a, b, Affected(s, ScopeOf(intent.header), r.op, r.effect), intent.header, KindOf(intent.payload), r.op);
    }
  }

  /** Losing the response does not change what a mutation did. Reconcile is the
      exception: it journals the response it was about to lose. */
  lemma LossChangesNothing(cfg: Config, a: Env, b: Env, s: State, intent: Intent)
    requires Pinned(s) && SameButResponse(a, b) && !intent.payload.Reconcile?
    ensures Mutate(cfg, a, s, intent).state == Mutate(cfg, b, s, intent).state
  {
    MutateRoute(cfg, a, s, intent);
    MutateRoute(cfg, b, s, intent);
    match RouteOf(cfg, s, intent)
    case Refused =>
    case Flags =>
    case Prepares => PrepareLosesNothing(cfg, a, b, s, intent);
    case Continues =>
      var scope := ScopeOf(intent.header);
      var op := s.operations[scope];
      var view := ViewOf(s, scope, op);
      ContinueLosesNothing(cfg, a, b, view, op, intent);
      AbsorbLosesNothing(cfg, a, b, s, intent, ContinueOp(cfg, a, view, op, intent), ContinueOp(cfg, b, view, op, intent));
  }

  // ---- What the retry after a lost response returns ----

  ghost predicate Files(op: Operation, kind: IntentKind, digest: Digest, response: Response) {
    && kind in op.outcomes && digest in op.outcomes[kind]
    && response == Response(op.outcomes[kind][digest].decision, op.outcomes[kind][digest].error)
  }

  lemma SettleFiles(env: Env, op: Operation, kind: IntentKind, digest: Digest, error: Option<ErrorCode>, effect: Effect)
    requires env.fault(BeforeResponse).None?
    ensures var r := Settle(env, op, kind, digest, error, effect); Files(r.op, kind, digest, r.response)
  {
  }

  lemma JudgedFiles(env: Env, op: Operation, digest: Digest, verdict: Verdict)
    requires env.fault(BeforeResponse).None?
    ensures var r := Judged(env, op, digest, verdict); r.Changed? && Files(r.op, VerifyKind, digest, r.response)
  {
  }

  lemma ResolveFiles(
    cfg: Config, env: Env, view: View, op: Operation, h: Header, class_: ResolutionClass,
    evidence: Option<ResolutionEvidence>, approval: string, expiresAt: Instant, digest: Digest)
    requires env.fault(BeforeResponse).None?
    ensures var r := ResolveOp(cfg, env, view, op, h, class_, evidence, approval, expiresAt, digest);
      r.Changed? ==> Files(r.op, ResolveKind, digest, r.response)
  {
  }

  lemma ContinueFiles(cfg: Config, env: Env, view: View, op: Operation, intent: Intent)
    requires env.fault(BeforeResponse).None? && op.candidate.runtimeRefs != []
    requires !intent.payload.Prepare? && Replayable(KindOf(intent.payload))
    ensures var r := ContinueOp(cfg, env, view, op, intent);
      r.Changed? ==> Files(r.op, KindOf(intent.payload), RequestDigest(intent), r.response)
  {
    var h, digest := intent.header, RequestDigest(intent);
    match intent.payload
    case Verify(v) => JudgedFiles(env, op, digest, Evaluate(RegistryOf(cfg), env.capability, op.candidate, h, v));
    case Activate =>
    case Reject(reason, _) =>
    case Cancel(reason) =>
    case Assemble(x) =>
    case Resolve(class_, evidence, approval, expiresAt) =>
      ResolveFiles(cfg, env, view, op, h, class_, evidence, approval, expiresAt, digest);
  }

  lemma EnteredFiles(cfg: Config, env: Env, s: State, draft: Draft, h: Header, digest: Digest)
    requires env.fault(BeforeResponse).None?
    ensures var step := Entered(cfg, env, s, draft, h, digest);
      ScopeOf(h) in step.state.operations && Files(step.state.operations[ScopeOf(h)], PrepareKind, digest, step.response)
  {
    var op := NewOperation(env, s, h, draft.candidate, digest);
    SettleFiles(env, op, PrepareKind, digest, None, NoEffect);
    var r := Settle(env, op, PrepareKind, digest, None, NoEffect);
    AuditedShape(cfg, env, Persisted(draft.state, ScopeOf(h), r.op), h, PrepareKind, r.op);
  }

  lemma PrepareFiles(cfg: Config, env: Env, s: State, intent: Intent)
    requires env.fault(BeforeResponse).None? && intent.payload.Prepare? && ValidIntent(cfg.nameOf, intent)
    requires ScopeOf(intent.header) !in s.operations
    ensures var step := PrepareStep(cfg, env, s, intent);
      IsRecorded(step.state, intent) ==> Files(step.state.operations[ScopeOf(intent.header)], PrepareKind, RequestDigest(intent), step.response)
  {
    var h, p := intent.header, intent.payload.prepare;
    if PrepareRefusal(cfg, env, s, h, p).None? {
      if env.fault(BeforeCandidatePersistence).Some? {
        assert Drafted(cfg, s, h, p).state.operations == s.operations;
      } else {
        EnteredFiles(cfg, env, s, Drafted(cfg, s, h, p), h, RequestDigest(intent));
      }
    }
  }

  lemma AbsorbFiles(cfg: Config, env: Env, s: State, intent: Intent, r: OpResult)
    requires r.Changed? ==> Files(r.op, KindOf(intent.payload), RequestDigest(intent), r.response)
    requires !IsRecorded(s, intent) && IsRecorded(Absorb(cfg, env, s, intent, r), intent)
    ensures Files(Absorb(cfg, env, s, intent, r).operations[ScopeOf(intent.header)], KindOf(intent.payload), RequestDigest(intent), r.response)
  {
    if r.Changed? { AbsorbShape(cfg, env, s, intent, r); }
  }

  /** What a submission answers is what it journals. */
  lemma RecordedAsAnswered(cfg: Config, env: Env, s: State, after: State, answer: Response, intent: Intent)
    requires Pinned(s) && env.fault(BeforeResponse).None? && Replayable(KindOf(intent.payload))
    requires Mutate(cfg, env, s, intent) == Step(after, answer) && !IsRecorded(s, intent) && IsRecorded(after, intent)
    ensures answer == Response(OutcomeOf(after, intent).decision, OutcomeOf(after, intent).error)
  {
    MutateRoute(cfg, env, s, intent);
    MutateAnswers(cfg, env, s, intent);
    match RouteOf(cfg, s, intent)
    case Refused => assert false;
    case Flags => assert false;
    case Prepares => PrepareAnswers(cfg, env, s, after, answer, intent);
    case Continues => ContinueAnswers(cfg, env, s, intent);
  }

  lemma MutateAnswers(cfg: Config, env: Env, s: State, intent: Intent)
    requires Pinned(s)
    ensures RouteOf(cfg, s, intent).Prepares? ==> Mutate(cfg, env, s, intent) == PrepareStep(cfg, env, s, intent)
    ensures RouteOf(cfg, s, intent).Continues? ==>
      var op := s.operations[ScopeOf(intent.header)];
      Mutate(cfg, env, s, intent).response == ContinueOp(cfg, env, ViewOf(s, ScopeOf(intent.header), op), op, intent).response
  {
  }

  lemma PrepareAnswers(cfg: Config, env: Env, s: State, after: State, answer: Response, intent: Intent)
    requires env.fault(BeforeResponse).None? && intent.payload.Prepare? && ValidIntent(cfg.nameOf, intent)
    requires ScopeOf(intent.header) !in s.operations
    requires PrepareStep(cfg, env, s, intent) == Step(after, answer) && IsRecorded(after, intent)
    ensures answer == Response(OutcomeOf(after, intent).decision, OutcomeOf(after, intent).error)
  {
    PrepareFiles(cfg, env, s, intent);
  }

  lemma ContinueAnswers(cfg: Config, env: Env, s: State, intent: Intent)
    requires Pinned(s) && env.fault(BeforeResponse).None? && Replayable(KindOf(intent.payload)) && !intent.payload.Prepare?
    requires ScopeOf(intent.header) in s.operations && !IsRecorded(s, intent)
    requires var op := s.operations[ScopeOf(intent.header)];
      IsRecorded(Absorb(cfg, env, s, intent, ContinueOp(cfg, env, ViewOf(s, ScopeOf(intent.header), op), op, intent)), intent)
    ensures var op := s.operations[ScopeOf(intent.header)];
      var r := ContinueOp(cfg, env, ViewOf(s, ScopeOf(intent.header), op), op, intent);
      Files(Absorb(cfg, env, s, intent, r).operations[ScopeOf(intent.header)], KindOf(intent.payload), RequestDigest(intent), r.response)
  {
    var op := s.operations[ScopeOf(intent.header)];
    var view := ViewOf(s, ScopeOf(intent.header), op);
    ContinueFiles(cfg, env, view, op, intent);
    AbsorbFiles(cfg, env, s, intent, ContinueOp(cfg, env, view, op, intent));
  }

  /** The same environment with nothing lost on the way back. */
  function Kept(env: Env): Env {
    env.(fault := (p: FaultPoint) => if p == BeforeResponse then None else env.fault(p))
  }

  /** Exactly the submissions that retain an audit fact are journaled. */
  lemma RecordedIffAudited(cfg: Config, env: Env, s: State, intent: Intent)
    requires Pinned(s) && Replayable(KindOf(intent.payload)) && !IsRecorded(s, intent)
    ensures var after := Mutate(cfg, env, s, intent).state;
      IsRecorded(after, intent) <==> after.auditFacts != s.auditFacts
  {
    LossChangesNothing(cfg, env, Kept(env), s, intent);
    KeptRecordedIffAudited(cfg, Kept(env), s, intent);
  }

  lemma KeptRecordedIffAudited(cfg: Config, env: Env, s: State, intent: Intent)
    requires Pinned(s) && Replayable(KindOf(intent.payload)) && !IsRecorded(s, intent) && env.fault(BeforeResponse).None?
    ensures var after := Mutate(cfg, env, s, intent).state;
      IsRecorded(after, intent) <==> after.auditFacts != s.auditFacts
  {
    MutateRoute(cfg, env, s, intent);
    match RouteOf(cfg, s, intent)
    case Refused =>
    case Flags =>
    case Prepares => PrepareAudits(cfg, env, s, intent);
    case Continues => ContinueAudits(cfg, env, s, intent);
  }

  lemma DraftIsUnaudited(cfg: Config, s: State, h: Header, p: PreparePayload)
    requires ValidPrepare(cfg.nameOf, p)
    ensures Drafted(cfg, s, h, p).state.operations == s.operations && Drafted(cfg, s, h, p).state.auditFacts == s.auditFacts
  {
  }

  lemma PrepareAudits(cfg: Config, env: Env, s: State, intent: Intent)
    requires env.fault(BeforeResponse).None? && intent.payload.Prepare? && ValidIntent(cfg.nameOf, intent)
    requires ScopeOf(intent.header) !in s.operations
    ensures var after := PrepareStep(cfg, env, s, intent).state;
      IsRecorded(after, intent) <==> after.auditFacts != s.auditFacts
  {
    var h, p := intent.header, intent.payload.prepare;
    if PrepareRefusal(cfg, env, s, h, p).None? {
      DraftIsUnaudited(cfg, s, h, p);
      EntryAudits(cfg, env, s, Drafted(cfg, s, h, p), intent);
    }
  }

  lemma EntryAudits(cfg: Config, env: Env, s: State, draft: Draft, intent: Intent)
    requires env.fault(BeforeResponse).None? && intent.payload.Prepare?
    ensures var after := Entered(cfg, env, s, draft, intent.header, RequestDigest(intent)).state;
      IsRecorded(after, intent) && |after.auditFacts| == |draft.state.auditFacts| + 1
  {
    EnteredFiles(cfg, env, s, draft, intent.header, RequestDigest(intent));
    EnteredAudits(cfg, env, s, draft, intent.header, RequestDigest(intent));
  }

  lemma EnteredAudits(cfg: Config, env: Env, s: State, draft: Draft, h: Header, digest: Digest)
    ensures |Entered(cfg, env, s, draft, h, digest).state.auditFacts| == |draft.state.auditFacts| + 1
  {
  }

  lemma ContinueAudits(cfg: Config, env: Env, s: State, intent: Intent)
    requires Pinned(s) && env.fault(BeforeResponse).None? && Replayable(KindOf(intent.payload)) && !IsRecorded(s, intent)
    requires ScopeOf(intent.header) in s.operations && !intent.payload.Prepare?
    ensures var scope := ScopeOf(intent.header);
      var after := Absorb(cfg, env, s, intent, ContinueOp(cfg, env, ViewOf(s, scope, s.operations[scope]), s.operations[scope], intent));
      IsRecorded(after, intent) <==> after.auditFacts != s.auditFacts
  {
    var scope := ScopeOf(intent.header);
    var op := s.operations[scope];
    var r := ContinueOp(cfg, env, ViewOf(s, scope, op), op, intent);
    ContinueFiles(cfg, env, ViewOf(s, scope, op), op, intent);
    if r.Changed? { AbsorbShape(cfg, env, s, intent, r); }
  }

  lemma AnswerIsReplayed(cfg: Config, retry: Env, after: State, answer: Response, s': State, intent: Intent)
    requires Reachable(cfg, after) && Later(cfg, after, s') && EntryRefusal(cfg, intent).None? && Replayable(KindOf(intent.payload))
    requires IsRecorded(after, intent) && answer == Response(OutcomeOf(after, intent).decision, OutcomeOf(after, intent).error)
    ensures Pinned(s') && Mutate(cfg, retry, s', intent) == Step(s', MarkedReplay(answer))
  {
    ExactlyOnce(cfg, retry, after, s', intent);
    assert Replayed(OutcomeOf(after, intent)) == MarkedReplay(answer);
  }

  lemma KeptAnswerIsReplayed(
    cfg: Config, kept: Env, retry: Env, s: State, after: State, answer: Response, s': State, intent: Intent)
    requires Reachable(cfg, s) && Pinned(s) && kept.fault(BeforeResponse).None?
    requires EntryRefusal(cfg, intent).None? && Replayable(KindOf(intent.payload)) && !IsRecorded(s, intent)
    requires Mutate(cfg, kept, s, intent) == Step(after, answer)
    requires IsRecorded(after, intent) && Later(cfg, after, s')
    ensures Pinned(s') && Mutate(cfg, retry, s', intent) == Step(s', MarkedReplay(answer))
  {
    RecordedAsAnswered(cfg, kept, s, after, answer, intent);
    SubmissionIsTaken(cfg, kept, s, after, intent);
    AnswerIsReplayed(cfg, retry, after, answer, s', intent);
  }

  lemma KeptMatches(cfg: Config, env: Env, s: State, after: State, intent: Intent)
    requires Pinned(s) && Replayable(KindOf(intent.payload)) && Mutate(cfg, env, s, intent).state == after
    ensures Mutate(cfg, Kept(env), s, intent) == Step(after, Mutate(cfg, Kept(env), s, intent).response)
  {
    LossChangesNothing(cfg, env, Kept(env), s, intent);
  }

  /** Whatever the environment, and whether or not the response was lost: when a
      submission reached the journal, every retry, at any later point of the run
      and under any environment, returns the answer it would have had without the
      loss, marked as a replay, and changes nothing. */
  lemma LostResponseIsReplayed(cfg: Config, env: Env, retry: Env, s: State, after: State, s': State, intent: Intent)
    requires Reachable(cfg, s) && Pinned(s)
    requires EntryRefusal(cfg, intent).None? && Replayable(KindOf(intent.payload)) && !IsRecorded(s, intent)
    requires Mutate(cfg, env, s, intent).state == after && IsRecorded(after, intent) && Later(cfg, after, s')
    ensures Pinned(s') && Mutate(cfg, retry, s', intent) == Step(s', MarkedReplay(Mutate(cfg, Kept(env), s, intent).response))
  {
    KeptMatches(cfg, env, s, after, intent);
    KeptAnswerIsReplayed(cfg, Kept(env), retry, s, after, Mutate(cfg, Kept(env), s, intent).response, s', intent);
  }

  lemma SubmissionIsTaken(cfg: Config, env: Env, s: State, after: State, intent: Intent)
    requires Reachable(cfg, s) && Pinned(s) && Mutate(cfg, env, s, intent).state == after
    ensures Reachable(cfg, after) && Later(cfg, s, after)
  {
    EveryInputIsTaken(cfg, s, Submit(env, intent));
    assert Next(cfg, s, Submit(env, intent)) == after;
  }

  function MarkedReplay(r: Response): Response {
    Response(if r.decision.None? then None else Some(r.decision.value.(replay := true)), r.error)
  }
}
