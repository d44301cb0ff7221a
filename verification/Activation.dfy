/** When exactly a submission commits a version, and what its evidence says
    about the epochs that activation does not compare. */
module Activation {
  import opened Basics
  import opened Facts
  import opened Records
  import opened Machine
  import opened Lifecycle
  import opened Invariants
  import opened Steps
  import opened Runs
  import opened Publication
  import opened Trail

  /** The step takes the operation into activated. */
  ghost predicate Commits(s: State, s': State, scope: OperationScope) {
    && scope in s.operations && s.operations[scope].state != OpActivated
    && scope in s'.operations && s'.operations[scope].state == OpActivated
  }

  /** An authorized claim on a verified operation whose parent is the head of the
      stream, by a header that knows that head and its revision. */
  ghost predicate Admits(cfg: Config, env: Env, s: State, h: Header) {
    && ScopeOf(h) in s.operations
    && var op, stream := s.operations[ScopeOf(h)], StreamOf(s, TaskOf(ScopeOf(h)));
       && Authorized(cfg, h.authority, ActivateKind)
       && h.generation == op.generation && h.fence == op.fence && op.state == OpVerified
       && h.expectedRevision == stream.revision && h.expectedHead == stream.head && op.candidate.parent == stream.head
       && env.fault(BeforeActivationCommit).None?
  }

  /** With the invariants the guards come down to those of Admits. */
  lemma GuardsComeDown(cfg: Config, env: Env, s: State, h: Header)
    requires ScopeOf(h) in s.operations
    requires var c := s.operations[ScopeOf(h)].candidate;
      (c.kind == FirstGeneration || c.kind == ManualEdit) && (c.kind == FirstGeneration <==> c.parent == NO_VERSION)
    requires var head := StreamOf(s, TaskOf(ScopeOf(h))).head; head != NO_VERSION ==> head in s.activated
    ensures var op := s.operations[ScopeOf(h)];
      ActivateDecision(cfg, env, ViewOf(s, ScopeOf(h), op), op, h).Proceed? <==> Admits(cfg, env, s, h)
  {
  }

  lemma HeadIsCommitted(cfg: Config, s: State, task: TaskScope)
    requires Reachable(cfg, s)
    ensures StreamOf(s, task).head != NO_VERSION ==> StreamOf(s, task).head in s.activated
  {
    HeadIsMintedIffCommitted(cfg, s, task);
  }

  lemma ActivateOpCommits(cfg: Config, env: Env, view: View, op: Operation, h: Header, digest: Digest)
    ensures var r := ActivateOp(cfg, env, view, op, h, digest);
      && (r.Changed? <==> ActivateDecision(cfg, env, view, op, h).Proceed?)
      && (r.Changed? ==> r.op.state == OpActivated && r.op.evidence.Some?)
      && (r.Changed? ==> r.op.evidence.value.safetyEpoch == h.safetyEpoch && r.op.evidence.value.activityGeneration == h.activityGeneration)
  {
  }

  /** A continuing intent other than activate never commits. */
  lemma OthersDoNotCommit(cfg: Config, env: Env, s: State, intent: Intent)
    requires Inv(cfg, s) && ScopeOf(intent.header) in s.operations && !intent.payload.Prepare? && !intent.payload.Activate?
    requires s.operations[ScopeOf(intent.header)].candidate.runtimeRefs != []
    ensures var scope := ScopeOf(intent.header);
      var r := ContinueOp(cfg, env, ViewOf(s, scope, s.operations[scope]), s.operations[scope], intent);
      r.Changed? ==> SameCommitment(s.operations[scope], r.op)
  {
    var scope := ScopeOf(intent.header);
    assert SoundOperation(cfg, scope, s.operations[scope]);
    if ContinueOp(cfg, env, ViewOf(s, scope, s.operations[scope]), s.operations[scope], intent).Changed? {
      ContinueEffect(cfg, env, s, scope, s.operations[scope], intent);
    }
  }

  lemma AbsorbCommitsOnly(cfg: Config, env: Env, s: State, intent: Intent, r: OpResult, scope: OperationScope)
    requires ScopeOf(intent.header) in s.operations
    ensures Commits(s, Absorb(cfg, env, s, intent, r), scope) <==>
      && r.Changed? && scope == ScopeOf(intent.header)
      && s.operations[scope].state != OpActivated && r.op.state == OpActivated
  {
    if r.Changed? { AbsorbShape(cfg, env, s, intent, r); }
  }

  lemma PrepareDoesNotCommit(cfg: Config, env: Env, s: State, intent: Intent, scope: OperationScope)
    requires intent.payload.Prepare? && ValidIntent(cfg.nameOf, intent) && ScopeOf(intent.header) !in s.operations
    ensures !Commits(s, PrepareStep(cfg, env, s, intent).state, scope)
  {
    if scope in s.operations { PrepareKeepsOthers(cfg, env, s, intent, scope); }
  }

  lemma ContinueCommitsIff(cfg: Config, env: Env, s: State, intent: Intent, scope: OperationScope)
    requires Reachable(cfg, s) && ScopeOf(intent.header) in s.operations && !intent.payload.Prepare?
    requires s.operations[ScopeOf(intent.header)].candidate.runtimeRefs != []
    ensures var own := ScopeOf(intent.header);
      var r := ContinueOp(cfg, env, ViewOf(s, own, s.operations[own]), s.operations[own], intent);
      Commits(s, Absorb(cfg, env, s, intent, r), scope) <==> intent.payload.Activate? && own == scope && Admits(cfg, env, s, intent.header)
  {
    var own := ScopeOf(intent.header);
    var op := s.operations[own];
    var view := ViewOf(s, own, op);
    AbsorbCommitsOnly(cfg, env, s, intent, ContinueOp(cfg, env, view, op, intent), scope);
    ReachableInv(cfg, s);
    if intent.payload.Activate? {
      assert SoundOperation(cfg, own, op);
      HeadIsCommitted(cfg, s, TaskOf(own));
      GuardsComeDown(cfg, env, s, intent.header);
      ActivateOpCommits(cfg, env, view, op, intent.header, RequestDigest(intent));
    } else {
      OthersDoNotCommit(cfg, env, s, intent);
    }
  }

  /** A verified operation has not been asked to activate in a way that was journaled. */
  lemma AdmittedContinues(cfg: Config, env: Env, s: State, intent: Intent)
    requires Reachable(cfg, s) && intent.payload.Activate? && EntryRefusal(cfg, intent).None? && Admits(cfg, env, s, intent.header)
    ensures RouteOf(cfg, s, intent).Continues?
  {
    JournalTellsState(cfg, s, ScopeOf(intent.header));
  }

  /** A submission takes an operation into activated exactly when it is an activate
      of that operation that passes the guards on authority, claim, state, revision,
      head and parent, and no fault strikes before the commit. */
  lemma CommitsIff(cfg: Config, env: Env, s: State, intent: Intent, scope: OperationScope)
    requires Reachable(cfg, s)
    ensures Pinned(s)
    ensures Commits(s, Mutate(cfg, env, s, intent).state, scope) <==>
      intent.payload.Activate? && ScopeOf(intent.header) == scope && EntryRefusal(cfg, intent).None? && Admits(cfg, env, s, intent.header)
  {
    ReachableInv(cfg, s);
    InvPins(cfg, s);
    if RouteOf(cfg, s, intent).Continues? {
      MutateContinues(cfg, env, s, intent);
      ContinueCommitsIff(cfg, env, s, intent, scope);
    } else {
      NotContinued(cfg, env, s, intent);
      OnlyContinuingCommits(cfg, env, s, intent, scope);
    }
  }

  lemma OnlyContinuingCommits(cfg: Config, env: Env, s: State, intent: Intent, scope: OperationScope)
    requires Pinned(s) && !RouteOf(cfg, s, intent).Continues?
    ensures !Commits(s, Mutate(cfg, env, s, intent).state, scope)
  {
    MutateRoute(cfg, env, s, intent);
    match RouteOf(cfg, s, intent)
    case Refused =>
    case Flags => FlagDoesNotCommit(s, ScopeOf(intent.header), scope);
    case Prepares => PrepareDoesNotCommit(cfg, env, s, intent, scope);
  }

  lemma FlagDoesNotCommit(s: State, flagged: OperationScope, scope: OperationScope)
    requires flagged in s.operations
    ensures !Commits(s, Flagged(s, flagged), scope)
  {
  }

  lemma NotContinued(cfg: Config, env: Env, s: State, intent: Intent)
    requires Reachable(cfg, s) && !RouteOf(cfg, s, intent).Continues?
    ensures !(intent.payload.Activate? && EntryRefusal(cfg, intent).None? && Admits(cfg, env, s, intent.header))
  {
    if intent.payload.Activate? && EntryRefusal(cfg, intent).None? && Admits(cfg, env, s, intent.header) {
      AdmittedContinues(cfg, env, s, intent);
    }
  }

  /** The safety epoch and the activity generation of the header decide nothing:
      of two activates that differ in them alone, request and digest apart, both
      commit or neither does. */
  lemma EpochsAreNotCompared(cfg: Config, env: Env, s: State, a: Intent, b: Intent)
    requires Reachable(cfg, s) && a.payload.Activate? && b.payload.Activate?
    requires EntryRefusal(cfg, a).None? && EntryRefusal(cfg, b).None?
    requires b.header == a.header.(
      safetyEpoch := b.header.safetyEpoch, activityGeneration := b.header.activityGeneration,
      request := b.header.request, requestDigest := b.header.requestDigest, occurredAt := b.header.occurredAt)
    ensures Pinned(s)
    ensures Commits(s, Mutate(cfg, env, s, a).state, ScopeOf(a.header)) <==> Commits(s, Mutate(cfg, env, s, b).state, ScopeOf(b.header))
  {
    CommitsIff(cfg, env, s, a, ScopeOf(a.header));
    CommitsIff(cfg, env, s, b, ScopeOf(b.header));
    assert Admits(cfg, env, s, a.header) <==> Admits(cfg, env, s, b.header);
  }

  /** What is committed carries the header's epochs: the operation's own exactly
      when the header has them. */
  lemma EvidenceCarriesHeaderEpochs(cfg: Config, env: Env, s: State, intent: Intent)
    requires Reachable(cfg, s) && Pinned(s) && Commits(s, Mutate(cfg, env, s, intent).state, ScopeOf(intent.header))
    ensures var op, op' := s.operations[ScopeOf(intent.header)], Mutate(cfg, env, s, intent).state.operations[ScopeOf(intent.header)];
      && op'.evidence.Some?
      && (op'.evidence.value.safetyEpoch == op.safetyEpoch <==> intent.header.safetyEpoch == op.safetyEpoch)
      && (op'.evidence.value.activityGeneration == op.activityGeneration <==> intent.header.activityGeneration == op.activityGeneration)
  {
    var scope := ScopeOf(intent.header);
    CommitsIff(cfg, env, s, intent, scope);
    AdmittedContinues(cfg, env, s, intent);
    MutateContinues(cfg, env, s, intent);
    CommittedEpochs(cfg, env, s, intent);
  }

  lemma CommittedEpochs(cfg: Config, env: Env, s: State, intent: Intent)
    requires intent.payload.Activate? && ScopeOf(intent.header) in s.operations
    requires s.operations[ScopeOf(intent.header)].candidate.runtimeRefs != []
    requires var op := s.operations[ScopeOf(intent.header)];
      var r := ContinueOp(cfg, env, ViewOf(s, ScopeOf(intent.header), op), op, intent);
      Commits(s, Absorb(cfg, env, s, intent, r), ScopeOf(intent.header))
    ensures var op := s.operations[ScopeOf(intent.header)];
      var e := Absorb(cfg, env, s, intent, ContinueOp(cfg, env, ViewOf(s, ScopeOf(intent.header), op), op, intent)).operations[ScopeOf(intent.header)].evidence;
      e.Some? && e.value.safetyEpoch == intent.header.safetyEpoch && e.value.activityGeneration == intent.header.activityGeneration
  {
    var op := s.operations[ScopeOf(intent.header)];
    var view := ViewOf(s, ScopeOf(intent.header), op);
    ActivateOpCommits(cfg, env, view, op, intent.header, RequestDigest(intent));
    AbsorbCommitsOnly(cfg, env, s, intent, ContinueOp(cfg, env, view, op, intent), ScopeOf(intent.header));
    AbsorbShape(cfg, env, s, intent, ContinueOp(cfg, env, view, op, intent));
  }
}
