/** Concrete runs from the empty authority that show what the safety theorems do
    not exclude: a resolved debt that is blocked again, a resolution whose audit
    identity no fact carries, and a commit under other epochs than the operation's. */
module Scenarios {
  import opened Basics
  import opened Facts
  import opened Records
  import opened Evidence
  import opened ResidueRules
  import opened Manifests
  import opened Machine
  import opened Lifecycle
  import opened Invariants
  import opened Preparation
  import opened Steps
  import opened Runs
  import opened Trail
  import opened Safety
  import opened Activation
  import R = Reachability

  // ---- The configuration, the requests and the outside world of both runs ----

  const EXAMPLE := Config(
    "runtime", "validation", "c04", "durable", "orchestration", "recovery", "cleanup", "publication",
    (now: Instant) => 0, (name: string) => Some(name), false, false)

  const SCOPE := OperationScope("domain", "task", "operation")
  const TASK := TaskScope("domain", "task")
  const BYTES := External("bytes")

  function HeaderBy(authority: Authority, epoch: SafetyEpoch, activity: Generation): Header {
    Header(SCHEMA_V1, "request", "operation", NoDigest, "domain", "task", 0, NO_VERSION, activity, 1, 1, epoch, authority, 1)
  }

  const BY_TASK := HeaderBy(Authority(TaskOrchestration, "orchestration", 1), 1, 1)
  const BY_CLEANUP := HeaderBy(Authority(PublicationCleanup, "cleanup", 1), 1, 1)

  const RUNTIME_FACTS := RuntimeEvidence(
    "runtime-evidence", NoDigest, Producer("runtime", 1), "domain", "task", "phase", "run", "runtime-operation", BYTES,
    CHANNEL_DECK, BYTES, "proposal", "completed", 1, 1, 1)
  const RUNTIME := RUNTIME_FACTS.(digest := RuntimeDigest(RUNTIME_FACTS))
  const VALIDATION_FACTS := ValidationEvidence(
    "validation-evidence", NoDigest, Producer("validation", 1), "domain", "task", "phase", "contract",
    [EvidenceRef(RUNTIME.id, RUNTIME.digest)], BYTES, "accepted", 1, 1, 1)
  const VALIDATION := VALIDATION_FACTS.(digest := ValidationDigest(VALIDATION_FACTS))
  const COMMIT_FACTS := CommitEvidence(
    "commit-evidence", NoDigest, Producer("c04", 1), "domain", "task", "workspace", "revision", "checkpoint",
    VALIDATION.id, VALIDATION.digest, BYTES, "content", "durability", "operation", 1, 1, 1, None)
  const COMMIT := COMMIT_FACTS.(digest := CommitDigest(COMMIT_FACTS))
  const CAPABILITY_FACTS := CapabilityEvidence(
    "capability", NoDigest, Producer("durable", 1), "domain", PublicationMember, "content", "slot", BYTES, 1,
    ImmutableWrite, 1, ReceiptBoundVerified, "adapter", 1, 1, 1)
  const CAPABILITY := CAPABILITY_FACTS.(digest := CapabilityDigest(CAPABILITY_FACTS))

  const SPEC := MemberSpec("slot", Deck, "deck.pptx", PPTX, 1, BYTES)
  const STAGED := Staging("slot", "content", BYTES, 1, PublicationMember, 1, "adapter")
  const RUNTIME_REF := RuntimeRef(CHANNEL_DECK, RUNTIME.id, RUNTIME.digest)
  const CAPABILITY_REF := CapabilityRef("slot", CAPABILITY.id, CAPABILITY.digest)
  const CONTENT := PreparePayload(
    "contract", FirstGeneration, NO_VERSION, "phase", [SPEC], [STAGED], [CHANNEL_DECK], [RUNTIME_REF],
    EvidenceRef(VALIDATION.id, VALIDATION.digest), EvidenceRef(COMMIT.id, COMMIT.digest), [CAPABILITY_REF])

  const RECEIPT_FACTS := ReleaseReceipt("receipt", NoDigest, Producer("durable", 1), OutcomeBlocked, 1, 0, 1)
  const RECEIPT := RECEIPT_FACTS.(digest := ReceiptDigest(RECEIPT_FACTS))

  /** No fault strikes, the registry knows the capability, and the release port
      answers with a blocked receipt. */
  function At(now: Instant): Env {
    Env(now, _ => None, (id: CapabilityID) => if id == CAPABILITY.id then Some(CAPABILITY) else None,
        (_, _) => Resolved(RECEIPT), _ => None, _ => false, _ => false)
  }

  function Signed(h: Header, p: Payload): Intent {
    Intent(h.(requestDigest := RequestDigest(Intent(h, p))), p)
  }

  lemma SignedIsAccepted(h: Header, p: Payload)
    requires ValidIntent(EXAMPLE.nameOf, Intent(h, p))
    ensures EntryRefusal(EXAMPLE, Signed(h, p)).None? && Signed(h, p).header.requestDigest == RequestDigest(Signed(h, p))
  {
  }

  // ---- One step of a run ----

  ghost function After(s: State, env: Env, intent: Intent): (s': State)
    requires Reachable(EXAMPLE, s)
    ensures Reachable(EXAMPLE, s') && Pinned(s) && s' == Mutate(EXAMPLE, env, s, intent).state
  {
    EveryInputIsTaken(EXAMPLE, s, Submit(env, intent));
    Next(EXAMPLE, s, Submit(env, intent))
  }

  /** A first submission of its kind against the operation on file leaves the
      operation its flow decides on. */
  lemma StepContinues(s: State, env: Env, intent: Intent, s': State)
    requires Pinned(s) && s' == Mutate(EXAMPLE, env, s, intent).state
    requires SCOPE in s.operations && ScopeOf(intent.header) == SCOPE && !intent.payload.Prepare?
    requires EntryRefusal(EXAMPLE, intent).None? && KindOf(intent.payload) !in s.operations[SCOPE].outcomes
    ensures var r := ContinueOp(EXAMPLE, env, ViewOf(s, SCOPE, s.operations[SCOPE]), s.operations[SCOPE], intent);
      SCOPE in s'.operations && (r.Changed? ==> s'.operations[SCOPE] == r.op)
  {
    MutateContinues(EXAMPLE, env, s, intent);
    AbsorbedOp(EXAMPLE, env, s, intent,
               ContinueOp(EXAMPLE, env, ViewOf(s, SCOPE, s.operations[SCOPE]), s.operations[SCOPE], intent), SCOPE);
  }

  // ---- Prepare ----

  lemma ContentIsValid()
    ensures ValidPrepare(EXAMPLE.nameOf, CONTENT) && ValidBindings(CONTENT)
  {
    assert MemberSlots(CONTENT.members) == ["slot"] && StagingSlots(CONTENT.staging) == ["slot"];
    assert CapabilitySlots(CONTENT.capabilityRefs) == ["slot"];
    assert CONTENT.staging[0].slot == "slot" && CONTENT.capabilityRefs[0].slot == "slot";
  }

  const PREPARE := Signed(BY_TASK, Prepare(CONTENT))

  lemma PrepareIsAccepted()
    ensures EntryRefusal(EXAMPLE, PREPARE).None? && ScopeOf(PREPARE.header) == SCOPE && KindOf(PREPARE.payload) == PrepareKind
    ensures PrepareRefusal(EXAMPLE, At(1), EMPTY_STATE, PREPARE.header, CONTENT).None?
  {
    ContentIsValid();
    SignedIsAccepted(BY_TASK, Prepare(CONTENT));
  }

  /** The member the run mints, and the candidate it drafts. */
  const MEMBER := Member("slot", 1, Deck, "deck.pptx", PPTX, 1, BYTES)

  lemma SortOne<T>(x: T, before: (T, T) -> bool)
    ensures Sort([x], before) == [x]
  {
    assert Sort([x][1..], before) == [];
  }

  lemma MintOne(next: nat, facts: map<ArtifactID, TaskScope>)
    requires next == 0 && facts == map[]
    ensures MintMembers(EXAMPLE.nameOf, TASK, [SPEC], next, facts).members == [MEMBER]
  {
    var specs := [SPEC];
    assert specs[..|specs| - 1] == [];
    assert MintMembers(EXAMPLE.nameOf, TASK, [], next, facts) == Minting([], next, facts);
    assert facts.Keys == {} && FirstFree({}, 0) == 1;
  }

  lemma Minted()
    ensures ValidPrepare(EXAMPLE.nameOf, CONTENT)
    ensures Drafted(EXAMPLE, EMPTY_STATE, PREPARE.header, CONTENT).candidate == CandidateOf(PREPARE.header, CONTENT, 1, [MEMBER])
  {
    ContentIsValid();
    SortOne(SPEC, SpecBefore);
    MintOne(0, map[]);
    assert EMPTY_STATE.versionFacts.Keys == {} && FirstFree({}, 0) == 1;
  }

  /** What the later steps need to know of the candidate. */
  ghost predicate Pins(c: Candidate) {
    && c.kind == FirstGeneration && c.parent == NO_VERSION && c.contract == "contract" && c.phaseRun == "phase"
    && c.members == [MEMBER] && c.staging == [STAGED] && c.runtimeRefs == [RUNTIME_REF] && c.channels == [CHANNEL_DECK]
    && c.capabilityRefs == [CAPABILITY_REF]
    && c.validationRef == CONTENT.validationRef && c.commitRef == CONTENT.commitRef
  }

  lemma CandidatePins()
    ensures Pins(CandidateOf(PREPARE.header, CONTENT, 1, [MEMBER]))
  {
    SortOne(MEMBER, MemberBefore);
    SortOne(STAGED, StagingBefore);
  }

  /** The operation as it enters the journal. */
  ghost predicate JustPrepared(op: Operation) {
    && op.state == OpPrepared && op.generation == 1 && op.fence == 1 && op.safetyEpoch == 1 && op.activityGeneration == 1
    && op.residue.None? && op.debt.None? && op.evidence.None? && Pins(op.candidate)
    && RejectKind !in op.outcomes && AssembleKind !in op.outcomes && ResolveKind !in op.outcomes && VerifyKind !in op.outcomes
  }

  lemma PreparedOperation(op: Operation)
    requires op == Settle(At(1), NewOperation(At(1), EMPTY_STATE, PREPARE.header, CandidateOf(PREPARE.header, CONTENT, 1, [MEMBER]),
                                              RequestDigest(PREPARE)), PrepareKind, RequestDigest(PREPARE), None, NoEffect).op
    ensures JustPrepared(op)
  {
    CandidatePins();
  }

  lemma PrepareIsEntered()
    ensures ValidIntent(EXAMPLE.nameOf, PREPARE) && ValidPrepare(EXAMPLE.nameOf, CONTENT)
    ensures PrepareStep(EXAMPLE, At(1), EMPTY_STATE, PREPARE)
      == Entered(EXAMPLE, At(1), EMPTY_STATE, Drafted(EXAMPLE, EMPTY_STATE, PREPARE.header, CONTENT), PREPARE.header, RequestDigest(PREPARE))
  {
    PrepareIsAccepted();
    ContentIsValid();
  }

  lemma PrepareRoute()
    ensures Pinned(EMPTY_STATE) && ValidIntent(EXAMPLE.nameOf, PREPARE)
    ensures Mutate(EXAMPLE, At(1), EMPTY_STATE, PREPARE).state == PrepareStep(EXAMPLE, At(1), EMPTY_STATE, PREPARE).state
  {
    PrepareIsAccepted();
    MutateRoute(EXAMPLE, At(1), EMPTY_STATE, PREPARE);
  }

  lemma StepEnters()
    ensures ValidIntent(EXAMPLE.nameOf, PREPARE)
    ensures var s := PrepareStep(EXAMPLE, At(1), EMPTY_STATE, PREPARE).state;
      SCOPE in s.operations && JustPrepared(s.operations[SCOPE]) && StreamOf(s, TASK) == UNPUBLISHED
  {
    PrepareIsEntered();
    Minted();
    DraftKeepsLog(EXAMPLE, EMPTY_STATE, PREPARE.header, CONTENT);
    DraftedStreams();
    DraftEnters(Drafted(EXAMPLE, EMPTY_STATE, PREPARE.header, CONTENT));
  }

  lemma PrepareEnters()
    ensures Pinned(EMPTY_STATE)
    ensures var s := Mutate(EXAMPLE, At(1), EMPTY_STATE, PREPARE).state;
      SCOPE in s.operations && JustPrepared(s.operations[SCOPE]) && StreamOf(s, TASK) == UNPUBLISHED
  {
    PrepareRoute();
    StepEnters();
  }

  lemma EmptyIsReachable()
    ensures Reachable(EXAMPLE, EMPTY_STATE)
  {
    R.Stays((a: State, b: State) => Takes(EXAMPLE, a, b), EMPTY_STATE);
  }

  const UNPUBLISHED := Stream(0, NO_VERSION)

  lemma EnteredStream(draft: Draft)
    requires draft.state.streams == map[]
    ensures StreamOf(Entered(EXAMPLE, At(1), EMPTY_STATE, draft, PREPARE.header, RequestDigest(PREPARE)).state, TASK) == UNPUBLISHED
  {
  }

  lemma DraftedStreams()
    requires ValidPrepare(EXAMPLE.nameOf, CONTENT)
    ensures Drafted(EXAMPLE, EMPTY_STATE, PREPARE.header, CONTENT).state.streams == map[]
  {
  }

  lemma DraftEnters(draft: Draft)
    requires draft.candidate == CandidateOf(PREPARE.header, CONTENT, 1, [MEMBER])
    requires draft.state.operations == map[] && draft.state.auditFacts == [] && draft.state.nextAudit == 0 && draft.state.streams == map[]
    ensures var s := Entered(EXAMPLE, At(1), EMPTY_STATE, draft, PREPARE.header, RequestDigest(PREPARE)).state;
      SCOPE in s.operations && JustPrepared(s.operations[SCOPE]) && StreamOf(s, TASK) == UNPUBLISHED
  {
    EnteredStream(draft);
    EnteredAdds(EXAMPLE, At(1), EMPTY_STATE, draft, PREPARE.header, RequestDigest(PREPARE));
    PreparedOperation(Settle(At(1), NewOperation(At(1), EMPTY_STATE, PREPARE.header, draft.candidate, RequestDigest(PREPARE)),
                             PrepareKind, RequestDigest(PREPARE), None, NoEffect).op);
  }

  ghost function Prepared(): (s: State)
    ensures Reachable(EXAMPLE, s) && SCOPE in s.operations && JustPrepared(s.operations[SCOPE]) && StreamOf(s, TASK) == UNPUBLISHED
  {
    EmptyIsReachable();
    PrepareEnters();
    After(EMPTY_STATE, At(1), PREPARE)
  }

  // ---- Reject, record the assembly, resolve, and release into a blocked receipt ----

  const ASSEMBLY := Assembly("assembly", BYTES, 1, 1)
  const REJECT := Signed(BY_TASK, Reject(EvidenceFailed, None))
  const ASSEMBLE := Signed(BY_CLEANUP, Assemble(ASSEMBLY))
  const RESOLVE := Signed(BY_CLEANUP, Resolve(AcceptedException, None, "approval", 9))
  const RELEASE := Signed(BY_CLEANUP, Release)

  /** An accepted and authorized request of this kind on the operation of the runs. */
  ghost predicate Fits(intent: Intent, kind: IntentKind) {
    && KindOf(intent.payload) == kind && ScopeOf(intent.header) == SCOPE && EntryRefusal(EXAMPLE, intent).None?
    && MayAct(EXAMPLE, intent) && intent.header.generation == 1 && intent.header.fence == 1
  }

  lemma TaskRequestFits(p: Payload)
    requires ValidIntent(EXAMPLE.nameOf, Intent(BY_TASK, p)) && !(p.Reconcile? && p.mode == CompleteRelease)
    ensures Fits(Signed(BY_TASK, p), KindOf(p))
  {
    SignedIsAccepted(BY_TASK, p);
  }

  lemma CleanupRequestFits(p: Payload)
    requires ValidIntent(EXAMPLE.nameOf, Intent(BY_CLEANUP, p)) && (p.Assemble? || p.Release? || p.Resolve?)
    ensures Fits(Signed(BY_CLEANUP, p), KindOf(p))
  {
    SignedIsAccepted(BY_CLEANUP, p);
  }

  ghost predicate Closing(op: Operation) {
    && op.state == OpRejected && op.generation == 1 && op.fence == 1 && op.candidate.runtimeRefs != []
    && op.residue.Some? && op.residue.value.disposition == Pending
  }

  ghost predicate JustRejected(op: Operation) {
    Closing(op) && op.debt.None? && AssembleKind !in op.outcomes && ResolveKind !in op.outcomes
  }

  ghost predicate JustAssembled(op: Operation) {
    && Closing(op) && ResolveKind !in op.outcomes
    && op.debt.Some? && op.debt.value.status == DebtOpen && op.debt.value.claimGeneration == 1 && op.debt.value.claimFence == 1
  }

  ghost predicate JustResolved(op: Operation) {
    && Closing(op) && op.debt.Some? && op.debt.value.status == DebtResolved && op.debt.value.resolutionClass == AcceptedException
  }

  lemma RejectLeaves(env: Env, op: Operation, h: Header, reason: RejectReason, digest: Digest)
    requires JustPrepared(op) && Authorized(EXAMPLE, h.authority, RejectKind) && h.generation == 1 && h.fence == 1
    ensures var r := RejectOp(EXAMPLE, env, op, h, reason, digest); r.Changed? && JustRejected(r.op)
  {
  }

  lemma AssembleLeaves(env: Env, view: View, op: Operation, h: Header, a: Assembly, digest: Digest)
    requires JustRejected(op) && Authorized(EXAMPLE, h.authority, AssembleKind) && h.generation == 1 && h.fence == 1
    ensures var r := AssembleOp(EXAMPLE, env, view, op, h, a, digest); r.Changed? && JustAssembled(r.op)
  {
  }

  lemma ResolveLeaves(env: Env, view: View, op: Operation, h: Header, approval: string, expiresAt: Instant, digest: Digest)
    requires JustAssembled(op) && Authorized(EXAMPLE, h.authority, ResolveKind) && h.generation == 1 && h.fence == 1
    ensures var r := ResolveOp(EXAMPLE, env, view, op, h, AcceptedException, None, approval, expiresAt, digest); r.Changed? && JustResolved(r.op)
  {
  }

  lemma RejectContinues(env: Env, view: View, op: Operation, intent: Intent)
    requires Fits(intent, RejectKind) && JustPrepared(op)
    ensures op.candidate.runtimeRefs != []
    ensures var r := ContinueOp(EXAMPLE, env, view, op, intent); r.Changed? && JustRejected(r.op)
  {
    RejectLeaves(env, op, intent.header, intent.payload.rejectReason, RequestDigest(intent));
  }

  lemma RejectStep(s: State, env: Env, intent: Intent, s': State)
    requires Pinned(s) && s' == Mutate(EXAMPLE, env, s, intent).state && Fits(intent, RejectKind)
    requires SCOPE in s.operations && JustPrepared(s.operations[SCOPE])
    ensures SCOPE in s'.operations && JustRejected(s'.operations[SCOPE])
  {
    RejectContinues(env, ViewOf(s, SCOPE, s.operations[SCOPE]), s.operations[SCOPE], intent);
    StepContinues(s, env, intent, s');
  }

  lemma AssembleContinues(env: Env, view: View, op: Operation, intent: Intent)
    requires Fits(intent, AssembleKind) && JustRejected(op)
    ensures op.candidate.runtimeRefs != []
    ensures var r := ContinueOp(EXAMPLE, env, view, op, intent); r.Changed? && JustAssembled(r.op)
  {
    AssembleLeaves(env, view, op, intent.header, intent.payload.assembly, RequestDigest(intent));
  }

  lemma AssembleStep(s: State, env: Env, intent: Intent, s': State)
    requires Pinned(s) && s' == Mutate(EXAMPLE, env, s, intent).state && Fits(intent, AssembleKind)
    requires SCOPE in s.operations && JustRejected(s.operations[SCOPE])
    ensures SCOPE in s'.operations && JustAssembled(s'.operations[SCOPE])
  {
    AssembleContinues(env, ViewOf(s, SCOPE, s.operations[SCOPE]), s.operations[SCOPE], intent);
    StepContinues(s, env, intent, s');
  }

  lemma ResolveContinues(env: Env, view: View, op: Operation, intent: Intent)
    requires Fits(intent, ResolveKind) && JustAssembled(op) && intent.payload.class_ == AcceptedException && intent.payload.evidence == None
    ensures op.candidate.runtimeRefs != []
    ensures var r := ContinueOp(EXAMPLE, env, view, op, intent); r.Changed? && JustResolved(r.op)
  {
    ResolveLeaves(env, view, op, intent.header, intent.payload.approval, intent.payload.expiresAt, RequestDigest(intent));
  }

  lemma ResolveStep(s: State, env: Env, intent: Intent, s': State)
    requires Pinned(s) && s' == Mutate(EXAMPLE, env, s, intent).state && Fits(intent, ResolveKind) && intent.payload.class_ == AcceptedException && intent.payload.evidence == None
    requires SCOPE in s.operations && JustAssembled(s.operations[SCOPE])
    ensures SCOPE in s'.operations && JustResolved(s'.operations[SCOPE])
  {
    ResolveContinues(env, ViewOf(s, SCOPE, s.operations[SCOPE]), s.operations[SCOPE], intent);
    StepContinues(s, env, intent, s');
  }

  ghost function Rejected(): (s: State)
    ensures Reachable(EXAMPLE, s) && SCOPE in s.operations && JustRejected(s.operations[SCOPE])
  {
    TaskRequestFits(Reject(EvidenceFailed, None));
    RejectStep(Prepared(), At(2), REJECT, After(Prepared(), At(2), REJECT));
    After(Prepared(), At(2), REJECT)
  }

  ghost function Assembled(): (s: State)
    ensures Reachable(EXAMPLE, s) && SCOPE in s.operations && JustAssembled(s.operations[SCOPE])
  {
    CleanupRequestFits(Assemble(ASSEMBLY));
    AssembleStep(Rejected(), At(3), ASSEMBLE, After(Rejected(), At(3), ASSEMBLE));
    After(Rejected(), At(3), ASSEMBLE)
  }

  lemma ResolveFits()
    ensures Fits(RESOLVE, ResolveKind)
  {
    CleanupRequestFits(Resolve(AcceptedException, None, "approval", 9));
  }

  ghost function ResolvedDebt(): (s: State)
    ensures Reachable(EXAMPLE, s) && SCOPE in s.operations && JustResolved(s.operations[SCOPE])
  {
    ResolveFits();
    ResolveStep(Assembled(), At(4), RESOLVE, After(Assembled(), At(4), RESOLVE));
    After(Assembled(), At(4), RESOLVE)
  }

  lemma ReleaseReopens(s: State)
    requires SCOPE in s.operations && JustResolved(s.operations[SCOPE])
    ensures HasResolved(s, SCOPE) && Reopens(EXAMPLE, At(5), s, RELEASE, SCOPE)
  {
    CleanupRequestFits(Release);
  }

  /** Resolved is not absorbing: a run of five submissions, prepare, reject,
      assemble, resolve and release, resolves a debt and then blocks it, its
      resolution still on record. */
  lemma ResolvedIsNotAbsorbing()
    ensures var s := ResolvedDebt();
      var s' := After(s, At(5), RELEASE);
      && Reachable(EXAMPLE, s) && HasResolved(s, SCOPE)
      && Reachable(EXAMPLE, s') && Stands(s', SCOPE, true) && s'.operations[SCOPE].debt.value.status == DebtBlocked
  {
    var s := ResolvedDebt();
    ReleaseReopens(s);
    ResolvedStaysUnlessBlocked(EXAMPLE, At(5), s, RELEASE, SCOPE);
  }

  /** That resolution names an audit identity, and no fact of that run carries it. */
  lemma ResolutionNamesNoFact()
    ensures var s := ResolvedDebt();
      var d := s.operations[SCOPE].debt.value;
      && Reachable(EXAMPLE, s) && d.status == DebtResolved && 0 < d.resolutionAudit < s.nextAudit
      && forall i | 0 <= i < |s.auditFacts| :: s.auditFacts[i].id != d.resolutionAudit
  {
    ResolutionAuditIsUnclaimed(EXAMPLE, ResolvedDebt(), SCOPE);
  }

  // ---- Verify, and activate under other epochs ----

  const VERIFY := Signed(BY_TASK, Verify(VerifyPayload([RUNTIME], VALIDATION, COMMIT, [CAPABILITY])))
  const BY_LATER_EPOCH := HeaderBy(Authority(TaskOrchestration, "orchestration", 1), 7, 8)
  const ACTIVATE := Signed(BY_LATER_EPOCH, Activate)

  lemma RuntimePasses(c: Candidate)
    requires Pins(c)
    ensures RuntimeFailure(RegistryOf(EXAMPLE), c, VERIFY.header, [RUNTIME]).None? && ProposalOf([RUNTIME], c.runtimeRefs[0]) == BYTES
  {
    var refs := c.runtimeRefs;
    assert refs[..|refs| - 1] == [];
    assert RuntimeFor([RUNTIME], CHANNEL_DECK) == Some(RUNTIME);
    assert FirstRuntimeFailure(RegistryOf(EXAMPLE), c, VERIFY.header, [RUNTIME], []).None?;
    assert RuntimeRefFailure(RegistryOf(EXAMPLE), c, VERIFY.header, [RUNTIME], RUNTIME_REF).None?;
  }

  lemma ValidationPasses(c: Candidate)
    requires Pins(c)
    ensures ValidationFailure(RegistryOf(EXAMPLE), c, VERIFY.header, VALIDATION, [RUNTIME], BYTES).None?
  {
    var refs := [EvidenceRef(RUNTIME.id, RUNTIME.digest)];
    assert seq(1, i requires 0 <= i < 1 => EvidenceRef([RUNTIME][i].id, [RUNTIME][i].digest)) == refs;
    SortOne(refs[0], RefBefore);
  }

  lemma CommitPasses(c: Candidate)
    requires Pins(c)
    ensures CommitFailure(RegistryOf(EXAMPLE), c, VERIFY.header, VALIDATION, COMMIT).None?
  {
  }

  lemma CapabilityPasses(c: Candidate)
    requires Pins(c)
    ensures CapabilityFailure(RegistryOf(EXAMPLE), At(2).capability, c, VERIFY.header, [CAPABILITY]).None?
    ensures AllResolve(At(2).capability, c.capabilityRefs)
  {
    var refs := c.capabilityRefs;
    assert refs[..|refs| - 1] == [];
    assert CapabilityFor([CAPABILITY], "slot") == Some(CAPABILITY);
    assert FirstCapabilityFailure(RegistryOf(EXAMPLE), At(2).capability, c, VERIFY.header, [CAPABILITY], []).None?;
    assert MemberFor([MEMBER], "slot") == Some(MEMBER) && StagingFor([STAGED], "slot") == Some(STAGED);
  }

  ghost predicate JustVerified(op: Operation) {
    && op.state == OpVerified && op.generation == 1 && op.fence == 1 && op.safetyEpoch == 1 && op.activityGeneration == 1
    && op.candidate.parent == NO_VERSION && op.candidate.runtimeRefs != []
  }

  lemma VerifyLeaves(op: Operation)
    requires JustPrepared(op)
    ensures var r := VerifyOp(EXAMPLE, At(2), op, VERIFY.header, VERIFY.payload.verify, RequestDigest(VERIFY)); r.Changed? && JustVerified(r.op)
  {
    RuntimePasses(op.candidate);
    ValidationPasses(op.candidate);
    CommitPasses(op.candidate);
    CapabilityPasses(op.candidate);
  }

  lemma VerifyStep(s: State, env: Env, s': State)
    requires Pinned(s) && env == At(2) && s' == Mutate(EXAMPLE, env, s, VERIFY).state && Fits(VERIFY, VerifyKind)
    requires SCOPE in s.operations && JustPrepared(s.operations[SCOPE])
    ensures SCOPE in s'.operations && JustVerified(s'.operations[SCOPE]) && s'.streams == s.streams
  {
    StepContinues(s, env, VERIFY, s');
    VerifyLeaves(s.operations[SCOPE]);
    VerifyKeepsStreams(s, env, s');
  }

  lemma VerifyKeepsStreams(s: State, env: Env, s': State)
    requires Pinned(s) && s' == Mutate(EXAMPLE, env, s, VERIFY).state && Fits(VERIFY, VerifyKind)
    requires SCOPE in s.operations && JustPrepared(s.operations[SCOPE])
    ensures s'.streams == s.streams
  {
    var op := s.operations[SCOPE];
    var r := ContinueOp(EXAMPLE, env, ViewOf(s, SCOPE, op), op, VERIFY);
    MutateContinues(EXAMPLE, env, s, VERIFY);
    if r.Changed? {
      VerifyIsQuiet(EXAMPLE, env, op, VERIFY.header, VERIFY.payload.verify, RequestDigest(VERIFY));
      AbsorbShape(EXAMPLE, env, s, VERIFY, r);
    }
  }

  lemma VerifyFits()
    ensures Fits(VERIFY, VerifyKind)
  {
    TaskRequestFits(Verify(VerifyPayload([RUNTIME], VALIDATION, COMMIT, [CAPABILITY])));
  }

  ghost function Verified(): (s: State)
    ensures Reachable(EXAMPLE, s) && SCOPE in s.operations && JustVerified(s.operations[SCOPE]) && StreamOf(s, TASK) == UNPUBLISHED
  {
    VerifyFits();
    VerifyStep(Prepared(), At(2), After(Prepared(), At(2), VERIFY));
    After(Prepared(), At(2), VERIFY)
  }

  lemma ActivateIsAdmitted(s: State)
    requires SCOPE in s.operations && JustVerified(s.operations[SCOPE]) && StreamOf(s, TASK) == UNPUBLISHED
    ensures EntryRefusal(EXAMPLE, ACTIVATE).None? && Admits(EXAMPLE, At(3), s, ACTIVATE.header)
  {
    SignedIsAccepted(BY_LATER_EPOCH, Activate);
  }

  /** A run of three submissions commits a version under another safety epoch and
      another activity generation than its operation was prepared with. */
  lemma CommitsUnderOtherEpochs()
    ensures var s := Verified();
      var s' := After(s, At(3), ACTIVATE);
      && Reachable(EXAMPLE, s') && Commits(s, s', SCOPE) && s'.operations[SCOPE].evidence.Some?
      && s'.operations[SCOPE].evidence.value.safetyEpoch != s.operations[SCOPE].safetyEpoch
      && s'.operations[SCOPE].evidence.value.activityGeneration != s.operations[SCOPE].activityGeneration
  {
    var s := Verified();
    ActivateIsAdmitted(s);
    CommitsIff(EXAMPLE, At(3), s, ACTIVATE, SCOPE);
    EvidenceCarriesHeaderEpochs(EXAMPLE, At(3), s, ACTIVATE);
  }
}
