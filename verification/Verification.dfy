/** What a successful verification proves about its evidence. */
module VerificationRules {
  import opened Basics
  import opened Facts
  import opened Records
  import opened Evidence
  import opened ResidueRules
  import opened Machine
  import opened Lifecycle
  import opened Invariants
  import opened Steps
  import opened Runs

  // ---- The capability section of the matrix, declaratively ----

  function EvidenceSlots(s: seq<CapabilityEvidence>): (r: seq<SlotID>)
    ensures |r| == |s| && forall i | 0 <= i < |s| :: r[i] == s[i].slot
  { seq(|s|, i requires 0 <= i < |s| => s[i].slot) }

  /** The presented capability is the pinned one, intact, matches the member and
      the staged reference of its slot, and is not known to be stale. */
  ghost predicate Binds(
    reg: Registry, resolve: CapabilityID -> Option<CapabilityEvidence>, c: Candidate, h: Header,
    e: CapabilityEvidence, ref: CapabilityRef)
  {
    && e.slot == ref.slot && e.id == ref.id && e.digest == ref.digest
    && ValidDigest(e.digest) && e.digest == CapabilityDigest(e)
    && StagingFor(c.staging, ref.slot).Some?
    && MatchesFacts(reg, h, e, MemberFor(c.members, ref.slot), StagingFor(c.staging, ref.slot).value)
    && (resolve(e.id).Some? ==> resolve(e.id).value.digest == e.digest)
  }

  /** The presented capabilities and the pinned references pair up one to one. */
  ghost predicate PairUp(
    reg: Registry, resolve: CapabilityID -> Option<CapabilityEvidence>, c: Candidate, h: Header, s: seq<CapabilityEvidence>)
  {
    && |s| == |c.capabilityRefs| && Distinct(EvidenceSlots(s))
    && (forall e | e in s :: exists ref :: ref in c.capabilityRefs && Binds(reg, resolve, c, h, e, ref))
    && (forall ref | ref in c.capabilityRefs :: exists e :: e in s && Binds(reg, resolve, c, h, e, ref))
  }

  lemma RefPasses(
    reg: Registry, resolve: CapabilityID -> Option<CapabilityEvidence>, c: Candidate, h: Header,
    s: seq<CapabilityEvidence>, ref: CapabilityRef)
    ensures CapabilityRefFailure(reg, resolve, c, h, s, ref).None? <==>
      CapabilityFor(s, ref.slot).Some? && Binds(reg, resolve, c, h, CapabilityFor(s, ref.slot).value, ref)
  {
  }

  lemma SlotsCovered(s: seq<CapabilityEvidence>, refs: seq<CapabilityRef>)
    requires |s| == |refs| && Distinct(CapabilitySlots(refs))
    requires forall ref | ref in refs :: CapabilityFor(s, ref.slot).Some?
    ensures Distinct(EvidenceSlots(s)) && forall e | e in s :: e.slot in CapabilitySlots(refs)
  {
    forall slot | slot in CapabilitySlots(refs) ensures slot in EvidenceSlots(s) {
      var i :| 0 <= i < |refs| && refs[i].slot == slot;
      assert refs[i] in refs;
      var e := CapabilityFor(s, slot).value;
      var j :| 0 <= j < |s| && s[j] == e;
      assert EvidenceSlots(s)[j] == slot;
    }
    CoverageIsDistinct(CapabilitySlots(refs), EvidenceSlots(s));
    forall e | e in s ensures e.slot in CapabilitySlots(refs) {
      var j :| 0 <= j < |s| && s[j] == e;
      assert EvidenceSlots(s)[j] in EvidenceSlots(s);
    }
  }

  lemma OnlyInSlot(s: seq<CapabilityEvidence>, e: CapabilityEvidence)
    requires Distinct(EvidenceSlots(s)) && e in s
    ensures CapabilityFor(s, e.slot) == Some(e)
  {
    var found := CapabilityFor(s, e.slot).value;
    var i :| 0 <= i < |s| && s[i] == e;
    var j :| 0 <= j < |s| && s[j] == found;
    assert EvidenceSlots(s)[i] == EvidenceSlots(s)[j];
  }

  lemma PassingPairsUp(
    reg: Registry, resolve: CapabilityID -> Option<CapabilityEvidence>, c: Candidate, h: Header, s: seq<CapabilityEvidence>)
    requires |c.capabilityRefs| == |c.members| && Distinct(CapabilitySlots(c.capabilityRefs))
    requires CapabilityFailure(reg, resolve, c, h, s).None?
    ensures PairUp(reg, resolve, c, h, s)
  {
    var refs := c.capabilityRefs;
    NoCapabilityFails(reg, resolve, c, h, s, refs);
    forall ref | ref in refs
      ensures CapabilityFor(s, ref.slot).Some? && Binds(reg, resolve, c, h, CapabilityFor(s, ref.slot).value, ref)
    {
      RefPasses(reg, resolve, c, h, s, ref);
    }
    SlotsCovered(s, refs);
    forall e | e in s ensures exists ref :: ref in refs && Binds(reg, resolve, c, h, e, ref) {
      var i :| 0 <= i < |refs| && CapabilitySlots(refs)[i] == e.slot;
      OnlyInSlot(s, e);
      assert refs[i] in refs;
    }
  }

  lemma PairingPasses(
    reg: Registry, resolve: CapabilityID -> Option<CapabilityEvidence>, c: Candidate, h: Header, s: seq<CapabilityEvidence>)
    requires |c.capabilityRefs| == |c.members| && PairUp(reg, resolve, c, h, s)
    ensures CapabilityFailure(reg, resolve, c, h, s).None?
  {
    assert forall i, j | 0 <= i < j < |s| :: EvidenceSlots(s)[i] != EvidenceSlots(s)[j];
    NoCapabilityFails(reg, resolve, c, h, s, c.capabilityRefs);
    forall ref | ref in c.capabilityRefs ensures CapabilityRefFailure(reg, resolve, c, h, s, ref).None? {
      var e :| e in s && Binds(reg, resolve, c, h, e, ref);
      OnlyInSlot(s, e);
      RefPasses(reg, resolve, c, h, s, ref);
    }
  }

  /** The capability section accepts exactly the lists that pair up one to one
      with the pinned references: the code only counts entries, rejects two
      different entries for one slot and looks each reference up by slot, and the
      pigeonhole does the rest. */
  lemma CapabilityMatrixIsExact(
    reg: Registry, resolve: CapabilityID -> Option<CapabilityEvidence>, task: TaskID, c: Candidate, h: Header, s: seq<CapabilityEvidence>)
    requires SoundCandidate(task, c)
    ensures CapabilityFailure(reg, resolve, c, h, s).None? <==> PairUp(reg, resolve, c, h, s)
  {
    if CapabilityFailure(reg, resolve, c, h, s).None? {
      PassingPairsUp(reg, resolve, c, h, s);
    }
    if PairUp(reg, resolve, c, h, s) {
      PairingPasses(reg, resolve, c, h, s);
    }
  }

  lemma PairUpForgetsOrder(
    reg: Registry, resolve: CapabilityID -> Option<CapabilityEvidence>, c: Candidate, h: Header,
    s: seq<CapabilityEvidence>, t: seq<CapabilityEvidence>)
    requires multiset(s) == multiset(t) && PairUp(reg, resolve, c, h, s)
    ensures PairUp(reg, resolve, c, h, t)
  {
    SameElements(s, t);
    KeysForgetOrder(s, t, EvidenceSlots(s), EvidenceSlots(t), (e: CapabilityEvidence) => e.slot);
  }

  lemma CapabilitySectionForgetsOrder(
    reg: Registry, resolve: CapabilityID -> Option<CapabilityEvidence>, task: TaskID, c: Candidate, h: Header,
    s: seq<CapabilityEvidence>, t: seq<CapabilityEvidence>)
    requires SoundCandidate(task, c) && multiset(s) == multiset(t)
    ensures CapabilityFailure(reg, resolve, c, h, s).None? == CapabilityFailure(reg, resolve, c, h, t).None?
  {
    CapabilityMatrixIsExact(reg, resolve, task, c, h, s);
    CapabilityMatrixIsExact(reg, resolve, task, c, h, t);
    if PairUp(reg, resolve, c, h, s) { PairUpForgetsOrder(reg, resolve, c, h, s, t); }
    if PairUp(reg, resolve, c, h, t) { PairUpForgetsOrder(reg, resolve, c, h, t, s); }
  }

  lemma VerdictReadsSection(
    reg: Registry, resolve: CapabilityID -> Option<CapabilityEvidence>, c: Candidate, h: Header, v: VerifyPayload, t: seq<CapabilityEvidence>)
    requires c.runtimeRefs != []
    requires CapabilityFailure(reg, resolve, c, h, v.capabilities).None? == CapabilityFailure(reg, resolve, c, h, t).None?
    ensures var a := Evaluate(reg, resolve, c, h, v);
      var b := Evaluate(reg, resolve, c, h, v.(capabilities := t));
      a.Failing? == b.Failing? && (!a.Failing? ==> a == b)
  {
  }

  /** Whether a verification is verified, ambiguous or failed, and what it
      accepts, does not depend on the order its capabilities are presented in. */
  lemma VerdictForgetsOrder(
    reg: Registry, resolve: CapabilityID -> Option<CapabilityEvidence>, task: TaskID, c: Candidate, h: Header,
    v: VerifyPayload, t: seq<CapabilityEvidence>)
    requires SoundCandidate(task, c) && multiset(v.capabilities) == multiset(t)
    ensures var a := Evaluate(reg, resolve, c, h, v);
      var b := Evaluate(reg, resolve, c, h, v.(capabilities := t));
      a.Failing? == b.Failing? && (!a.Failing? ==> a == b)
  {
    CapabilitySectionForgetsOrder(reg, resolve, task, c, h, v.capabilities, t);
    VerdictReadsSection(reg, resolve, c, h, v, t);
  }

  // ---- Verified means resolvable ----

  lemma AcceptedIsCurrent(reg: Registry, resolve: CapabilityID -> Option<CapabilityEvidence>, c: Candidate, h: Header, v: VerifyPayload)
    requires c.runtimeRefs != [] && Evaluate(reg, resolve, c, h, v).Accepting?
    ensures AllCurrent(resolve, c.capabilityRefs)
  {
    NoCapabilityFails(reg, resolve, c, h, v.capabilities, c.capabilityRefs);
    forall i | 0 <= i < |c.capabilityRefs|
      ensures resolve(c.capabilityRefs[i].id).Some? && resolve(c.capabilityRefs[i].id).value.digest == c.capabilityRefs[i].digest
    {
      RefPasses(reg, resolve, c, h, v.capabilities, c.capabilityRefs[i]);
    }
  }

  lemma {:induction false} RefOfSlot(refs: seq<CapabilityRef>, i: nat)
    requires i < |refs| && Distinct(CapabilitySlots(refs))
    ensures RefFor(refs, refs[i].slot) == refs[i]
  {
    var n := |refs| - 1;
    if i < n {
      assert CapabilitySlots(refs)[i] != CapabilitySlots(refs)[n];
      assert forall k | 0 <= k < n :: CapabilitySlots(refs[..n])[k] == CapabilitySlots(refs)[k];
      RefOfSlot(refs[..n], i);
    }
  }

  lemma {:induction false} RecheckedSlots(resolve: CapabilityID -> Option<CapabilityEvidence>, refs: seq<CapabilityRef>, slots: seq<SlotID>)
    requires RecheckSlots(resolve, refs, slots).NowResolved?
    ensures forall i | 0 <= i < |slots| ::
      var ref := RefFor(refs, slots[i]); resolve(ref.id).Some? && resolve(ref.id).value.digest == ref.digest
  {
    if slots != [] {
      RecheckedSlots(resolve, refs, slots[1..]);
      forall i | 0 <= i < |slots|
        ensures var ref := RefFor(refs, slots[i]); resolve(ref.id).Some? && resolve(ref.id).value.digest == ref.digest
      {
        if i > 0 { assert slots[i] == slots[1..][i - 1]; }
      }
    }
  }

  /** A re-check with nothing pending looks at every pinned reference. */
  lemma RecheckIsComplete(resolve: CapabilityID -> Option<CapabilityEvidence>, c: Candidate, v: Verification)
    requires Distinct(CapabilitySlots(c.capabilityRefs)) && v.pendingSlots == []
    requires CompleteVerificationOf(resolve, c, v).NowResolved?
    ensures AllCurrent(resolve, c.capabilityRefs)
  {
    var refs := c.capabilityRefs;
    RecheckedSlots(resolve, refs, CapabilitySlots(refs));
    forall i | 0 <= i < |refs| ensures resolve(refs[i].id).Some? && resolve(refs[i].id).value.digest == refs[i].digest {
      RefOfSlot(refs, i);
      assert CapabilitySlots(refs)[i] == refs[i].slot;
    }
  }

  lemma VerifyVerifies(cfg: Config, env: Env, op: Operation, h: Header, v: VerifyPayload, digest: Digest)
    requires op.candidate.runtimeRefs != []
    requires VerifyOp(cfg, env, op, h, v, digest).Changed? && VerifyOp(cfg, env, op, h, v, digest).op.state == OpVerified
    ensures VerifyOp(cfg, env, op, h, v, digest).op.candidate == op.candidate
    ensures AllCurrent(env.capability, op.candidate.capabilityRefs)
  {
    AcceptedIsCurrent(RegistryOf(cfg), env.capability, op.candidate, h, v);
  }

  lemma ReconcileVerifies(cfg: Config, env: Env, scope: OperationScope, op: Operation, h: Header, mode: ReconcileMode, digest: Digest)
    requires SoundOperation(cfg, scope, op) && op.state != OpVerified
    requires ReconcileOp(cfg, env, op, h, mode, digest).Changed? && ReconcileOp(cfg, env, op, h, mode, digest).op.state == OpVerified
    ensures ReconcileOp(cfg, env, op, h, mode, digest).op.candidate == op.candidate
    ensures AllCurrent(env.capability, op.candidate.capabilityRefs)
  {
    if mode == CompleteRelease {
      RecheckedKeeps(cfg, env, scope, op, mode);
      ReleaseKeepsState(cfg, env, scope, op.(reconcileMode := mode), h);
    } else {
      RecheckIsComplete(env.capability, op.candidate, op.verification.value);
    }
  }

  lemma ReleaseKeepsState(cfg: Config, env: Env, scope: OperationScope, op: Operation, h: Header)
    requires SoundOperation(cfg, scope, op)
    ensures RunRelease(cfg, env, op, h).op.state == op.state && RunRelease(cfg, env, op, h).op.candidate == op.candidate
  {
    RunReleaseCases(cfg, env, scope, op, h);
    RunReleaseKeeps(cfg, env, scope, op, h);
  }

  /** No other intent leads into Verified. */
  lemma OthersDoNotVerify(cfg: Config, env: Env, view: View, op: Operation, intent: Intent)
    requires SoundOperation(cfg, ScopeOf(intent.header), op) && op.state != OpVerified
    requires !intent.payload.Prepare? && !intent.payload.Verify? && !intent.payload.Reconcile?
    ensures var r := ContinueOp(cfg, env, view, op, intent); r.Changed? ==> r.op.state != OpVerified
  {
    var h, digest := intent.header, RequestDigest(intent);
    match intent.payload
    case Release => ReleaseKeepsState(cfg, env, ScopeOf(h), op, h);
    case Activate =>
    case Reject(reason, _) => RejectLeavesVerified(cfg, env, op, h, reason, digest);
    case Cancel(reason) => CancelLeavesVerified(cfg, env, op, h, reason, digest);
    case Assemble(a) => AssembleKeepsState(cfg, env, view, op, h, a, digest);
    case Resolve(class_, evidence, approval, expiresAt) =>
      ResolveKeepsState(cfg, env, view, op, h, class_, evidence, approval, expiresAt, digest);
  }

  lemma RejectLeavesVerified(cfg: Config, env: Env, op: Operation, h: Header, reason: RejectReason, digest: Digest)
    ensures var r := RejectOp(cfg, env, op, h, reason, digest); r.Changed? ==> r.op.state == OpRejected
  {
  }

  lemma CancelLeavesVerified(cfg: Config, env: Env, op: Operation, h: Header, reason: CancelReason, digest: Digest)
    ensures var r := CancelOp(cfg, env, op, h, reason, digest); r.Changed? ==> r.op.state == OpCancelled
  {
  }

  lemma AssembleKeepsState(cfg: Config, env: Env, view: View, op: Operation, h: Header, a: Assembly, digest: Digest)
    ensures var r := AssembleOp(cfg, env, view, op, h, a, digest); r.Changed? ==> r.op.state == op.state
  {
  }

  lemma ContinueVerifies(cfg: Config, env: Env, view: View, op: Operation, intent: Intent)
    requires SoundOperation(cfg, ScopeOf(intent.header), op) && op.state != OpVerified && !intent.payload.Prepare?
    requires ContinueOp(cfg, env, view, op, intent).Changed? && ContinueOp(cfg, env, view, op, intent).op.state == OpVerified
    ensures AllCurrent(env.capability, ContinueOp(cfg, env, view, op, intent).op.candidate.capabilityRefs)
  {
    var h, digest := intent.header, RequestDigest(intent);
    match intent.payload
    case Verify(v) => VerifyVerifies(cfg, env, op, h, v, digest);
    case Reconcile(mode) => ReconcileVerifies(cfg, env, ScopeOf(h), op, h, mode, digest);
    case _ => OthersDoNotVerify(cfg, env, view, op, intent);
  }

  lemma ResolveKeepsState(
    cfg: Config, env: Env, view: View, op: Operation, h: Header, class_: ResolutionClass,
    evidence: Option<ResolutionEvidence>, approval: string, expiresAt: Instant, digest: Digest)
    ensures var r := ResolveOp(cfg, env, view, op, h, class_, evidence, approval, expiresAt, digest);
      r.Changed? ==> r.op.state == op.state
  {
  }

  /** Whatever submission puts an operation into Verified, by verify or by
      reconcile, every capability its candidate pins resolves in that very step to
      a current capability with the pinned digest. */
  lemma VerifiedMeansResolvable(cfg: Config, env: Env, s: State, s': State, intent: Intent, scope: OperationScope)
    requires Reachable(cfg, s) && Pinned(s) && Mutate(cfg, env, s, intent).state == s'
    requires scope in s'.operations && s'.operations[scope].state == OpVerified
    requires scope in s.operations ==> s.operations[scope].state != OpVerified
    ensures AllCurrent(env.capability, s'.operations[scope].candidate.capabilityRefs)
  {
    MutateRoute(cfg, env, s, intent);
    match RouteOf(cfg, s, intent)
    case Refused =>
    case Flags =>
    case Prepares => PrepareIsUnverified(cfg, env, s, intent);
    case Continues =>
      var x := ScopeOf(intent.header);
      ReachableSound(cfg, s, x);
      AbsorbVerifies(cfg, env, s, s', intent, scope, ContinueOp(cfg, env, ViewOf(s, x, s.operations[x]), s.operations[x], intent));
  }

  lemma PrepareIsUnverified(cfg: Config, env: Env, s: State, intent: Intent)
    requires intent.payload.Prepare? && ValidIntent(cfg.nameOf, intent)
    ensures var s' := PrepareStep(cfg, env, s, intent).state;
      forall x | x in s'.operations :: s'.operations[x].state == OpVerified ==> x in s.operations && s.operations[x] == s'.operations[x]
  {
    var h, p := intent.header, intent.payload.prepare;
    if PrepareRefusal(cfg, env, s, h, p).None? {
      var draft := Drafted(cfg, s, h, p);
      assert draft.state.operations == s.operations;
      EnteredIsUnverified(cfg, env, s, draft, h, RequestDigest(intent));
    }
  }

  lemma EnteredIsUnverified(cfg: Config, env: Env, s: State, draft: Draft, h: Header, digest: Digest)
    ensures var s' := Entered(cfg, env, s, draft, h, digest).state;
      forall x | x in s'.operations :: s'.operations[x].state == OpVerified ==> x in draft.state.operations && draft.state.operations[x] == s'.operations[x]
  {
    var r := Settle(env, NewOperation(env, s, h, draft.candidate, digest), PrepareKind, digest, None, NoEffect);
    AuditedShape(cfg, env, Persisted(draft.state, ScopeOf(h), r.op), h, PrepareKind, r.op);
  }

  lemma AbsorbVerifies(cfg: Config, env: Env, s: State, s': State, intent: Intent, scope: OperationScope, r: OpResult)
    requires ScopeOf(intent.header) in s.operations && !intent.payload.Prepare?
    requires SoundOperation(cfg, ScopeOf(intent.header), s.operations[ScopeOf(intent.header)])
    requires var x := ScopeOf(intent.header); r == ContinueOp(cfg, env, ViewOf(s, x, s.operations[x]), s.operations[x], intent)
    requires s' == Absorb(cfg, env, s, intent, r) && scope in s'.operations && s'.operations[scope].state == OpVerified
    requires scope in s.operations ==> s.operations[scope].state != OpVerified
    ensures AllCurrent(env.capability, s'.operations[scope].candidate.capabilityRefs)
  {
    if r.Changed? {
      AbsorbShape(cfg, env, s, intent, r);
      var x := ScopeOf(intent.header);
      ContinueVerifies(cfg, env, ViewOf(s, x, s.operations[x]), s.operations[x], intent);
    }
  }
}
