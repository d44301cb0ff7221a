/** The closed evidence matrix of verify, and the capability re-check of
    reconcile. */
module Evidence {
  import opened Basics
  import opened Facts
  import opened Records

  datatype Registry = Registry(runtime: AuthorityID, validation: AuthorityID, c04: AuthorityID, durableObject: AuthorityID)

  function RegistryOf(cfg: Config): Registry {
    Registry(cfg.runtimeAuthority, cfg.validationAuthority, cfg.c04Authority, cfg.durableObjectAuthority)
  }

  datatype Verdict =
    | Failing(failure: EvidenceFailure)
    | Ambiguous(accepted: seq<AcceptedEvidence>)
    | Accepting(accepted: seq<AcceptedEvidence>)

  function FailureErrorCode(kind: FailureKind): ErrorCode {
    match kind
    case RuntimeCount | RuntimeMissing | ExportMissing | CapabilityCount | CapabilityMissing => EvidenceMissing
    case RuntimeCorrupt | ValidationCorrupt | CommitCorrupt | CapabilityCorrupt => EvidenceCorrupt
    case _ => IntegrityFailure
  }

  // ---- Lookups: the matrix reads its lists as maps in which the last entry wins ----

  function RuntimeFor(s: seq<RuntimeEvidence>, channel: ChannelKind): (r: Option<RuntimeEvidence>)
    ensures r.Some? ==> r.value in s && r.value.channel == channel
    ensures r.None? <==> forall e | e in s :: e.channel != channel
  {
    if s == [] then None
    else if s[|s| - 1].channel == channel then Some(s[|s| - 1])
    else assert s == s[..|s| - 1] + [s[|s| - 1]]; RuntimeFor(s[..|s| - 1], channel)
  }

  function CapabilityFor(s: seq<CapabilityEvidence>, slot: SlotID): (r: Option<CapabilityEvidence>)
    ensures r.Some? ==> r.value in s && r.value.slot == slot
    ensures r.None? <==> forall e | e in s :: e.slot != slot
  {
    if s == [] then None
    else if s[|s| - 1].slot == slot then Some(s[|s| - 1])
    else assert s == s[..|s| - 1] + [s[|s| - 1]]; CapabilityFor(s[..|s| - 1], slot)
  }

  function MemberFor(s: seq<Member>, slot: SlotID): (r: Option<Member>)
    ensures r.Some? ==> r.value in s && r.value.slot == slot
    ensures r.None? <==> forall m | m in s :: m.slot != slot
  {
    if s == [] then None
    else if s[|s| - 1].slot == slot then Some(s[|s| - 1])
    else assert s == s[..|s| - 1] + [s[|s| - 1]]; MemberFor(s[..|s| - 1], slot)
  }

  /** Staging is scanned from the front: the first entry wins. */
  function StagingFor(s: seq<Staging>, slot: SlotID): (r: Option<Staging>)
    ensures r.Some? ==> r.value in s && r.value.slot == slot
    ensures r.None? <==> forall x | x in s :: x.slot != slot
  {
    if s == [] then None
    else if s[0].slot == slot then Some(s[0])
    else assert s == [s[0]] + s[1..]; StagingFor(s[1..], slot)
  }

  predicate RuntimeConflict(s: seq<RuntimeEvidence>) {
    exists i, j :: 0 <= i < j < |s| && s[i].channel == s[j].channel && s[i].id != s[j].id
  }

  predicate CapabilityConflict(s: seq<CapabilityEvidence>) {
    exists i, j :: 0 <= i < j < |s| && s[i].slot == s[j].slot && s[i].id != s[j].id
  }

  // ---- One reference at a time ----

  function Fail(kind: FailureKind): Option<EvidenceFailure> { Some(EvidenceFailure(kind, "", "")) }
  function FailEvidence(kind: FailureKind, id: EvidenceID): Option<EvidenceFailure> { Some(EvidenceFailure(kind, id, "")) }
  function FailCapability(kind: FailureKind, id: CapabilityID): Option<EvidenceFailure> { Some(EvidenceFailure(kind, "", id)) }

  function RuntimeRefFailure(reg: Registry, c: Candidate, h: Header, s: seq<RuntimeEvidence>, ref: RuntimeRef): Option<EvidenceFailure> {
    var found := RuntimeFor(s, ref.channel);
    if found.None? then FailEvidence(RuntimeMissing, ref.id)
    else
      var e := found.value;
      if e.id != ref.id || e.digest != ref.digest then FailEvidence(RuntimeMismatch, e.id)
      else if !ValidDigest(e.digest) || e.digest != RuntimeDigest(e) then FailEvidence(RuntimeCorrupt, e.id)
      else if e.producer.authority != reg.runtime || e.domain != h.domain || e.task != h.task
              || e.phaseRun != c.phaseRun || e.safetyEpoch != h.safetyEpoch then FailEvidence(RuntimeScope, e.id)
      else if e.outcome != "completed" then FailEvidence(RuntimeOutcome, e.id)
      else None
  }

  function CapabilityRefFailure(
    reg: Registry, resolve: CapabilityID -> Option<CapabilityEvidence>, c: Candidate, h: Header,
    s: seq<CapabilityEvidence>, ref: CapabilityRef): Option<EvidenceFailure>
  {
    var found := CapabilityFor(s, ref.slot);
    var member := MemberFor(c.members, ref.slot);
    var staged := StagingFor(c.staging, ref.slot);
    if found.None? then FailCapability(CapabilityMissing, ref.id)
    else if staged.None? then FailCapability(CapabilityStaging, found.value.id)
    else
      var e := found.value;
      if e.id != ref.id || e.digest != ref.digest then FailCapability(CapabilityMismatch, e.id)
      else if !ValidDigest(e.digest) || e.digest != CapabilityDigest(e) then FailCapability(CapabilityCorrupt, e.id)
      else if !MatchesFacts(reg, h, e, member, staged.value) then FailCapability(CapabilityFacts, e.id)
      else if resolve(e.id).Some? && resolve(e.id).value.digest != e.digest then FailCapability(CapabilityStale, e.id)
      else None
  }

  /** The capability's facts against the member and the staged reference of its
      slot; a slot without a member compares with the zero member. */
  predicate MatchesFacts(reg: Registry, h: Header, e: CapabilityEvidence, member: Option<Member>, staged: Staging) {
    && e.producer.authority == reg.durableObject && e.domain == h.domain && e.purpose == PublicationMember
    && e.contentID == staged.contentID
    && e.contentDigest == (if member.Some? then member.value.contentDigest else NoDigest)
    && e.size == (if member.Some? then member.value.size else 0)
    && e.writeIntent == ImmutableWrite && e.verificationMethod == ReceiptBoundVerified
    && e.adapter == staged.adapter && e.safetyEpoch == h.safetyEpoch
  }

  function FirstRuntimeFailure(reg: Registry, c: Candidate, h: Header, s: seq<RuntimeEvidence>, refs: seq<RuntimeRef>): Option<EvidenceFailure> {
    if refs == [] then None
    else
      var before := FirstRuntimeFailure(reg, c, h, s, refs[..|refs| - 1]);
      if before.Some? then before else RuntimeRefFailure(reg, c, h, s, refs[|refs| - 1])
  }

  function FirstCapabilityFailure(
    reg: Registry, resolve: CapabilityID -> Option<CapabilityEvidence>, c: Candidate, h: Header,
    s: seq<CapabilityEvidence>, refs: seq<CapabilityRef>): Option<EvidenceFailure>
  {
    if refs == [] then None
    else
      var before := FirstCapabilityFailure(reg, resolve, c, h, s, refs[..|refs| - 1]);
      if before.Some? then before else CapabilityRefFailure(reg, resolve, c, h, s, refs[|refs| - 1])
  }

  lemma {:induction false} NoCapabilityFails(
    reg: Registry, resolve: CapabilityID -> Option<CapabilityEvidence>, c: Candidate, h: Header,
    s: seq<CapabilityEvidence>, refs: seq<CapabilityRef>)
    ensures FirstCapabilityFailure(reg, resolve, c, h, s, refs).None? <==>
      forall ref | ref in refs :: CapabilityRefFailure(reg, resolve, c, h, s, ref).None?
  {
    if refs != [] {
      NoCapabilityFails(reg, resolve, c, h, s, refs[..|refs| - 1]);
      assert refs == refs[..|refs| - 1] + [refs[|refs| - 1]];
    }
  }

  // ---- The four sections of the matrix ----

  function RuntimeFailure(reg: Registry, c: Candidate, h: Header, s: seq<RuntimeEvidence>): Option<EvidenceFailure>
    requires c.runtimeRefs != []
  {
    if |s| != |c.channels| then Fail(RuntimeCount)
    else if RuntimeConflict(s) then Fail(DuplicateRuntime)
    else
      var first := FirstRuntimeFailure(reg, c, h, s, c.runtimeRefs);
      if first.Some? then first
      else if exists i | 0 <= i < |c.runtimeRefs| :: ProposalOf(s, c.runtimeRefs[i]) != ProposalOf(s, c.runtimeRefs[0])
      then Fail(RuntimeManifest)
      else None
  }

  function ProposalOf(s: seq<RuntimeEvidence>, ref: RuntimeRef): Digest {
    var found := RuntimeFor(s, ref.channel);
    if found.None? then NoDigest else found.value.proposal
  }

  function ValidationFailure(reg: Registry, c: Candidate, h: Header, v: ValidationEvidence, s: seq<RuntimeEvidence>, proposal: Digest): Option<EvidenceFailure> {
    if v.id != c.validationRef.id || v.digest != c.validationRef.digest then FailEvidence(ValidationMismatch, v.id)
    else if !ValidDigest(v.digest) || v.digest != ValidationDigest(v) then FailEvidence(ValidationCorrupt, v.id)
    else if v.producer.authority != reg.validation || v.domain != h.domain || v.task != h.task
            || v.contract != c.contract || v.safetyEpoch != h.safetyEpoch then FailEvidence(ValidationScope, v.id)
    else if v.proposal != proposal then FailEvidence(ValidationManifest, v.id)
    else if !SameEvidenceRefSet(v.runtimeRefs, RefsOf(s)) then FailEvidence(ValidationBinding, v.id)
    else None
  }

  function RefBefore(a: EvidenceRef, b: EvidenceRef): bool { TextBefore(a.id, b.id) }

  function RefsOf(s: seq<RuntimeEvidence>): seq<EvidenceRef> {
    Sort(seq(|s|, i requires 0 <= i < |s| => EvidenceRef(s[i].id, s[i].digest)), RefBefore)
  }

  predicate SameEvidenceRefSet(a: seq<EvidenceRef>, b: seq<EvidenceRef>) {
    Sort(a, RefBefore) == Sort(b, RefBefore)
  }

  function CommitFailure(reg: Registry, c: Candidate, h: Header, v: ValidationEvidence, e: CommitEvidence): Option<EvidenceFailure> {
    if e.id != c.commitRef.id || e.digest != c.commitRef.digest then FailEvidence(CommitMismatch, e.id)
    else if !ValidDigest(e.digest) || e.digest != CommitDigest(e) then FailEvidence(CommitCorrupt, e.id)
    else if e.producer.authority != reg.c04 || e.domain != h.domain || e.task != h.task
            || e.validation != v.id || e.validationDigest != v.digest || e.safetyEpoch != h.safetyEpoch
    then FailEvidence(CommitScope, e.id)
    else if e.contentRoot == "" || e.durabilityRoot == "" then FailEvidence(CommitRoots, e.id)
    else if c.kind != ManualEdit then None
    else if e.exported.None? then FailEvidence(ExportMissing, e.id)
    else
      var x := e.exported.value;
      if x.publicationAuthority != reg.c04 || x.sourceVersion != c.parent || x.domain != h.domain
         || x.task != h.task || x.validation != v.id || x.revision != e.revision || x.checkpoint != e.checkpoint
         || !ValidDigest(x.digest) || x.digest != ExportDigest(x)
      then FailEvidence(ExportScope, e.id)
      else None
  }

  function CapabilityFailure(
    reg: Registry, resolve: CapabilityID -> Option<CapabilityEvidence>, c: Candidate, h: Header,
    s: seq<CapabilityEvidence>): Option<EvidenceFailure>
  {
    if |s| != |c.members| then Fail(CapabilityCount)
    else if CapabilityConflict(s) then Fail(DuplicateCapability)
    else FirstCapabilityFailure(reg, resolve, c, h, s, c.capabilityRefs)
  }

  function AcceptedRuntimes(s: seq<RuntimeEvidence>, refs: seq<RuntimeRef>): seq<AcceptedEvidence> {
    if refs == [] then []
    else
      var found := RuntimeFor(s, refs[|refs| - 1].channel);
      AcceptedRuntimes(s, refs[..|refs| - 1])
      + (if found.None? then [] else [AcceptedEvidence(AcceptedRuntime, found.value.id, found.value.digest)])
  }

  /** The pinned references that the registry currently resolves, in order. */
  function AcceptedCapabilities(resolve: CapabilityID -> Option<CapabilityEvidence>, refs: seq<CapabilityRef>): seq<AcceptedEvidence> {
    if refs == [] then []
    else
      var ref := refs[|refs| - 1];
      AcceptedCapabilities(resolve, refs[..|refs| - 1])
      + (if resolve(ref.id).None? then [] else [AcceptedEvidence(AcceptedCapability, ref.id, ref.digest)])
  }

  predicate AllResolve(resolve: CapabilityID -> Option<CapabilityEvidence>, refs: seq<CapabilityRef>) {
    forall i | 0 <= i < |refs| :: resolve(refs[i].id).Some?
  }

  /** Every pinned reference resolves to a current capability with the pinned digest. */
  predicate AllCurrent(resolve: CapabilityID -> Option<CapabilityEvidence>, refs: seq<CapabilityRef>) {
    forall i | 0 <= i < |refs| :: resolve(refs[i].id).Some? && resolve(refs[i].id).value.digest == refs[i].digest
  }

  function Evaluate(
    reg: Registry, resolve: CapabilityID -> Option<CapabilityEvidence>, c: Candidate, h: Header, v: VerifyPayload): Verdict
    requires c.runtimeRefs != []
  {
    var runtime := RuntimeFailure(reg, c, h, v.runtime);
    if runtime.Some? then Failing(runtime.value) else
    var validation := ValidationFailure(reg, c, h, v.validation, v.runtime, ProposalOf(v.runtime, c.runtimeRefs[0]));
    if validation.Some? then Failing(validation.value) else
    var commit := CommitFailure(reg, c, h, v.validation, v.commit);
    if commit.Some? then Failing(commit.value) else
    var capability := CapabilityFailure(reg, resolve, c, h, v.capabilities);
    if capability.Some? then Failing(capability.value) else
    var accepted :=
      AcceptedRuntimes(v.runtime, c.runtimeRefs)
      + [AcceptedEvidence(AcceptedValidation, v.validation.id, v.validation.digest)]
      + [AcceptedEvidence(AcceptedCommit, v.commit.id, v.commit.digest)]
      + AcceptedCapabilities(resolve, c.capabilityRefs);
    if AllResolve(resolve, c.capabilityRefs) then Accepting(accepted) else Ambiguous(accepted)
  }

  // ---- reconcile complete_verification ----

  datatype Recheck = StillAmbiguous | NowResolved | NowFailed(failure: EvidenceFailure)

  function RefFor(refs: seq<CapabilityRef>, slot: SlotID): CapabilityRef {
    if refs == [] then CapabilityRef("", "", NoDigest)
    else if refs[|refs| - 1].slot == slot then refs[|refs| - 1]
    else RefFor(refs[..|refs| - 1], slot)
  }

  function RecheckSlots(resolve: CapabilityID -> Option<CapabilityEvidence>, refs: seq<CapabilityRef>, slots: seq<SlotID>): Recheck {
    if slots == [] then NowResolved
    else
      var ref := RefFor(refs, slots[0]);
      var current := resolve(ref.id);
      if current.None? then StillAmbiguous
      else if current.value.digest != ref.digest then NowFailed(EvidenceFailure(CapabilityStale, "", ref.id))
      else RecheckSlots(resolve, refs, slots[1..])
  }

  function CompleteVerificationOf(resolve: CapabilityID -> Option<CapabilityEvidence>, c: Candidate, v: Verification): Recheck {
    RecheckSlots(resolve, c.capabilityRefs, if v.pendingSlots == [] then CapabilitySlots(c.capabilityRefs) else v.pendingSlots)
  }
}
