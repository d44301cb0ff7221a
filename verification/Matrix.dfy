/** The loops of the evidence matrix and of the prepare validators, proved
    against the specifications they compute. */
module Matrix {
  import opened Basics
  import opened Facts
  import opened Records
  import opened Evidence
  import opened Machine

  // ---- Runtime evidence ----

  lemma RuntimeGrows(s: seq<RuntimeEvidence>, i: nat, channel: ChannelKind)
    requires i < |s|
    ensures RuntimeFor(s[..i + 1], channel) == if s[i].channel == channel then Some(s[i]) else RuntimeFor(s[..i], channel)
  {
    assert s[..i + 1][..i] == s[..i];
  }

  ghost predicate RuntimeIndex(m: map<ChannelKind, RuntimeEvidence>, s: seq<RuntimeEvidence>) {
    forall c :: RuntimeFor(s, c) == if c in m then Some(m[c]) else None
  }

  lemma RuntimeIndexGrows(m: map<ChannelKind, RuntimeEvidence>, s: seq<RuntimeEvidence>, i: nat)
    requires i < |s| && RuntimeIndex(m, s[..i])
    ensures RuntimeIndex(m[s[i].channel := s[i]], s[..i + 1])
  {
    var m1 := m[s[i].channel := s[i]];
    forall c ensures RuntimeFor(s[..i + 1], c) == if c in m1 then Some(m1[c]) else None {
      RuntimeGrows(s, i, c);
      assert RuntimeFor(s[..i], c) == if c in m then Some(m[c]) else None;
    }
  }

  lemma RuntimeConflictFound(m: map<ChannelKind, RuntimeEvidence>, s: seq<RuntimeEvidence>, i: nat)
    requires i < |s| && RuntimeIndex(m, s[..i]) && s[i].channel in m && m[s[i].channel].id != s[i].id
    ensures RuntimeConflict(s)
  {
    assert RuntimeFor(s[..i], s[i].channel) == Some(m[s[i].channel]);
    var k :| 0 <= k < i && s[..i][k] == m[s[i].channel];
    assert s[k] == m[s[i].channel];
  }

  /** Comparing with the last entry of the same key is enough to rule a conflict out. */
  lemma RuntimeConflictExcluded(m: map<ChannelKind, RuntimeEvidence>, s: seq<RuntimeEvidence>, i: nat)
    requires i < |s| && RuntimeIndex(m, s[..i]) && !RuntimeConflict(s[..i])
    requires s[i].channel in m ==> m[s[i].channel].id == s[i].id
    ensures !RuntimeConflict(s[..i + 1])
  {
    var front, next, key := s[..i], s[..i + 1], s[i].channel;
    assert RuntimeFor(front, key) == if key in m then Some(m[key]) else None;
    forall a, b | 0 <= a < b < |next| && next[a].channel == next[b].channel ensures next[a].id == next[b].id {
      assert front[a] == next[a] && front[a] in front;
      if b < i {
        assert front[b] == next[b];
      } else {
        var k :| 0 <= k < i && front[k] == m[key];
      }
    }
  }

  /** Index the evidence by channel, last entry winning, and report whether two
      entries for one channel have different identities. */
  method IndexRuntime(s: seq<RuntimeEvidence>) returns (conflict: bool, byChannel: map<ChannelKind, RuntimeEvidence>)
    ensures conflict == RuntimeConflict(s)
    ensures !conflict ==> RuntimeIndex(byChannel, s)
  {
    byChannel := map[];
    for i := 0 to |s|
      invariant RuntimeIndex(byChannel, s[..i]) && !RuntimeConflict(s[..i])
    {
      if s[i].channel in byChannel && byChannel[s[i].channel].id != s[i].id {
        RuntimeConflictFound(byChannel, s, i);
        return true, byChannel;
      }
      RuntimeConflictExcluded(byChannel, s, i);
      RuntimeIndexGrows(byChannel, s, i);
      byChannel := byChannel[s[i].channel := s[i]];
    }
    assert s[..|s|] == s;
    return false, byChannel;
  }

  lemma {:induction false} EarlyRuntimeFailure(reg: Registry, c: Candidate, h: Header, s: seq<RuntimeEvidence>, refs: seq<RuntimeRef>, i: nat)
    requires i <= |refs| && FirstRuntimeFailure(reg, c, h, s, refs[..i]).Some?
    ensures FirstRuntimeFailure(reg, c, h, s, refs) == FirstRuntimeFailure(reg, c, h, s, refs[..i])
  {
    if i < |refs| {
      assert refs[..|refs| - 1][..i] == refs[..i];
      EarlyRuntimeFailure(reg, c, h, s, refs[..|refs| - 1], i);
    } else {
      assert refs[..i] == refs;
    }
  }

  lemma AcceptedRuntimesGrow(s: seq<RuntimeEvidence>, refs: seq<RuntimeRef>, j: nat)
    requires j < |refs| && RuntimeFor(s, refs[j].channel).Some?
    ensures var e := RuntimeFor(s, refs[j].channel).value;
      AcceptedRuntimes(s, refs[..j + 1]) == AcceptedRuntimes(s, refs[..j]) + [AcceptedEvidence(AcceptedRuntime, e.id, e.digest)]
  {
    assert refs[..j + 1][..j] == refs[..j];
  }

  /** The checks of one runtime reference, in the order they are made. */
  method CheckRuntime(
    reg: Registry, c: Candidate, h: Header, byChannel: map<ChannelKind, RuntimeEvidence>, ghost s: seq<RuntimeEvidence>, ref: RuntimeRef)
    returns (failure: Option<EvidenceFailure>)
    requires RuntimeIndex(byChannel, s)
    ensures failure == RuntimeRefFailure(reg, c, h, s, ref)
    ensures failure.None? ==> ref.channel in byChannel && RuntimeFor(s, ref.channel) == Some(byChannel[ref.channel])
  {
    assert RuntimeFor(s, ref.channel) == if ref.channel in byChannel then Some(byChannel[ref.channel]) else None;
    if ref.channel !in byChannel {
      return FailEvidence(RuntimeMissing, ref.id);
    }
    var e := byChannel[ref.channel];
    if e.id != ref.id || e.digest != ref.digest {
      return FailEvidence(RuntimeMismatch, e.id);
    }
    if !ValidDigest(e.digest) || e.digest != RuntimeDigest(e) {
      return FailEvidence(RuntimeCorrupt, e.id);
    }
    if e.producer.authority != reg.runtime || e.domain != h.domain || e.task != h.task
       || e.phaseRun != c.phaseRun || e.safetyEpoch != h.safetyEpoch {
      return FailEvidence(RuntimeScope, e.id);
    }
    if e.outcome != "completed" {
      return FailEvidence(RuntimeOutcome, e.id);
    }
    return None;
  }

  /** Every channel proposes what the first one does. */
  method SameProposal(proposals: seq<Digest>) returns (same: bool)
    requires proposals != []
    ensures same <==> forall k | 0 <= k < |proposals| :: proposals[k] == proposals[0]
  {
    for j := 1 to |proposals|
      invariant forall k | 0 <= k < j :: proposals[k] == proposals[0]
    {
      if proposals[j] != proposals[0] {
        return false;
      }
    }
    return true;
  }

  /** The runtime section: the first failing check, or the accepted evidence and
      the one proposal all channels agree on. */
  method EvaluateRuntime(reg: Registry, c: Candidate, h: Header, s: seq<RuntimeEvidence>)
    returns (failure: Option<EvidenceFailure>, accepted: seq<AcceptedEvidence>, proposal: Digest)
    requires c.runtimeRefs != []
    ensures failure == RuntimeFailure(reg, c, h, s)
    ensures failure.None? ==> accepted == AcceptedRuntimes(s, c.runtimeRefs) && proposal == ProposalOf(s, c.runtimeRefs[0])
  {
    accepted, proposal := [], NoDigest;
    if |s| != |c.channels| {
      return Fail(RuntimeCount), accepted, proposal;
    }
    var conflict, byChannel := IndexRuntime(s);
    if conflict {
      return Fail(DuplicateRuntime), accepted, proposal;
    }
    var proposals: seq<Digest>;
    failure, accepted, proposals := CheckAllRuntime(reg, c, h, byChannel, s, c.runtimeRefs);
    if failure.Some? {
      return failure, accepted, proposal;
    }
    proposal := proposals[0];
    var same := SameProposal(proposals);
    if !same {
      return Fail(RuntimeManifest), accepted, proposal;
    }
    return None, accepted, proposal;
  }

  method CheckAllRuntime(
    reg: Registry, c: Candidate, h: Header, byChannel: map<ChannelKind, RuntimeEvidence>, ghost s: seq<RuntimeEvidence>, refs: seq<RuntimeRef>)
    returns (failure: Option<EvidenceFailure>, accepted: seq<AcceptedEvidence>, proposals: seq<Digest>)
    requires RuntimeIndex(byChannel, s)
    ensures failure == FirstRuntimeFailure(reg, c, h, s, refs)
    ensures failure.None? ==> accepted == AcceptedRuntimes(s, refs) && |proposals| == |refs|
    ensures failure.None? ==> forall k | 0 <= k < |refs| :: proposals[k] == ProposalOf(s, refs[k])
  {
    accepted, proposals := [], [];
    for j := 0 to |refs|
      invariant |proposals| == j && forall k | 0 <= k < j :: proposals[k] == ProposalOf(s, refs[k])
      invariant FirstRuntimeFailure(reg, c, h, s, refs[..j]).None?
      invariant accepted == AcceptedRuntimes(s, refs[..j])
    {
      failure := CheckRuntime(reg, c, h, byChannel, s, refs[j]);
      assert refs[..j + 1][..j] == refs[..j];
      if failure.Some? {
        EarlyRuntimeFailure(reg, c, h, s, refs, j + 1);
        return failure, accepted, proposals;
      }
      var e := byChannel[refs[j].channel];
      AcceptedRuntimesGrow(s, refs, j);
      accepted := accepted + [AcceptedEvidence(AcceptedRuntime, e.id, e.digest)];
      proposals := proposals + [e.proposal];
    }
    assert refs[..|refs|] == refs;
    return None, accepted, proposals;
  }

  // ---- Content capabilities ----

  lemma CapabilityGrows(s: seq<CapabilityEvidence>, i: nat, slot: SlotID)
    requires i < |s|
    ensures CapabilityFor(s[..i + 1], slot) == if s[i].slot == slot then Some(s[i]) else CapabilityFor(s[..i], slot)
  {
    assert s[..i + 1][..i] == s[..i];
  }

  ghost predicate CapabilityIndex(m: map<SlotID, CapabilityEvidence>, s: seq<CapabilityEvidence>) {
    forall c :: CapabilityFor(s, c) == if c in m then Some(m[c]) else None
  }

  lemma CapabilityIndexGrows(m: map<SlotID, CapabilityEvidence>, s: seq<CapabilityEvidence>, i: nat)
    requires i < |s| && CapabilityIndex(m, s[..i])
    ensures CapabilityIndex(m[s[i].slot := s[i]], s[..i + 1])
  {
    var m1 := m[s[i].slot := s[i]];
    forall c ensures CapabilityFor(s[..i + 1], c) == if c in m1 then Some(m1[c]) else None {
      CapabilityGrows(s, i, c);
      assert CapabilityFor(s[..i], c) == if c in m then Some(m[c]) else None;
    }
  }

  lemma CapabilityConflictFound(m: map<SlotID, CapabilityEvidence>, s: seq<CapabilityEvidence>, i: nat)
    requires i < |s| && CapabilityIndex(m, s[..i]) && s[i].slot in m && m[s[i].slot].id != s[i].id
    ensures CapabilityConflict(s)
  {
    assert CapabilityFor(s[..i], s[i].slot) == Some(m[s[i].slot]);
    var k :| 0 <= k < i && s[..i][k] == m[s[i].slot];
    assert s[k] == m[s[i].slot];
  }

  /** Comparing with the last entry of the same key is enough to rule a conflict out. */
  lemma CapabilityConflictExcluded(m: map<SlotID, CapabilityEvidence>, s: seq<CapabilityEvidence>, i: nat)
    requires i < |s| && CapabilityIndex(m, s[..i]) && !CapabilityConflict(s[..i])
    requires s[i].slot in m ==> m[s[i].slot].id == s[i].id
    ensures !CapabilityConflict(s[..i + 1])
  {
    var front, next, key := s[..i], s[..i + 1], s[i].slot;
    assert CapabilityFor(front, key) == if key in m then Some(m[key]) else None;
    forall a, b | 0 <= a < b < |next| && next[a].slot == next[b].slot ensures next[a].id == next[b].id {
      assert front[a] == next[a] && front[a] in front;
      if b < i {
        assert front[b] == next[b];
      } else {
        var k :| 0 <= k < i && front[k] == m[key];
      }
    }
  }

  /** The same for capabilities by member slot. */
  method IndexCapabilities(s: seq<CapabilityEvidence>) returns (conflict: bool, bySlot: map<SlotID, CapabilityEvidence>)
    ensures conflict == CapabilityConflict(s)
    ensures !conflict ==> CapabilityIndex(bySlot, s)
  {
    bySlot := map[];
    for i := 0 to |s|
      invariant CapabilityIndex(bySlot, s[..i]) && !CapabilityConflict(s[..i])
    {
      if s[i].slot in bySlot && bySlot[s[i].slot].id != s[i].id {
        CapabilityConflictFound(bySlot, s, i);
        return true, bySlot;
      }
      CapabilityConflictExcluded(bySlot, s, i);
      CapabilityIndexGrows(bySlot, s, i);
      bySlot := bySlot[s[i].slot := s[i]];
    }
    assert s[..|s|] == s;
    return false, bySlot;
  }

  method IndexMembers(s: seq<Member>) returns (bySlot: map<SlotID, Member>)
    ensures forall slot :: MemberFor(s, slot) == if slot in bySlot then Some(bySlot[slot]) else None
  {
    bySlot := map[];
    for i := 0 to |s|
      invariant forall slot :: MemberFor(s[..i], slot) == if slot in bySlot then Some(bySlot[slot]) else None
    {
      assert s[..i + 1][..i] == s[..i];
      bySlot := bySlot[s[i].slot := s[i]];
    }
    assert s[..|s|] == s;
  }

  lemma {:induction false} EarlyCapabilityFailure(
    reg: Registry, resolve: CapabilityID -> Option<CapabilityEvidence>, c: Candidate, h: Header,
    s: seq<CapabilityEvidence>, refs: seq<CapabilityRef>, i: nat)
    requires i <= |refs| && FirstCapabilityFailure(reg, resolve, c, h, s, refs[..i]).Some?
    ensures FirstCapabilityFailure(reg, resolve, c, h, s, refs) == FirstCapabilityFailure(reg, resolve, c, h, s, refs[..i])
  {
    if i < |refs| {
      assert refs[..|refs| - 1][..i] == refs[..i];
      EarlyCapabilityFailure(reg, resolve, c, h, s, refs[..|refs| - 1], i);
    } else {
      assert refs[..i] == refs;
    }
  }

  /** The checks of one reference, in the order they are made; None when it is
      resolvable or merely not resolvable now. */
  method CheckCapability(
    reg: Registry, resolve: CapabilityID -> Option<CapabilityEvidence>, c: Candidate, h: Header,
    members: map<SlotID, Member>, bySlot: map<SlotID, CapabilityEvidence>, ghost s: seq<CapabilityEvidence>, ref: CapabilityRef)
    returns (failure: Option<EvidenceFailure>)
    requires CapabilityIndex(bySlot, s)
    requires forall slot :: MemberFor(c.members, slot) == if slot in members then Some(members[slot]) else None
    ensures failure == CapabilityRefFailure(reg, resolve, c, h, s, ref)
    ensures failure.None? ==> ref.slot in bySlot && bySlot[ref.slot].id == ref.id && bySlot[ref.slot].digest == ref.digest
  {
    assert CapabilityFor(s, ref.slot) == if ref.slot in bySlot then Some(bySlot[ref.slot]) else None;
    if ref.slot !in bySlot {
      return FailCapability(CapabilityMissing, ref.id);
    }
    var e := bySlot[ref.slot];
    var member := if ref.slot in members then Some(members[ref.slot]) else None;
    var staged := StagingFor(c.staging, ref.slot);
    if staged.None? {
      return FailCapability(CapabilityStaging, e.id);
    }
    if e.id != ref.id || e.digest != ref.digest {
      return FailCapability(CapabilityMismatch, e.id);
    }
    if !ValidDigest(e.digest) || e.digest != CapabilityDigest(e) {
      return FailCapability(CapabilityCorrupt, e.id);
    }
    if !MatchesFacts(reg, h, e, member, staged.value) {
      return FailCapability(CapabilityFacts, e.id);
    }
    if resolve(e.id).Some? && resolve(e.id).value.digest != e.digest {
      return FailCapability(CapabilityStale, e.id);
    }
    return None;
  }

  /** The slots whose pinned capability does not resolve now, in order. */
  function Unresolved(resolve: CapabilityID -> Option<CapabilityEvidence>, refs: seq<CapabilityRef>): seq<SlotID> {
    if refs == [] then []
    else
      Unresolved(resolve, refs[..|refs| - 1])
      + (if resolve(refs[|refs| - 1].id).None? then [refs[|refs| - 1].slot] else [])
  }

  lemma {:induction false} UnresolvedIffSome(resolve: CapabilityID -> Option<CapabilityEvidence>, refs: seq<CapabilityRef>)
    ensures Unresolved(resolve, refs) == [] <==> AllResolve(resolve, refs)
  {
    if refs != [] {
      var front := refs[..|refs| - 1];
      UnresolvedIffSome(resolve, front);
      assert forall k | 0 <= k < |front| :: front[k] == refs[k];
      assert AllResolve(resolve, refs) <==> AllResolve(resolve, front) && resolve(refs[|refs| - 1].id).Some?;
    }
  }

  lemma AcceptedCapabilitiesGrow(resolve: CapabilityID -> Option<CapabilityEvidence>, refs: seq<CapabilityRef>, j: nat)
    requires j < |refs|
    ensures AcceptedCapabilities(resolve, refs[..j + 1]) == AcceptedCapabilities(resolve, refs[..j])
      + (if resolve(refs[j].id).None? then [] else [AcceptedEvidence(AcceptedCapability, refs[j].id, refs[j].digest)])
    ensures Unresolved(resolve, refs[..j + 1]) == Unresolved(resolve, refs[..j])
      + (if resolve(refs[j].id).None? then [refs[j].slot] else [])
  {
    assert refs[..j + 1][..j] == refs[..j] && refs[..j + 1][j] == refs[j];
  }

  method CheckAllCapabilities(
    reg: Registry, resolve: CapabilityID -> Option<CapabilityEvidence>, c: Candidate, h: Header,
    members: map<SlotID, Member>, bySlot: map<SlotID, CapabilityEvidence>, ghost s: seq<CapabilityEvidence>, refs: seq<CapabilityRef>)
    returns (failure: Option<EvidenceFailure>, accepted: seq<AcceptedEvidence>, ambiguous: seq<SlotID>)
    requires CapabilityIndex(bySlot, s)
    requires forall slot :: MemberFor(c.members, slot) == if slot in members then Some(members[slot]) else None
    ensures failure == FirstCapabilityFailure(reg, resolve, c, h, s, refs)
    ensures failure.None? ==> accepted == AcceptedCapabilities(resolve, refs) && ambiguous == Unresolved(resolve, refs)
  {
    accepted, ambiguous := [], [];
    for j := 0 to |refs|
      invariant FirstCapabilityFailure(reg, resolve, c, h, s, refs[..j]).None?
      invariant accepted == AcceptedCapabilities(resolve, refs[..j]) && ambiguous == Unresolved(resolve, refs[..j])
    {
      failure := CheckCapability(reg, resolve, c, h, members, bySlot, s, refs[j]);
      assert refs[..j + 1][..j] == refs[..j];
      if failure.Some? {
        EarlyCapabilityFailure(reg, resolve, c, h, s, refs, j + 1);
        return failure, accepted, ambiguous;
      }
      AcceptedCapabilitiesGrow(resolve, refs, j);
      if resolve(refs[j].id).None? {
        ambiguous := ambiguous + [refs[j].slot];
      } else {
        accepted := accepted + [AcceptedEvidence(AcceptedCapability, refs[j].id, refs[j].digest)];
      }
    }
    assert refs[..|refs|] == refs;
    return None, accepted, ambiguous;
  }

  /** The capability section: the first failing check, or the accepted
      capabilities and the slots that do not resolve now. */
  method EvaluateCapabilities(
    reg: Registry, resolve: CapabilityID -> Option<CapabilityEvidence>, c: Candidate, h: Header, s: seq<CapabilityEvidence>)
    returns (failure: Option<EvidenceFailure>, accepted: seq<AcceptedEvidence>, ambiguous: seq<SlotID>)
    ensures failure == CapabilityFailure(reg, resolve, c, h, s)
    ensures failure.None? ==>
      accepted == AcceptedCapabilities(resolve, c.capabilityRefs) && (ambiguous == [] <==> AllResolve(resolve, c.capabilityRefs))
  {
    if |s| != |c.members| {
      return Fail(CapabilityCount), [], [];
    }
    var members := IndexMembers(c.members);
    var conflict, bySlot := IndexCapabilities(s);
    if conflict {
      return Fail(DuplicateCapability), [], [];
    }
    failure, accepted, ambiguous := CheckAllCapabilities(reg, resolve, c, h, members, bySlot, s, c.capabilityRefs);
    UnresolvedIffSome(resolve, c.capabilityRefs);
  }

  /** The closed evidence matrix: item by item, first failure wins; otherwise
      ambiguous when some pinned capability does not resolve now. */
  method EvaluateEvidence(
    reg: Registry, resolve: CapabilityID -> Option<CapabilityEvidence>, c: Candidate, h: Header, v: VerifyPayload)
    returns (verdict: Verdict)
    requires c.runtimeRefs != []
    ensures verdict == Evaluate(reg, resolve, c, h, v)
  {
    var failure, runtime, proposal := EvaluateRuntime(reg, c, h, v.runtime);
    if failure.Some? {
      return Failing(failure.value);
    }
    failure := ValidationFailure(reg, c, h, v.validation, v.runtime, proposal);
    if failure.Some? {
      return Failing(failure.value);
    }
    var accepted := runtime + [AcceptedEvidence(AcceptedValidation, v.validation.id, v.validation.digest)];
    failure := CommitFailure(reg, c, h, v.validation, v.commit);
    if failure.Some? {
      return Failing(failure.value);
    }
    accepted := accepted + [AcceptedEvidence(AcceptedCommit, v.commit.id, v.commit.digest)];
    var capabilities, ambiguous;
    failure, capabilities, ambiguous := EvaluateCapabilities(reg, resolve, c, h, v.capabilities);
    if failure.Some? {
      return Failing(failure.value);
    }
    accepted := accepted + capabilities;
    if ambiguous != [] {
      return Ambiguous(accepted);
    }
    return Accepting(accepted);
  }

  // ---- Re-checking pinned capabilities ----

  lemma {:induction false} RecheckFrom(resolve: CapabilityID -> Option<CapabilityEvidence>, refs: seq<CapabilityRef>, slots: seq<SlotID>, i: nat)
    requires i <= |slots|
    requires forall k | 0 <= k < i :: var ref := RefFor(refs, slots[k]); resolve(ref.id).Some? && resolve(ref.id).value.digest == ref.digest
    ensures RecheckSlots(resolve, refs, slots) == RecheckSlots(resolve, refs, slots[i..])
  {
    if i > 0 {
      RecheckFrom(resolve, refs, slots, i - 1);
      assert slots[i - 1..][0] == slots[i - 1] && slots[i - 1..][1..] == slots[i..];
    }
  }

  method RecheckCapabilities(resolve: CapabilityID -> Option<CapabilityEvidence>, c: Candidate, v: Verification)
    returns (recheck: Recheck)
    ensures recheck == CompleteVerificationOf(resolve, c, v)
  {
    var refs := c.capabilityRefs;
    var bySlot: map<SlotID, CapabilityRef> := map[];
    for i := 0 to |refs|
      invariant forall slot :: RefFor(refs[..i], slot) == if slot in bySlot then bySlot[slot] else CapabilityRef("", "", NoDigest)
    {
      assert refs[..i + 1][..i] == refs[..i];
      bySlot := bySlot[refs[i].slot := refs[i]];
    }
    assert refs[..|refs|] == refs;
    var pending := v.pendingSlots;
    if |pending| == 0 {
      for i := 0 to |refs|
        invariant |pending| == i && forall k | 0 <= k < i :: pending[k] == refs[k].slot
      {
        pending := pending + [refs[i].slot];
      }
      assert pending == CapabilitySlots(refs);
    }
    for i := 0 to |pending|
      invariant forall k | 0 <= k < i ::
        var ref := RefFor(refs, pending[k]); resolve(ref.id).Some? && resolve(ref.id).value.digest == ref.digest
    {
      RecheckFrom(resolve, refs, pending, i);
      var ref := if pending[i] in bySlot then bySlot[pending[i]] else CapabilityRef("", "", NoDigest);
      var current := resolve(ref.id);
      if current.None? {
        return StillAmbiguous;
      }
      if current.value.digest != ref.digest {
        return NowFailed(EvidenceFailure(CapabilityStale, "", ref.id));
      }
    }
    RecheckFrom(resolve, refs, pending, |pending|);
    return NowResolved;
  }
}
