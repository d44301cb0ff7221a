/** What prepare builds: freshly minted identities in slot order, a sound
    candidate, and canonical forms that forget the order of the request. */
module Preparation {
  import opened Basics
  import opened Facts
  import opened Records
  import opened Evidence
  import opened Manifests
  import opened Machine
  import opened Lifecycle

  // ---- Sorting by slot ----

  lemma SlotOrderIsStrict(s: seq<MemberSpec>)
    requires Distinct(MemberSlots(s))
    ensures StrictOn(multiset(s), SpecBefore) && Distinct(s)
  {
    forall x, y | x in multiset(s) && y in multiset(s) && x != y ensures x.slot != y.slot {
      var i :| 0 <= i < |s| && s[i] == x;
      var j :| 0 <= j < |s| && s[j] == y;
      assert MemberSlots(s)[i] == x.slot && MemberSlots(s)[j] == y.slot;
    }
    forall x, y | x in multiset(s) && y in multiset(s) ensures SpecBefore(x, y) ==> !SpecBefore(y, x) {
      TextBeforeIsTotal(x.slot, y.slot);
    }
    forall x, y | x in multiset(s) && y in multiset(s) && x != y ensures SpecBefore(x, y) || SpecBefore(y, x) {
      TextBeforeIsTotal(x.slot, y.slot);
    }
    forall x, y, z | x in multiset(s) && y in multiset(s) && z in multiset(s) && SpecBefore(x, y) && SpecBefore(y, z)
      ensures SpecBefore(x, z)
    {
      TextBeforeIsTransitive(x.slot, y.slot, z.slot);
    }
    forall i, j | 0 <= i < j < |s| ensures s[i] != s[j] { assert MemberSlots(s)[i] != MemberSlots(s)[j]; }
  }

  lemma StagingOrderIsStrict(s: seq<Staging>)
    requires Distinct(StagingSlots(s))
    ensures StrictOn(multiset(s), StagingBefore) && Distinct(s)
  {
    forall x, y | x in multiset(s) && y in multiset(s) && x != y ensures x.slot != y.slot {
      var i :| 0 <= i < |s| && s[i] == x;
      var j :| 0 <= j < |s| && s[j] == y;
      assert StagingSlots(s)[i] == x.slot && StagingSlots(s)[j] == y.slot;
    }
    forall x, y | x in multiset(s) && y in multiset(s) ensures StagingBefore(x, y) ==> !StagingBefore(y, x) {
      TextBeforeIsTotal(x.slot, y.slot);
    }
    forall x, y | x in multiset(s) && y in multiset(s) && x != y ensures StagingBefore(x, y) || StagingBefore(y, x) {
      TextBeforeIsTotal(x.slot, y.slot);
    }
    forall x, y, z | x in multiset(s) && y in multiset(s) && z in multiset(s) && StagingBefore(x, y) && StagingBefore(y, z)
      ensures StagingBefore(x, z)
    {
      TextBeforeIsTransitive(x.slot, y.slot, z.slot);
    }
    forall i, j | 0 <= i < j < |s| ensures s[i] != s[j] { assert StagingSlots(s)[i] != StagingSlots(s)[j]; }
  }

  lemma CapabilityOrderIsStrict(s: seq<CapabilityRef>)
    requires Distinct(CapabilitySlots(s))
    ensures StrictOn(multiset(s), CapabilityRefBefore) && Distinct(s)
  {
    forall x, y | x in multiset(s) && y in multiset(s) && x != y ensures x.slot != y.slot {
      var i :| 0 <= i < |s| && s[i] == x;
      var j :| 0 <= j < |s| && s[j] == y;
      assert CapabilitySlots(s)[i] == x.slot && CapabilitySlots(s)[j] == y.slot;
    }
    forall x, y | x in multiset(s) && y in multiset(s) ensures CapabilityRefBefore(x, y) ==> !CapabilityRefBefore(y, x) {
      TextBeforeIsTotal(x.slot, y.slot);
      TextBeforeIsTotal(x.id, y.id);
    }
    forall x, y | x in multiset(s) && y in multiset(s) && x != y ensures CapabilityRefBefore(x, y) || CapabilityRefBefore(y, x) {
      TextBeforeIsTotal(x.slot, y.slot);
    }
    forall x, y, z | x in multiset(s) && y in multiset(s) && z in multiset(s) && CapabilityRefBefore(x, y) && CapabilityRefBefore(y, z)
      ensures CapabilityRefBefore(x, z)
    {
      if x == y { TextBeforeIsTotal(x.id, x.id); }
      if y == z { TextBeforeIsTotal(y.id, y.id); }
      TextBeforeIsTransitive(x.slot, y.slot, z.slot);
      if x == z { TextBeforeIsTotal(x.slot, y.slot); }
    }
    forall i, j | 0 <= i < j < |s| ensures s[i] != s[j] { assert CapabilitySlots(s)[i] != CapabilitySlots(s)[j]; }
  }

  // ---- Minting ----

  lemma FirstFreeIsNext(taken: set<nat>, from: nat)
    requires forall n | n in taken :: n <= from
    ensures FirstFree(taken, from) == from + 1
  {
  }

  /** What minting one ArtifactID per spec leaves behind. */
  ghost predicate Minted(task: TaskScope, specs: seq<MemberSpec>, next: nat, facts: map<ArtifactID, TaskScope>, m: Minting) {
    && |m.members| == |specs| && m.next == next + |specs|
    && (forall i | 0 <= i < |specs| :: m.members[i].artifact == next + 1 + i && MintedFrom(specs[i], m.members[i]))
    && (forall a | a in facts :: a in m.facts && m.facts[a] == facts[a])
    && (forall a | a in m.facts :: 0 < a <= m.next)
    && (forall i | 0 <= i < |specs| :: m.members[i].artifact in m.facts && m.facts[m.members[i].artifact] == task)
  }

  ghost predicate MintedFrom(spec: MemberSpec, m: Member) {
    m.slot == spec.slot && m.kind == spec.kind && m.media == spec.media && m.size == spec.size && m.contentDigest == spec.contentDigest
  }

  lemma {:induction false} MintingIsFresh(nameOf: string -> Option<string>, task: TaskScope, specs: seq<MemberSpec>, next: nat, facts: map<ArtifactID, TaskScope>)
    requires forall i | 0 <= i < |specs| :: nameOf(specs[i].logicalName).Some?
    requires forall a | a in facts :: 0 < a <= next
    ensures Minted(task, specs, next, facts, MintMembers(nameOf, task, specs, next, facts))
  {
    if specs != [] {
      var n := |specs| - 1;
      MintingIsFresh(nameOf, task, specs[..n], next, facts);
      var front := MintMembers(nameOf, task, specs[..n], next, facts);
      FirstFreeIsNext(front.facts.Keys, front.next);
    }
  }

  /** Members minted in slot order are already sorted, so the second sort of
      prepare and the sort of the canonical manifest both keep their order. */
  lemma MintedInOrder(task: TaskScope, specs: seq<MemberSpec>, next: nat, facts: map<ArtifactID, TaskScope>, m: Minting)
    requires Minted(task, specs, next, facts, m) && Ordered(specs, SpecBefore)
    ensures Sort(m.members, MemberBefore) == m.members
    ensures forall i, j | 0 <= i < j < |m.members| :: m.members[i].artifact < m.members[j].artifact
  {
    var s := m.members;
    forall i, j | 0 <= i < j < |s| ensures TextBefore(s[i].slot, s[j].slot) && MemberBefore(s[i], s[j]) {
      assert SpecBefore(specs[i], specs[j]);
      TextBeforeIsTotal(s[i].slot, s[j].slot);
    }
    MemberOrderIsStrict(s);
    SortedAlready(s, MemberBefore);
  }

  lemma MemberOrderIsStrict(s: seq<Member>)
    requires forall i, j | 0 <= i < j < |s| :: TextBefore(s[i].slot, s[j].slot)
    ensures StrictOn(multiset(s), MemberBefore)
  {
    forall x, y | x in multiset(s) && y in multiset(s) && x != y ensures x.slot != y.slot {
      var i :| 0 <= i < |s| && s[i] == x;
      var j :| 0 <= j < |s| && s[j] == y;
      TextBeforeIsTotal(x.slot, y.slot);
    }
    forall x, y | x in multiset(s) && y in multiset(s)
      ensures MemberBefore(x, y) ==> !MemberBefore(y, x)
      ensures x != y ==> MemberBefore(x, y) || MemberBefore(y, x)
    {
      TextBeforeIsTotal(x.slot, y.slot);
    }
    forall x, y, z | x in multiset(s) && y in multiset(s) && z in multiset(s) && MemberBefore(x, y) && MemberBefore(y, z)
      ensures MemberBefore(x, z)
    {
      TextBeforeIsTransitive(x.slot, y.slot, z.slot);
      TextBeforeIsTotal(x.slot, y.slot);
    }
  }

  // ---- The candidate ----

  lemma SortedSpecsFacts(p: PreparePayload)
    requires Distinct(MemberSlots(p.members))
    ensures Ordered(SortedSpecs(p.members), SpecBefore) && |SortedSpecs(p.members)| == |p.members|
    ensures forall spec :: spec in SortedSpecs(p.members) <==> spec in p.members
  {
    SlotOrderIsStrict(p.members);
    SortOrders(p.members, SpecBefore);
    SortKeepsElements(p.members, SpecBefore);
    forall spec ensures spec in SortedSpecs(p.members) <==> spec in p.members {
      assert spec in multiset(SortedSpecs(p.members)) <==> spec in multiset(p.members);
    }
  }

  lemma StagedMember(p: PreparePayload, spec: MemberSpec, m: Member)
    requires Distinct(StagingSlots(p.staging)) && BoundSpec(p, spec) && MintedFrom(spec, m)
    ensures Staged(SortedStaging(p.staging), m)
  {
    var i :| 0 <= i < |p.staging| && p.staging[i].slot == spec.slot
      && p.staging[i].contentDigest == spec.contentDigest && p.staging[i].size == spec.size;
    SortKeepsElements(p.staging, StagingBefore);
    assert p.staging[i] in multiset(SortedStaging(p.staging));
    var found := StagingFor(SortedStaging(p.staging), m.slot);
    assert found.Some?;
    assert found.value in multiset(p.staging);
    var j :| 0 <= j < |p.staging| && p.staging[j] == found.value;
    assert StagingSlots(p.staging)[i] == StagingSlots(p.staging)[j];
  }

  lemma CandidateIsSound(cfg: Config, s: State, h: Header, p: PreparePayload)
    requires Major(h.schema) == 1 && ValidPrepare(cfg.nameOf, p) && ValidBindings(p)
    requires forall a | a in s.artifactFacts :: 0 < a <= s.nextArtifact
    ensures SoundCandidate(h.task, Drafted(cfg, s, h, p).candidate)
  {
    var c := Drafted(cfg, s, h, p).candidate;
    var specs := SortedSpecs(p.members);
    SpecsKeepNames(cfg.nameOf, p.members);
    SortedSpecsFacts(p);
    var task := TaskScope(h.domain, h.task);
    MintingIsFresh(cfg.nameOf, task, specs, s.nextArtifact, s.artifactFacts);
    var minting := MintMembers(cfg.nameOf, task, specs, s.nextArtifact, s.artifactFacts);
    MintedInOrder(task, specs, s.nextArtifact, s.artifactFacts, minting);
    assert c.members == minting.members;
    MembersAreSound(p, specs, c.members);
  }

  lemma MembersAreSound(p: PreparePayload, specs: seq<MemberSpec>, members: seq<Member>)
    requires |members| == |specs| && forall i | 0 <= i < |specs| :: MintedFrom(specs[i], members[i])
    requires Ordered(specs, SpecBefore) && forall spec :: spec in specs <==> spec in p.members
    requires Distinct(StagingSlots(p.staging)) && forall i | 0 <= i < |p.members| :: BoundSpec(p, p.members[i])
    requires forall slot | slot in MemberSlots(p.members) :: slot in CapabilitySlots(p.capabilityRefs)
    ensures Distinct(MemberSlotsOf(members))
    ensures forall m | m in members :: Staged(SortedStaging(p.staging), m)
    ensures forall slot | slot in MemberSlotsOf(members) :: slot in CapabilitySlots(p.capabilityRefs)
  {
    forall i, j | 0 <= i < j < |members| ensures MemberSlotsOf(members)[i] != MemberSlotsOf(members)[j] {
      assert SpecBefore(specs[i], specs[j]);
      TextBeforeIsTotal(specs[i].slot, specs[j].slot);
    }
    forall i | 0 <= i < |members|
      ensures Staged(SortedStaging(p.staging), members[i]) && members[i].slot in CapabilitySlots(p.capabilityRefs)
    {
      assert specs[i] in p.members;
      var k :| 0 <= k < |p.members| && p.members[k] == specs[i];
      StagedMember(p, p.members[k], members[i]);
      assert MemberSlots(p.members)[k] == members[i].slot;
    }
  }

  // ---- Canonical forms forget the order of the request ----

  /** The same request with its members, staging and capability references in another order. */
  ghost predicate Reordered(p: PreparePayload, q: PreparePayload) {
    && multiset(p.members) == multiset(q.members) && multiset(p.staging) == multiset(q.staging)
    && multiset(p.capabilityRefs) == multiset(q.capabilityRefs)
    && q == p.(members := q.members, staging := q.staging, capabilityRefs := q.capabilityRefs)
  }

  lemma ReorderedSlots(p: PreparePayload, q: PreparePayload)
    requires Reordered(p, q) && Distinct(MemberSlots(p.members)) && Distinct(StagingSlots(p.staging)) && Distinct(CapabilitySlots(p.capabilityRefs))
    ensures Distinct(MemberSlots(q.members)) && Distinct(StagingSlots(q.staging)) && Distinct(CapabilitySlots(q.capabilityRefs))
    ensures forall x :: x in MemberSlots(p.members) <==> x in MemberSlots(q.members)
    ensures forall x :: x in StagingSlots(p.staging) <==> x in StagingSlots(q.staging)
    ensures forall x :: x in CapabilitySlots(p.capabilityRefs) <==> x in CapabilitySlots(q.capabilityRefs)
  {
    KeysForgetOrder(p.members, q.members, MemberSlots(p.members), MemberSlots(q.members), (m: MemberSpec) => m.slot);
    KeysForgetOrder(p.staging, q.staging, StagingSlots(p.staging), StagingSlots(q.staging), (s: Staging) => s.slot);
    KeysForgetOrder(p.capabilityRefs, q.capabilityRefs, CapabilitySlots(p.capabilityRefs), CapabilitySlots(q.capabilityRefs), (r: CapabilityRef) => r.slot);
  }

  /** Reordering a request keeps it valid and keeps its bindings. */
  lemma ReorderedStaysValid(nameOf: string -> Option<string>, p: PreparePayload, q: PreparePayload)
    requires ValidPrepare(nameOf, p) && Reordered(p, q)
    ensures ValidPrepare(nameOf, q)
  {
    ReorderedSlots(p, q);
    SameElements(p.members, q.members);
    SameElements(p.staging, q.staging);
    SameElements(p.capabilityRefs, q.capabilityRefs);
    forall i | 0 <= i < |q.members| ensures ValidMember(nameOf, q.members[i]) { assert q.members[i] in p.members; }
    forall i | 0 <= i < |q.staging| ensures ValidStaging(q.staging[i]) && q.staging[i].slot in MemberSlots(q.members) {
      assert q.staging[i] in p.staging;
    }
    forall i | 0 <= i < |q.capabilityRefs|
      ensures ValidCapabilityRef(q.capabilityRefs[i]) && q.capabilityRefs[i].slot in MemberSlots(q.members)
    {
      assert q.capabilityRefs[i] in p.capabilityRefs;
    }
  }

  lemma ReorderedStaysBound(p: PreparePayload, q: PreparePayload)
    requires Reordered(p, q) && ValidBindings(p)
    ensures ValidBindings(q)
  {
    SameElements(p.members, q.members);
    forall i | 0 <= i < |q.members| ensures BoundSpec(q, q.members[i]) {
      assert q.members[i] in p.members;
      var k :| 0 <= k < |p.members| && p.members[k] == q.members[i];
      BoundElsewhere(p, q, p.members[k]);
    }
  }

  lemma BoundElsewhere(p: PreparePayload, q: PreparePayload, spec: MemberSpec)
    requires Reordered(p, q) && BoundSpec(p, spec)
    ensures BoundSpec(q, spec)
  {
    SameElements(p.staging, q.staging);
    SameElements(p.capabilityRefs, q.capabilityRefs);
    var i :| 0 <= i < |p.staging| && p.staging[i].slot == spec.slot
      && p.staging[i].contentDigest == spec.contentDigest && p.staging[i].size == spec.size;
    assert p.staging[i] in q.staging;
    var j :| 0 <= j < |p.capabilityRefs| && p.capabilityRefs[j].slot == spec.slot
      && p.capabilityRefs[j].id != "" && ValidDigest(p.capabilityRefs[j].digest);
    assert p.capabilityRefs[j] in q.capabilityRefs;
  }

  /** Two orders of one valid request draft the same members, staging, manifest
      digest and lineage digest, and burn the same identities. */
  lemma CanonicalCandidate(cfg: Config, s: State, h: Header, p: PreparePayload, q: PreparePayload)
    requires ValidPrepare(cfg.nameOf, p) && Reordered(p, q)
    ensures ValidPrepare(cfg.nameOf, q)
    ensures var a := Drafted(cfg, s, h, p); var b := Drafted(cfg, s, h, q);
      && a.state == b.state && b.candidate == a.candidate.(capabilityRefs := q.capabilityRefs)
  {
    ReorderedStaysValid(cfg.nameOf, p, q);
    SlotOrderIsStrict(p.members);
    SlotOrderIsStrict(q.members);
    SortForgetsOrder(p.members, q.members, SpecBefore);
    StagingOrderIsStrict(p.staging);
    StagingOrderIsStrict(q.staging);
    SortForgetsOrder(p.staging, q.staging, StagingBefore);
    CapabilityOrderIsStrict(p.capabilityRefs);
    CapabilityOrderIsStrict(q.capabilityRefs);
    SortForgetsOrder(p.capabilityRefs, q.capabilityRefs, CapabilityRefBefore);
  }

  lemma ReorderedIsSymmetric(p: PreparePayload, q: PreparePayload)
    requires Reordered(p, q)
    ensures Reordered(q, p)
  {
  }

  /** And the guards of prepare treat the two orders alike. */
  lemma OrderNeverRefuses(cfg: Config, env: Env, s: State, h: Header, p: PreparePayload, q: PreparePayload)
    requires Reordered(p, q)
    ensures PrepareRefusal(cfg, env, s, h, p) == PrepareRefusal(cfg, env, s, h, q)
  {
    ReorderedIsSymmetric(p, q);
    if ValidBindings(p) { ReorderedStaysBound(p, q); }
    if ValidBindings(q) { ReorderedStaysBound(q, p); }
  }

  /** The canonical manifest lists a sound candidate's members in stored order:
      ordering by ArtifactID agrees with ordering by slot. */
  lemma ManifestKeepsMemberOrder(members: seq<Member>)
    requires forall i, j | 0 <= i < j < |members| :: members[i].artifact < members[j].artifact
    ensures CanonicalMembers(members) == seq(|members|, i requires 0 <= i < |members| => ManifestMember(members[i]))
  {
    var s := seq(|members|, i requires 0 <= i < |members| => ManifestMember(members[i]));
    forall i, j | 0 <= i < j < |s| ensures ArtifactBefore(s[i], s[j]) {}
    ArtifactOrderIsStrict(s);
    SortedAlready(s, ArtifactBefore);
  }

  lemma ArtifactOrderIsStrict(s: seq<ArtifactMember>)
    requires forall i, j | 0 <= i < j < |s| :: s[i].artifact < s[j].artifact
    ensures StrictOn(multiset(s), ArtifactBefore)
  {
    forall x, y | x in multiset(s) && y in multiset(s)
      ensures x != y ==> x.artifact != y.artifact
      ensures x == y ==> !TextBefore(x.logicalName, y.logicalName)
    {
      var i :| 0 <= i < |s| && s[i] == x;
      var j :| 0 <= j < |s| && s[j] == y;
      TextBeforeIsTotal(x.logicalName, y.logicalName);
    }
  }
}
