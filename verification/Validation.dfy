/** The loops that validate a prepare request before anything is minted. */
module Validation {
  import opened Basics
  import opened Facts
  import opened Records
  import opened Machine

  lemma DistinctGrows<T>(s: seq<T>, i: nat)
    requires i < |s| && Distinct(s[..i])
    ensures Distinct(s[..i + 1]) <==> s[i] !in s[..i]
    ensures forall x :: x in s[..i + 1] <==> x in s[..i] || x == s[i]
  {
    var longer := s[..i + 1];
    assert longer == s[..i] + [s[i]];
    if s[i] in s[..i] {
      var k :| 0 <= k < i && s[..i][k] == s[i];
      assert longer[k] == longer[i];
    }
  }

  lemma DistinctPrefix<T>(s: seq<T>, i: nat)
    requires i <= |s| && !Distinct(s[..i])
    ensures !Distinct(s)
  {
    var a, b :| 0 <= a < b < i && s[..i][a] == s[..i][b];
    assert s[a] == s[b];
  }

  /** Every needed slot is among the given ones. */
  method Covers(needed: set<SlotID>, given: set<SlotID>) returns (ok: bool)
    ensures ok <==> needed <= given
  {
    var rest := needed;
    while rest != {}
      invariant rest <= needed && needed - rest <= given
      decreases |rest|
    {
      var slot :| slot in rest;
      if slot !in given {
        return false;
      }
      rest := rest - {slot};
    }
    return true;
  }

  method CheckMembers(nameOf: string -> Option<string>, s: seq<MemberSpec>) returns (ok: bool, slots: set<SlotID>)
    ensures ok <==> (forall i | 0 <= i < |s| :: ValidMember(nameOf, s[i])) && Distinct(MemberSlots(s))
    ensures ok ==> forall x :: x in slots <==> x in MemberSlots(s)
  {
    slots := {};
    ghost var all := MemberSlots(s);
    for i := 0 to |s|
      invariant forall k | 0 <= k < i :: ValidMember(nameOf, s[k])
      invariant Distinct(all[..i]) && forall x :: x in slots <==> x in all[..i]
    {
      DistinctGrows(all, i);
      if s[i].slot == "" || !ValidMedia(s[i].kind, s[i].media) || !ValidDigest(s[i].contentDigest) {
        return false, slots;
      }
      if s[i].slot in slots {
        DistinctPrefix(all, i + 1);
        return false, slots;
      }
      slots := slots + {s[i].slot};
      if nameOf(s[i].logicalName).None? {
        return false, slots;
      }
    }
    assert all[..|s|] == all;
    return true, slots;
  }

  method CheckStaging(s: seq<Staging>, slots: set<SlotID>) returns (ok: bool, staged: set<SlotID>)
    ensures ok <==> (forall i | 0 <= i < |s| :: ValidStaging(s[i]) && s[i].slot in slots) && Distinct(StagingSlots(s))
    ensures ok ==> forall x :: x in staged <==> x in StagingSlots(s)
  {
    staged := {};
    ghost var all := StagingSlots(s);
    for i := 0 to |s|
      invariant forall k | 0 <= k < i :: ValidStaging(s[k]) && s[k].slot in slots
      invariant Distinct(all[..i]) && forall x :: x in staged <==> x in all[..i]
    {
      DistinctGrows(all, i);
      if s[i].slot == "" || s[i].contentID == "" || !ValidDigest(s[i].contentDigest)
         || s[i].purpose != PublicationMember || s[i].adapter == "" {
        return false, staged;
      }
      if s[i].slot !in slots {
        return false, staged;
      }
      if s[i].slot in staged {
        DistinctPrefix(all, i + 1);
        return false, staged;
      }
      staged := staged + {s[i].slot};
    }
    assert all[..|s|] == all;
    return true, staged;
  }

  method CheckCapabilityRefs(s: seq<CapabilityRef>, slots: set<SlotID>) returns (ok: bool, pinned: set<SlotID>)
    ensures ok <==> (forall i | 0 <= i < |s| :: ValidCapabilityRef(s[i]) && s[i].slot in slots) && Distinct(CapabilitySlots(s))
    ensures ok ==> forall x :: x in pinned <==> x in CapabilitySlots(s)
  {
    pinned := {};
    ghost var all := CapabilitySlots(s);
    for i := 0 to |s|
      invariant forall k | 0 <= k < i :: ValidCapabilityRef(s[k]) && s[k].slot in slots
      invariant Distinct(all[..i]) && forall x :: x in pinned <==> x in all[..i]
    {
      DistinctGrows(all, i);
      if s[i].slot == "" || s[i].id == "" || !ValidDigest(s[i].digest) {
        return false, pinned;
      }
      if s[i].slot !in slots {
        return false, pinned;
      }
      if s[i].slot in pinned {
        DistinctPrefix(all, i + 1);
        return false, pinned;
      }
      pinned := pinned + {s[i].slot};
    }
    assert all[..|s|] == all;
    return true, pinned;
  }

  /** The payload part of validating a prepare request. */
  method CheckPreparePayload(nameOf: string -> Option<string>, p: PreparePayload) returns (ok: bool)
    ensures ok == ValidPrepare(nameOf, p)
  {
    if p.kind.OtherPublication? || p.contract == "" || p.phaseRun == "" || |p.members| == 0 || |p.staging| == 0
       || |p.channels| == 0 || |p.runtimeRefs| == 0 || |p.capabilityRefs| == 0
       || p.validationRef.id == "" || p.commitRef.id == "" {
      return false;
    }
    if p.kind == FirstGeneration && p.parent != NO_VERSION {
      return false;
    }
    if p.kind == ManualEdit && p.parent == NO_VERSION {
      return false;
    }
    if |p.channels| != |p.runtimeRefs| || |p.members| != |p.staging| || |p.members| != |p.capabilityRefs| {
      return false;
    }
    for i := 0 to |p.channels|
      invariant forall k | 0 <= k < i :: p.channels[k] == CHANNEL_DECK
    {
      if p.channels[i] != CHANNEL_DECK {
        return false;
      }
    }
    for i := 0 to |p.runtimeRefs|
      invariant forall k | 0 <= k < i :: ValidRuntimeRef(p.runtimeRefs[k])
    {
      if !ValidRuntimeRef(p.runtimeRefs[i]) {
        return false;
      }
    }
    if !ValidDigest(p.validationRef.digest) || !ValidDigest(p.commitRef.digest) {
      return false;
    }
    ok := CheckSlots(nameOf, p);
  }

  /** Members, staging and capability references name the same slots, once each. */
  ghost predicate SlotsAgree(nameOf: string -> Option<string>, p: PreparePayload) {
    && (forall i | 0 <= i < |p.members| :: ValidMember(nameOf, p.members[i])) && Distinct(MemberSlots(p.members))
    && (forall i | 0 <= i < |p.staging| :: ValidStaging(p.staging[i]) && p.staging[i].slot in MemberSlots(p.members))
    && Distinct(StagingSlots(p.staging))
    && (forall slot | slot in MemberSlots(p.members) :: slot in StagingSlots(p.staging))
    && (forall i | 0 <= i < |p.capabilityRefs| ::
          ValidCapabilityRef(p.capabilityRefs[i]) && p.capabilityRefs[i].slot in MemberSlots(p.members))
    && Distinct(CapabilitySlots(p.capabilityRefs))
    && (forall slot | slot in MemberSlots(p.members) :: slot in CapabilitySlots(p.capabilityRefs))
  }

  method CheckSlots(nameOf: string -> Option<string>, p: PreparePayload) returns (ok: bool)
    ensures ok == SlotsAgree(nameOf, p)
  {
    var slots, staged, pinned;
    ok, slots := CheckMembers(nameOf, p.members);
    if !ok {
      return;
    }
    ok, staged := CheckStaging(p.staging, slots);
    if !ok {
      return;
    }
    ok := Covers(slots, staged);
    if !ok {
      assert exists slot :: slot in slots && slot !in staged;
      return;
    }
    ok, pinned := CheckCapabilityRefs(p.capabilityRefs, slots);
    if !ok {
      return;
    }
    ok := Covers(slots, pinned);
  }

  // ---- Per-slot bindings of a prepare request ----

  method IndexStaging(s: seq<Staging>) returns (bySlot: map<SlotID, Staging>)
    requires Distinct(StagingSlots(s))
    ensures forall x :: x in bySlot <==> x in StagingSlots(s)
    ensures forall i | 0 <= i < |s| :: s[i].slot in bySlot && bySlot[s[i].slot] == s[i]
  {
    bySlot := map[];
    for i := 0 to |s|
      invariant forall x | x in bySlot :: x in StagingSlots(s)
      invariant forall k | 0 <= k < i :: s[k].slot in bySlot && bySlot[s[k].slot] == s[k]
    {
      forall k | 0 <= k < i ensures s[k].slot != s[i].slot {
        assert StagingSlots(s)[k] != StagingSlots(s)[i];
      }
      assert StagingSlots(s)[i] == s[i].slot;
      bySlot := bySlot[s[i].slot := s[i]];
    }
  }

  method IndexCapabilityRefs(s: seq<CapabilityRef>) returns (bySlot: map<SlotID, CapabilityRef>)
    requires Distinct(CapabilitySlots(s))
    ensures forall x :: x in bySlot <==> x in CapabilitySlots(s)
    ensures forall i | 0 <= i < |s| :: s[i].slot in bySlot && bySlot[s[i].slot] == s[i]
  {
    bySlot := map[];
    for i := 0 to |s|
      invariant forall x | x in bySlot :: x in CapabilitySlots(s)
      invariant forall k | 0 <= k < i :: s[k].slot in bySlot && bySlot[s[k].slot] == s[k]
    {
      forall k | 0 <= k < i ensures s[k].slot != s[i].slot {
        assert CapabilitySlots(s)[k] != CapabilitySlots(s)[i];
      }
      assert CapabilitySlots(s)[i] == s[i].slot;
      bySlot := bySlot[s[i].slot := s[i]];
    }
  }

  method CheckBinding(p: PreparePayload, staged: map<SlotID, Staging>, pinned: map<SlotID, CapabilityRef>, spec: MemberSpec)
    returns (ok: bool)
    requires forall x :: x in staged <==> x in StagingSlots(p.staging)
    requires forall i | 0 <= i < |p.staging| :: p.staging[i].slot in staged && staged[p.staging[i].slot] == p.staging[i]
    requires forall x :: x in pinned <==> x in CapabilitySlots(p.capabilityRefs)
    requires forall i | 0 <= i < |p.capabilityRefs| :: p.capabilityRefs[i].slot in pinned && pinned[p.capabilityRefs[i].slot] == p.capabilityRefs[i]
    ensures ok == BoundSpec(p, spec)
  {
    if spec.slot !in staged {
      assert forall i | 0 <= i < |p.staging| :: p.staging[i].slot != spec.slot;
      return false;
    }
    var s := staged[spec.slot];
    if s.contentDigest != spec.contentDigest || s.size != spec.size {
      return false;
    }
    ghost var i :| 0 <= i < |p.staging| && StagingSlots(p.staging)[i] == spec.slot;
    assert p.staging[i] == s;
    if spec.slot !in pinned {
      assert forall k | 0 <= k < |p.capabilityRefs| :: p.capabilityRefs[k].slot != spec.slot;
      return false;
    }
    var c := pinned[spec.slot];
    ghost var j :| 0 <= j < |p.capabilityRefs| && CapabilitySlots(p.capabilityRefs)[j] == spec.slot;
    assert p.capabilityRefs[j] == c;
    return c.id != "" && ValidDigest(c.digest);
  }

  /** The bindings the payload validator cannot express, on a validated payload. */
  method CheckPrepareBindings(p: PreparePayload) returns (ok: bool)
    requires Distinct(StagingSlots(p.staging)) && Distinct(CapabilitySlots(p.capabilityRefs))
    ensures ok == ValidBindings(p)
  {
    var staged := IndexStaging(p.staging);
    var pinned := IndexCapabilityRefs(p.capabilityRefs);
    for i := 0 to |p.members|
      invariant forall k | 0 <= k < i :: BoundSpec(p, p.members[k])
    {
      var bound := CheckBinding(p, staged, pinned, p.members[i]);
      if !bound {
        return false;
      }
    }
    ok := CheckChannels(p.channels, p.runtimeRefs);
  }

  method CheckChannels(channels: seq<ChannelKind>, refs: seq<RuntimeRef>) returns (ok: bool)
    ensures ok <==> Distinct(channels) && forall i | 0 <= i < |refs| :: refs[i].channel in channels
  {
    var seen: set<ChannelKind> := {};
    for i := 0 to |channels|
      invariant Distinct(channels[..i]) && forall x :: x in seen <==> x in channels[..i]
    {
      DistinctGrows(channels, i);
      if channels[i] in seen {
        DistinctPrefix(channels, i + 1);
        return false;
      }
      seen := seen + {channels[i]};
    }
    assert channels[..|channels|] == channels;
    for i := 0 to |refs|
      invariant forall k | 0 <= k < i :: refs[k].channel in channels
    {
      if refs[i].channel !in seen {
        return false;
      }
    }
    return true;
  }
}
