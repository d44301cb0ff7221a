/** Canonical manifests, lineage and the sorted forms they are computed from. */
module Manifests {
  import opened Basics
  import opened Facts
  import opened Records

  function SpecBefore(a: MemberSpec, b: MemberSpec): bool { TextBefore(a.slot, b.slot) }
  function StagingBefore(a: Staging, b: Staging): bool { TextBefore(a.slot, b.slot) }
  function MemberBefore(a: Member, b: Member): bool {
    if a.slot == b.slot then a.artifact < b.artifact else TextBefore(a.slot, b.slot)
  }
  function ArtifactBefore(a: ArtifactMember, b: ArtifactMember): bool {
    if a.artifact == b.artifact then TextBefore(a.logicalName, b.logicalName) else a.artifact < b.artifact
  }
  function RuntimeRefBefore(a: RuntimeRef, b: RuntimeRef): bool {
    if a.channel == b.channel then TextBefore(a.id, b.id) else TextBefore(a.channel, b.channel)
  }
  function CapabilityRefBefore(a: CapabilityRef, b: CapabilityRef): bool {
    if a.slot == b.slot then TextBefore(a.id, b.id) else TextBefore(a.slot, b.slot)
  }

  function SortedSpecs(s: seq<MemberSpec>): seq<MemberSpec> { Sort(s, SpecBefore) }
  function SortedStaging(s: seq<Staging>): seq<Staging> { Sort(s, StagingBefore) }

  function RuntimeRoot(refs: seq<RuntimeRef>): Digest { Sha256(OfRuntimeRefs(Sort(refs, RuntimeRefBefore))) }
  function CapabilityRoot(refs: seq<CapabilityRef>): Digest { Sha256(OfCapabilityRefs(Sort(refs, CapabilityRefBefore))) }

  function LineageDigestOf(h: Header, p: PreparePayload, version: ArtifactVersionID): Digest {
    Sha256(OfLineage(Lineage(
      h.schema, version, h.task, p.kind, p.parent, h.operation, p.phaseRun, p.contract,
      RuntimeRoot(p.runtimeRefs), p.validationRef, p.commitRef, CapabilityRoot(p.capabilityRefs),
      h.activityGeneration, h.generation, h.fence, h.safetyEpoch)))
  }

  function ManifestMember(m: Member): ArtifactMember {
    ArtifactMember(m.artifact, m.kind, m.logicalName, m.media, m.size, m.contentDigest)
  }

  function CanonicalMembers(members: seq<Member>): seq<ArtifactMember> {
    Sort(seq(|members|, i requires 0 <= i < |members| => ManifestMember(members[i])), ArtifactBefore)
  }

  function ManifestDigestOf(
    schema: nat, version: ArtifactVersionID, task: TaskID, kind: PublicationKind,
    parent: ArtifactVersionID, lineage: Digest, members: seq<Member>): Digest
  {
    Sha256(OfManifest(Manifest(schema, version, task, kind, parent, lineage, CanonicalMembers(members))))
  }

  lemma SpecsKeepNames(nameOf: string -> Option<string>, specs: seq<MemberSpec>)
    requires forall i | 0 <= i < |specs| :: nameOf(specs[i].logicalName).Some?
    ensures forall i | 0 <= i < |SortedSpecs(specs)| :: nameOf(SortedSpecs(specs)[i].logicalName).Some?
  {
    SortKeepsElements(specs, SpecBefore);
    forall i | 0 <= i < |SortedSpecs(specs)| ensures nameOf(SortedSpecs(specs)[i].logicalName).Some? {
      assert SortedSpecs(specs)[i] in multiset(SortedSpecs(specs));
      assert SortedSpecs(specs)[i] in specs;
    }
  }
}
