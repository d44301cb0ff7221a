/** Content targets and reconstruction capabilities: read-only queries over
    committed versions, and how long their answers stay valid. */
module Content {
  import opened Basics
  import opened Facts
  import opened Records
  import opened Lifecycle
  import opened Invariants
  import opened Runs
  import opened Publication

  datatype Query = Query(
    domain: PolicyDomainID, task: TaskID, version: ArtifactVersionID, artifact: ArtifactID,
    intent: ContentIntent, scope: ContentScope, authority: Authority, expiresAt: Instant,
    target: Option<ContentTarget>, capability: Option<C04Capability>)

  datatype Reply<T> = Answer(value: T) | Denied(code: ErrorCode)

  predicate ValidScopeKind(kind: ScopeKind) { !kind.OtherScope? }
  predicate ValidScope(scope: ContentScope) { ValidScopeKind(scope.kind) && scope.id != "" && scope.availability != 0 }

  /** Markup and vector images are active content; every other registered type is an attachment. */
  function DispositionFor(media: MediaType): Disposition {
    if media == HTML || media == SVG then ActiveContent else Attachment
  }

  // The diagnostic time and the digest itself are outside the canonical value.
  function TargetDigest(t: ContentTarget): Digest { Sha256(OfTarget(t.(occurredAt := 0, digest := NoDigest))) }
  function CapabilityDigestOf(c: C04Capability): Digest { Sha256(OfC04Capability(c.(occurredAt := 0, digest := NoDigest))) }

  function MemberByArtifact(members: seq<Member>, id: ArtifactID): (r: Option<Member>)
    ensures r.Some? ==> r.value in members && r.value.artifact == id
    ensures r.None? <==> forall m | m in members :: m.artifact != id
  {
    if members == [] then None
    else if members[0].artifact == id then Some(members[0])
    else assert members == [members[0]] + members[1..]; MemberByArtifact(members[1..], id)
  }

  /** The presented scope is the resolver's current fact for exactly this version. */
  predicate IsCurrent(env: Env, scope: ContentScope, domain: PolicyDomainID, task: TaskID, version: ArtifactVersionID) {
    env.scope(ScopeKey(domain, task, version, scope.kind, scope.id)) == Some(scope)
  }

  function CommittedIn(s: State, domain: PolicyDomainID, task: TaskID, version: ArtifactVersionID): Option<ActivatedVersion> {
    if version in s.activated && s.activated[version].domain == domain && s.activated[version].task == task
    then Some(s.activated[version]) else None
  }

  function TargetOf(env: Env, q: Query, a: ActivatedVersion, m: Member): ContentTarget {
    var t := ContentTarget(
      a.schema, q.domain, q.task, a.version, m.artifact, a.manifestDigest, m.contentDigest, m.size, m.media,
      m.logicalName, DispositionFor(m.media), q.scope.availability, q.intent, q.scope.kind, env.now, NoDigest);
    t.(digest := TargetDigest(t))
  }

  function ResolveTarget(env: Env, s: State, q: Query): Reply<ContentTarget> {
    if q.domain == "" || q.task == "" || q.version == NO_VERSION || q.artifact == 0
       || q.intent.OtherContentIntent? || !ValidScope(q.scope)
    then Denied(InvalidIntent)
    else
      var found := CommittedIn(s, q.domain, q.task, q.version);
      if found.None? then Denied(NotFound)
      else
        var m := MemberByArtifact(found.value.members, q.artifact);
        if m.None? || !IsCurrent(env, q.scope, q.domain, q.task, found.value.version) then Denied(NotFound)
        else if DispositionFor(m.value.media) == ActiveContent then Denied(InvalidIntent)
        else Answer(TargetOf(env, q, found.value, m.value))
  }

  predicate SameFacts(t: ContentTarget, m: Member) {
    m.contentDigest == t.memberDigest && m.size == t.size && m.media == t.media && m.logicalName == t.logicalName
  }

  function VerifyTarget(env: Env, s: State, q: Query): Reply<ContentTarget> {
    if q.domain == "" || q.task == "" || q.target.None? then Denied(InvalidIntent)
    else
      var t := q.target.value;
      if t.intent.OtherContentIntent? || !ValidScopeKind(t.scopeKind) || t.artifact == 0 then Denied(InvalidIntent)
      else if Major(t.schema) != 1 then Denied(UnsupportedSchema)
      else if !ValidDigest(t.digest) || t.digest != TargetDigest(t) then Denied(IntegrityConflict)
      else
        var found := CommittedIn(s, t.domain, t.task, t.version);
        if found.None? then Denied(NotFound)
        else if found.value.manifestDigest != t.manifest then Denied(IntegrityConflict)
        else
          var m := MemberByArtifact(found.value.members, t.artifact);
          if m.None? then Denied(NotFound)
          else if !SameFacts(t, m.value) || DispositionFor(m.value.media) != t.disposition then Denied(IntegrityConflict)
          else if !ValidScope(q.scope) then Denied(InvalidIntent)
          else if q.scope.kind != t.scopeKind || !IsCurrent(env, q.scope, t.domain, t.task, found.value.version)
                  || q.scope.availability != t.availability then Denied(NotFound)
          else Answer(t)
  }

  function IssueCapability(cfg: Config, env: Env, s: State, q: Query): Reply<C04Capability> {
    if q.domain == "" || q.task == "" || q.version == NO_VERSION || !ValidScope(q.scope) || q.expiresAt <= env.now
    then Denied(InvalidIntent)
    else if cfg.publicationAuthority == "" then Denied(RetryableUnavailable)
    else if q.authority.kind != TaskOrchestration || q.authority.id != cfg.orchestrationAuthority then Denied(OwnershipDenied)
    else
      var found := CommittedIn(s, q.domain, q.task, q.version);
      if found.None? || !IsCurrent(env, q.scope, q.domain, q.task, found.value.version) then Denied(NotFound)
      else
        var c := C04Capability(
          found.value.schema, cfg.publicationAuthority, q.domain, q.task, found.value.version,
          found.value.manifestDigest, q.scope.availability, q.expiresAt, env.now, NoDigest);
        Answer(c.(digest := CapabilityDigestOf(c)))
  }

  function VerifyCapability(cfg: Config, env: Env, s: State, q: Query): Reply<C04Capability> {
    if q.domain == "" || q.task == "" || q.capability.None? then Denied(InvalidIntent)
    else
      var c := q.capability.value;
      if Major(c.schema) != 1 then Denied(UnsupportedSchema)
      else if !ValidDigest(c.digest) || c.digest != CapabilityDigestOf(c)
              || c.publicationAuthority != cfg.publicationAuthority then Denied(IntegrityConflict)
      else if c.expiresAt <= env.now then Denied(StaleAuthority)
      else
        var found := CommittedIn(s, c.domain, c.task, c.version);
        if found.None? then Denied(NotFound)
        else if found.value.manifestDigest != c.manifest then Denied(IntegrityConflict)
        else if !ValidScope(q.scope) then Denied(InvalidIntent)
        else if !IsCurrent(env, q.scope, c.domain, c.task, found.value.version) || q.scope.availability != c.availability
        then Denied(NotFound)
        else Answer(c)
  }

  // ---- Validity for life ----

  /** What a later presentation must satisfy, beyond carrying the target. */
  ghost predicate Presents(env: Env, t: ContentTarget, scope: ContentScope) {
    && ValidScope(scope) && scope.kind == t.scopeKind && scope.availability == t.availability
    && IsCurrent(env, scope, t.domain, t.task, t.version)
  }

  lemma IssuedTargetVerifies(issue: Env, use: Env, s: State, s': State, q: Query, p: Query)
    requires ResolveTarget(issue, s, q).Answer? && p.target == Some(ResolveTarget(issue, s, q).value)
    requires q.version in s'.activated && s'.activated[q.version] == s.activated[q.version]
    requires s.activated[q.version].version == q.version && Major(s.activated[q.version].schema) == 1
    requires p.domain != "" && p.task != ""
    ensures VerifyTarget(use, s', p) == Answer(p.target.value) <==> Presents(use, p.target.value, p.scope)
    ensures VerifyTarget(use, s', p).Answer? ==> VerifyTarget(use, s', p) == Answer(p.target.value)
  {
    var t := p.target.value;
    assert TargetDigest(t) == TargetDigest(t.(digest := NoDigest));
  }

  /** A resolved target presented in any later reachable state is accepted if and
      only if the presented scope is well formed, has the bound kind and
      availability generation, and is then the resolver's current fact for that
      version. Nothing else the authority does in between matters. */
  lemma TargetsStayValid(cfg: Config, issue: Env, use: Env, s: State, s': State, q: Query, p: Query)
    requires Reachable(cfg, s) && Later(cfg, s, s')
    requires ResolveTarget(issue, s, q).Answer? && p.target == Some(ResolveTarget(issue, s, q).value)
    requires p.domain != "" && p.task != ""
    ensures VerifyTarget(use, s', p) == Answer(p.target.value) <==> Presents(use, p.target.value, p.scope)
    ensures VerifyTarget(use, s', p).Answer? ==> VerifyTarget(use, s', p) == Answer(p.target.value)
  {
    CommittedForever(cfg, s, s', q.version);
    CommittedIsSound(cfg, s, q.version);
    IssuedTargetVerifies(issue, use, s, s', q, p);
  }

  ghost predicate PresentsCapability(cfg: Config, env: Env, c: C04Capability, scope: ContentScope) {
    && ValidScope(scope) && scope.availability == c.availability && env.now < c.expiresAt
    && IsCurrent(env, scope, c.domain, c.task, c.version)
  }

  lemma IssuedCapabilityVerifies(cfg: Config, issue: Env, use: Env, s: State, s': State, q: Query, p: Query)
    requires IssueCapability(cfg, issue, s, q).Answer? && p.capability == Some(IssueCapability(cfg, issue, s, q).value)
    requires q.version in s'.activated && s'.activated[q.version] == s.activated[q.version]
    requires s.activated[q.version].version == q.version && Major(s.activated[q.version].schema) == 1
    requires p.domain != "" && p.task != ""
    ensures VerifyCapability(cfg, use, s', p) == Answer(p.capability.value) <==> PresentsCapability(cfg, use, p.capability.value, p.scope)
    ensures VerifyCapability(cfg, use, s', p).Answer? ==> VerifyCapability(cfg, use, s', p) == Answer(p.capability.value)
  {
    var c := p.capability.value;
    assert CapabilityDigestOf(c) == CapabilityDigestOf(c.(digest := NoDigest));
  }

  /** The same for a reconstruction capability, which binds no scope kind but
      stops being accepted at its declared expiry. */
  lemma CapabilitiesStayValid(cfg: Config, issue: Env, use: Env, s: State, s': State, q: Query, p: Query)
    requires Reachable(cfg, s) && Later(cfg, s, s')
    requires IssueCapability(cfg, issue, s, q).Answer? && p.capability == Some(IssueCapability(cfg, issue, s, q).value)
    requires p.domain != "" && p.task != ""
    ensures VerifyCapability(cfg, use, s', p) == Answer(p.capability.value) <==> PresentsCapability(cfg, use, p.capability.value, p.scope)
    ensures VerifyCapability(cfg, use, s', p).Answer? ==> VerifyCapability(cfg, use, s', p) == Answer(p.capability.value)
  {
    CommittedForever(cfg, s, s', q.version);
    CommittedIsSound(cfg, s, q.version);
    IssuedCapabilityVerifies(cfg, issue, use, s, s', q, p);
  }

  /** The query that asks for a given target under a given scope. */
  function AskFor(t: ContentTarget, q: Query): Query {
    q.(domain := t.domain, task := t.task, version := t.version, artifact := t.artifact, intent := t.intent)
  }

  /** Conversely, an accepted target is one the authority would issue now, up to
      its diagnostic time, exactly when it is an attachment, carries the version's
      own schema and names a workspace and Task; verification checks only the
      schema's major version and does not refuse active content. */
  lemma AcceptedIsIssuable(cfg: Config, env: Env, s: State, p: Query)
    requires Reachable(cfg, s) && VerifyTarget(env, s, p).Answer?
    ensures var t := VerifyTarget(env, s, p).value;
      && t.version in s.activated
      && (ResolveTarget(env, s, AskFor(t, p)) == Answer(t.(occurredAt := env.now)) <==>
            t.disposition == Attachment && t.schema == s.activated[t.version].schema && t.domain != "" && t.task != "")
  {
    var t := VerifyTarget(env, s, p).value;
    CommittedIsSound(cfg, s, t.version);
    AcceptedMatches(env, s, p, t, s.activated[t.version]);
  }

  lemma AcceptedMatches(env: Env, s: State, p: Query, t: ContentTarget, a: ActivatedVersion)
    requires VerifyTarget(env, s, p) == Answer(t) && CommittedIn(s, t.domain, t.task, t.version) == Some(a)
    requires a.version == t.version && t.version != NO_VERSION
    ensures ResolveTarget(env, s, AskFor(t, p)) == Answer(t.(occurredAt := env.now)) <==>
      t.disposition == Attachment && t.schema == a.schema && t.domain != "" && t.task != ""
  {
    var m := MemberByArtifact(a.members, t.artifact).value;
    var issued := TargetOf(env, AskFor(t, p), a, m);
    if t.schema == a.schema {
      assert issued.(occurredAt := 0, digest := NoDigest) == t.(occurredAt := 0, digest := NoDigest);
      assert issued == t.(occurredAt := env.now);
    }
  }
}
