/** Whole runs: any finite sequence of submissions and redrives, each under its
    own clock, faults, registry, ports and sinks. */
module Runs {
  import opened Basics
  import opened Facts
  import opened Records
  import opened Machine
  import opened Lifecycle
  import opened Invariants
  import opened Preparation
  import opened Backlog
  import opened Steps
  import R = Reachability

  datatype Input = Submit(env: Env, intent: Intent) | Rebuild(env: Env, task: TaskID, limit: nat)

  ghost function Next(cfg: Config, s: State, input: Input): State
    requires Pinned(s)
  {
    match input
    case Submit(env, intent) => Mutate(cfg, env, s, intent).state
    case Rebuild(env, task, limit) => RebuildStep(cfg, env, s, task, limit)
  }

  lemma NextKeepsInv(cfg: Config, s: State, input: Input)
    requires Inv(cfg, s)
    ensures Pinned(s) && Inv(cfg, Next(cfg, s, input))
  {
    InvPins(cfg, s);
    match input
    case Submit(env, intent) => MutateKeepsInv(cfg, env, s, intent);
    case Rebuild(env, task, limit) => RebuildKeepsInv(cfg, env, s, task, limit);
  }

  ghost predicate Takes(cfg: Config, s: State, s': State) {
    exists input: Input :: Pinned(s) && s' == Next(cfg, s, input)
  }

  /** s' is s or a later state of a run through s. */
  ghost predicate Later(cfg: Config, s: State, s': State) {
    R.Reaches((a: State, b: State) => Takes(cfg, a, b), s, s')
  }

  /** A state some run from the empty authority passes through. */
  ghost predicate Reachable(cfg: Config, s: State) { Later(cfg, EMPTY_STATE, s) }

  lemma TakesKeepsInv(cfg: Config, s: State, s': State)
    requires Inv(cfg, s) && Takes(cfg, s, s')
    ensures Inv(cfg, s')
  {
    var input: Input :| Pinned(s) && s' == Next(cfg, s, input);
    NextKeepsInv(cfg, s, input);
  }

  lemma RunKeepsInv(cfg: Config, s: State, s': State)
    requires Inv(cfg, s) && Later(cfg, s, s')
    ensures Inv(cfg, s')
  {
    var step := (a: State, b: State) => Takes(cfg, a, b);
    var kept := (a: State) => Inv(cfg, a);
    forall a, b | kept(a) && step(a, b) ensures kept(b) { TakesKeepsInv(cfg, a, b); }
    R.Invariance(step, kept, s, s');
  }

  /** Every reachable state satisfies the invariant. */
  lemma ReachableInv(cfg: Config, s: State)
    requires Reachable(cfg, s)
    ensures Inv(cfg, s)
  {
    InitialState(cfg);
    RunKeepsInv(cfg, EMPTY_STATE, s);
  }

  lemma LaterInv(cfg: Config, s: State, s': State)
    requires Reachable(cfg, s) && Later(cfg, s, s')
    ensures Inv(cfg, s')
  {
    ReachableInv(cfg, s);
    RunKeepsInv(cfg, s, s');
  }

  /** A reachable state accepts every input, and the result is reachable. */
  lemma EveryInputIsTaken(cfg: Config, s: State, input: Input)
    requires Reachable(cfg, s)
    ensures Pinned(s) && Reachable(cfg, Next(cfg, s, input)) && Later(cfg, s, Next(cfg, s, input))
  {
    ReachableInv(cfg, s);
    InvPins(cfg, s);
    var step := (a: State, b: State) => Takes(cfg, a, b);
    assert step(s, Next(cfg, s, input));
    R.Extends(step, EMPTY_STATE, s, Next(cfg, s, input));
    R.Stays(step, s);
    R.Extends(step, s, s, Next(cfg, s, input));
  }

  // ---- What every step keeps of the state before it ----

  ghost predicate Grows(s: State, s': State) {
    && (forall x | x in s.operations :: x in s'.operations && Evolves(s.operations[x], s'.operations[x]))
    && KeepsFacts(s, s')
  }

  ghost predicate KeepsFacts(s: State, s': State) {
    && (forall v | v in s.activated :: v in s'.activated && s'.activated[v] == s.activated[v])
    && (forall v | v in s.versionIndex :: v in s'.versionIndex && s'.versionIndex[v] == s.versionIndex[v])
    && (forall a | a in s.artifactFacts :: a in s'.artifactFacts && s'.artifactFacts[a] == s.artifactFacts[a])
    && s.nextVersion <= s'.nextVersion && s.nextArtifact <= s'.nextArtifact && s.nextDebt <= s'.nextDebt
    && s.auditFacts <= s'.auditFacts && s.sinkLog <= s'.sinkLog
  }

  lemma GrowsReflexive(s: State)
    ensures Grows(s, s)
  {
    forall x | x in s.operations ensures Evolves(s.operations[x], s.operations[x]) { EvolvesReflexive(s.operations[x]); }
  }

  lemma GrowsTransitive(a: State, b: State, c: State)
    requires Grows(a, b) && Grows(b, c)
    ensures Grows(a, c)
  {
    forall x | x in a.operations ensures x in c.operations && Evolves(a.operations[x], c.operations[x]) {
      EvolvesTransitive(a.operations[x], b.operations[x], c.operations[x]);
    }
  }

  lemma ReplacementGrows(s: State, s': State, scope: OperationScope, op': Operation)
    requires s'.operations == s.operations[scope := op'] && KeepsFacts(s, s')
    requires scope in s.operations ==> Evolves(s.operations[scope], op')
    ensures Grows(s, s')
  {
    forall x | x in s.operations ensures x in s'.operations && Evolves(s.operations[x], s'.operations[x]) {
      if x != scope { EvolvesReflexive(s.operations[x]); }
    }
  }

  lemma DeliverAppends(cfg: Config, env: Env, p: Projection, id: AuditFactID)
    ensures p.sinkLog <= Deliver(cfg, env, p, id).sinkLog
  {
  }

  lemma AuditedKeepsFacts(cfg: Config, env: Env, s: State, h: Header, kind: IntentKind, op: Operation)
    ensures KeepsFacts(s, Audited(cfg, env, s, h, kind, op))
  {
    DeliverAppends(cfg, env, Projection(s.deliveries, s.sinkLog), s.nextAudit + 1);
  }

  lemma AffectedKeepsFacts(s: State, scope: OperationScope, op: Operation, effect: Effect)
    requires effect.Commit? ==> effect.version.version !in s.activated
    ensures KeepsFacts(s, Affected(s, scope, op, effect))
  {
  }

  lemma KeepsFactsTransitive(a: State, b: State, c: State)
    requires KeepsFacts(a, b) && KeepsFacts(b, c)
    ensures KeepsFacts(a, c)
  {
  }

  lemma AbsorbGrows(cfg: Config, env: Env, s: State, intent: Intent, r: OpResult)
    requires Identities(s) && History(s) && ScopeOf(intent.header) in s.operations && r.Changed?
    requires EffectFits(s, ScopeOf(intent.header), s.operations[ScopeOf(intent.header)], intent, r)
    requires Evolves(s.operations[ScopeOf(intent.header)], r.op)
    ensures Grows(s, Absorb(cfg, env, s, intent, r))
  {
    var scope := ScopeOf(intent.header);
    var s1 := Affected(s, scope, r.op, r.effect);
    if r.effect.Commit? { UncommittedIsNew(s, scope); }
    AffectedKeepsFacts(s, scope, r.op, r.effect);
    AuditedKeepsFacts(cfg, env, s1, intent.header, KindOf(intent.payload), r.op);
    KeepsFactsTransitive(s, s1, Absorb(cfg, env, s, intent, r));
    AbsorbShape(cfg, env, s, intent, r);
    ReplacementGrows(s, Absorb(cfg, env, s, intent, r), scope, r.op);
  }

  lemma ContinueGrows(cfg: Config, env: Env, s: State, intent: Intent)
    requires Inv(cfg, s) && ScopeOf(intent.header) in s.operations && !intent.payload.Prepare?
    requires Replayable(KindOf(intent.payload)) ==> KindOf(intent.payload) !in s.operations[ScopeOf(intent.header)].outcomes
    requires s.operations[ScopeOf(intent.header)].candidate.runtimeRefs != []
    ensures var scope := ScopeOf(intent.header);
      Grows(s, Absorb(cfg, env, s, intent, ContinueOp(cfg, env, ViewOf(s, scope, s.operations[scope]), s.operations[scope], intent)))
  {
    var scope := ScopeOf(intent.header);
    var op := s.operations[scope];
    assert SoundOperation(cfg, scope, op);
    var r := ContinueOp(cfg, env, ViewOf(s, scope, op), op, intent);
    if r.Changed? {
      ContinueKeeps(cfg, env, ViewOf(s, scope, op), op, intent);
      ContinueEffect(cfg, env, s, scope, op, intent);
      AbsorbGrows(cfg, env, s, intent, r);
    } else {
      GrowsReflexive(s);
    }
  }

  lemma BurnKeepsFacts(s: State, b: State, task: TaskScope, c: Candidate)
    requires Burns(s, b, task, c)
    ensures KeepsFacts(s, b) && b.operations == s.operations
  {
  }

  lemma PersistedKeepsFacts(b: State, scope: OperationScope, op: Operation)
    requires op.candidate.version !in b.versionIndex
    ensures KeepsFacts(b, Persisted(b, scope, op))
  {
  }

  lemma EnteredGrows(cfg: Config, env: Env, s: State, draft: Draft, h: Header, digest: Digest)
    requires KeepsFacts(s, draft.state) && draft.state.operations == s.operations && ScopeOf(h) !in s.operations
    requires draft.candidate.version !in draft.state.versionIndex
    ensures Grows(s, Entered(cfg, env, s, draft, h, digest).state)
  {
    var r := Settle(env, NewOperation(env, s, h, draft.candidate, digest), PrepareKind, digest, None, NoEffect);
    PersistedGrows(cfg, env, s, draft.state, h, r.op);
  }

  lemma DraftStepGrows(cfg: Config, env: Env, s: State, draft: Draft, h: Header, digest: Digest)
    requires KeepsFacts(s, draft.state) && draft.state.operations == s.operations && ScopeOf(h) !in s.operations
    requires draft.candidate.version !in draft.state.versionIndex
    ensures Grows(s, DraftStep(cfg, env, s, draft, h, digest).state)
  {
    DraftGrows(s, draft.state);
    EnteredGrows(cfg, env, s, draft, h, digest);
  }

  lemma PrepareGrows(cfg: Config, env: Env, s: State, intent: Intent)
    requires Identities(s) && intent.payload.Prepare? && ValidIntent(cfg.nameOf, intent) && ScopeOf(intent.header) !in s.operations
    ensures Grows(s, PrepareStep(cfg, env, s, intent).state)
  {
    var h, p := intent.header, intent.payload.prepare;
    if PrepareRefusal(cfg, env, s, h, p).Some? {
      GrowsReflexive(s);
    } else {
      DraftKeepsFacts(cfg, s, h, p);
      DraftStepGrows(cfg, env, s, Drafted(cfg, s, h, p), h, RequestDigest(intent));
    }
  }

  lemma DraftKeepsFacts(cfg: Config, s: State, h: Header, p: PreparePayload)
    requires Identities(s) && ValidPrepare(cfg.nameOf, p)
    ensures var draft := Drafted(cfg, s, h, p);
      KeepsFacts(s, draft.state) && draft.state.operations == s.operations && draft.candidate.version !in draft.state.versionIndex
  {
    var draft := Drafted(cfg, s, h, p);
    DraftBurns(cfg, s, h, p);
    BurnKeepsFacts(s, draft.state, TaskScope(h.domain, h.task), draft.candidate);
    NewVersionIsNew(s, draft.candidate.version);
  }

  lemma DraftGrows(s: State, b: State)
    requires KeepsFacts(s, b) && b.operations == s.operations
    ensures Grows(s, b)
  {
    forall x | x in s.operations ensures Evolves(s.operations[x], b.operations[x]) { EvolvesReflexive(s.operations[x]); }
  }

  lemma PersistedGrows(cfg: Config, env: Env, s: State, b: State, h: Header, op: Operation)
    requires KeepsFacts(s, b) && b.operations == s.operations && ScopeOf(h) !in s.operations
    requires op.candidate.version !in b.versionIndex
    ensures Grows(s, Audited(cfg, env, Persisted(b, ScopeOf(h), op), h, PrepareKind, op))
  {
    var s1 := Persisted(b, ScopeOf(h), op);
    var s2 := Audited(cfg, env, s1, h, PrepareKind, op);
    PersistedKeepsFacts(b, ScopeOf(h), op);
    AuditedKeepsFacts(cfg, env, s1, h, PrepareKind, op);
    AuditedShape(cfg, env, s1, h, PrepareKind, op);
    KeepsFactsTransitive(s, b, s1);
    KeepsFactsTransitive(s, s1, s2);
    ReplacementGrows(s, s2, ScopeOf(h), op);
  }

  lemma FlagGrows(cfg: Config, s: State, scope: OperationScope)
    requires SoundOperations(cfg, s) && scope in s.operations
    ensures Grows(s, Flagged(s, scope))
  {
    FlagIsSound(cfg, scope, s.operations[scope]);
    ReplacementGrows(s, Flagged(s, scope), scope, s.operations[scope].(integrityConflict := true));
  }

  lemma MutateGrows(cfg: Config, env: Env, s: State, intent: Intent)
    requires Inv(cfg, s)
    ensures Pinned(s) && Grows(s, Mutate(cfg, env, s, intent).state)
  {
    InvPins(cfg, s);
    MutateRoute(cfg, env, s, intent);
    match RouteOf(cfg, s, intent)
    case Refused => GrowsReflexive(s);
    case Prepares => PrepareGrows(cfg, env, s, intent);
    case Flags => FlagGrows(cfg, s, ScopeOf(intent.header));
    case Continues => ContinueGrows(cfg, env, s, intent);
  }

  lemma {:induction false} RedriveAppends(cfg: Config, env: Env, p: Projection, facts: seq<AuditFact>, task: TaskID, budget: nat)
    ensures p.sinkLog <= Redrive(cfg, env, p, facts, task, budget).sinkLog
    decreases |facts|
  {
    if facts == [] || budget == 0 {
    } else if facts[0].task != task || Delivered(p.deliveries, facts[0].id) {
      RedriveAppends(cfg, env, p, facts[1..], task, budget);
    } else {
      DeliverAppends(cfg, env, p, facts[0].id);
      RedriveAppends(cfg, env, Deliver(cfg, env, p, facts[0].id), facts[1..], task, budget - 1);
    }
  }

  lemma RebuildGrows(cfg: Config, env: Env, s: State, task: TaskID, limit: nat)
    ensures Grows(s, RebuildStep(cfg, env, s, task, limit))
  {
    RebuildShape(cfg, env, s, task, limit);
    RedriveAppends(cfg, env, Projection(s.deliveries, s.sinkLog), s.auditFacts, task, limit);
    DraftGrows(s, RebuildStep(cfg, env, s, task, limit));
  }

  lemma NextGrows(cfg: Config, s: State, input: Input)
    requires Inv(cfg, s)
    ensures Pinned(s) && Grows(s, Next(cfg, s, input))
  {
    InvPins(cfg, s);
    match input
    case Submit(env, intent) => MutateGrows(cfg, env, s, intent);
    case Rebuild(env, task, limit) => RebuildGrows(cfg, env, s, task, limit);
  }

  lemma TakesGrows(cfg: Config, s: State, s': State)
    requires Inv(cfg, s) && Takes(cfg, s, s')
    ensures Grows(s, s')
  {
    var input: Input :| Pinned(s) && s' == Next(cfg, s, input);
    NextGrows(cfg, s, input);
  }

  lemma GrowsByOne(cfg: Config, a: State, b: State, c: State)
    requires Grows(a, b) && Inv(cfg, b) && Takes(cfg, b, c)
    ensures Grows(a, c)
  {
    TakesGrows(cfg, b, c);
    GrowsTransitive(a, b, c);
  }

  /** Nothing a run passes through is ever undone: operations only evolve, and
      activated versions, identities, audit facts and sink acceptances stay. */
  lemma LaterGrows(cfg: Config, s: State, s': State)
    requires Reachable(cfg, s) && Later(cfg, s, s')
    ensures Grows(s, s')
  {
    var step := (a: State, b: State) => Takes(cfg, a, b);
    var kept := (a: State) => Inv(cfg, a) && Grows(s, a);
    ReachableInv(cfg, s);
    GrowsReflexive(s);
    forall a, b | kept(a) && step(a, b) ensures kept(b) {
      TakesKeepsInv(cfg, a, b);
      GrowsByOne(cfg, s, a, b);
    }
    R.Invariance(step, kept, s, s');
  }

  // ---- The parts of the invariant, one at a time ----

  lemma ReachableHistory(cfg: Config, s: State)
    requires Reachable(cfg, s)
    ensures Identities(s) && History(s)
  {
    ReachableInv(cfg, s);
  }

  lemma ReachableSound(cfg: Config, s: State, scope: OperationScope)
    requires Reachable(cfg, s) && scope in s.operations
    ensures SoundOperation(cfg, scope, s.operations[scope])
  {
    ReachableInv(cfg, s);
  }

  lemma LaterHistory(cfg: Config, s: State, s': State)
    requires Reachable(cfg, s) && Later(cfg, s, s')
    ensures Identities(s') && History(s')
  {
    LaterInv(cfg, s, s');
  }

  lemma LaterSound(cfg: Config, s: State, s': State, scope: OperationScope)
    requires Reachable(cfg, s) && Later(cfg, s, s') && scope in s.operations
    ensures scope in s'.operations && Evolves(s.operations[scope], s'.operations[scope])
    ensures SoundOperation(cfg, scope, s'.operations[scope])
  {
    LaterGrows(cfg, s, s');
    LaterInv(cfg, s, s');
  }
}
