/** Invariants of the whole state: identities, linear history, the audit log as
    a refinement of the state, and the projection ledger; with the proof that
    each way a step changes the state keeps them. */
module Invariants {
  import opened Basics
  import opened Facts
  import opened Records
  import opened Machine
  import opened Lifecycle

  // ---- What the audit log says ----

  ghost predicate About(f: AuditFact, scope: OperationScope) {
    f.domain == scope.domain && f.task == scope.task && f.operation == scope.operation
  }

  /** The state recorded by the last fact about one operation. */
  ghost function LastState(log: seq<AuditFact>, scope: OperationScope): Option<OperationState> {
    if log == [] then None
    else if About(log[|log| - 1], scope) then Some(log[|log| - 1].state)
    else LastState(log[..|log| - 1], scope)
  }

  ghost predicate ActivationIn(f: AuditFact, task: TaskScope) {
    f.action == ActivateKind && f.domain == task.domain && f.task == task.task
  }

  /** The versions a Task's activation facts name, in log order. */
  ghost function LogHistory(log: seq<AuditFact>, task: TaskScope): seq<ArtifactVersionID> {
    if log == [] then []
    else
      var before := LogHistory(log[..|log| - 1], task);
      if ActivationIn(log[|log| - 1], task) then before + [log[|log| - 1].version] else before
  }

  /** The stream a Task's activation facts add up to. */
  ghost function LogStream(log: seq<AuditFact>, task: TaskScope): Stream {
    var h := LogHistory(log, task);
    Stream(|h|, if h == [] then NO_VERSION else h[|h| - 1])
  }

  lemma LogGrows(log: seq<AuditFact>, f: AuditFact, task: TaskScope, scope: OperationScope)
    ensures LogHistory(log + [f], task) ==
      if ActivationIn(f, task) then LogHistory(log, task) + [f.version] else LogHistory(log, task)
    ensures LastState(log + [f], scope) == if About(f, scope) then Some(f.state) else LastState(log, scope)
  {
    assert (log + [f])[..|log|] == log;
  }

  // ---- The invariants ----

  ghost predicate SoundOperations(cfg: Config, s: State) {
    forall scope | scope in s.operations :: SoundOperation(cfg, scope, s.operations[scope])
  }

  ghost predicate Identities(s: State) {
    && (forall scope | scope in s.operations :: OwnsIdentities(s, scope, s.operations[scope]))
    && s.versionIndex.Keys == s.versionFacts.Keys
    && (forall v | v in s.versionIndex :: Indexed(s, v))
    && (forall a | a in s.artifactFacts :: 0 < a <= s.nextArtifact)
    && (forall x, y | x in s.operations && y in s.operations && x != y :: Apart(s.operations[x], s.operations[y]))
  }

  ghost predicate OwnsIdentities(s: State, scope: OperationScope, op: Operation) {
    && op.candidate.version in s.versionIndex && s.versionIndex[op.candidate.version] == scope
    && (forall m | m in op.candidate.members :: m.artifact in s.artifactFacts && s.artifactFacts[m.artifact] == TaskOf(scope))
    && (op.debt.Some? ==> op.debt.value.id <= s.nextDebt)
  }

  ghost predicate Indexed(s: State, v: ArtifactVersionID) {
    && v in s.versionIndex && 0 < v <= s.nextVersion && s.versionIndex[v] in s.operations
    && s.operations[s.versionIndex[v]].candidate.version == v
    && v in s.versionFacts && s.versionFacts[v] == TaskOf(s.versionIndex[v])
  }

  /** No ArtifactID and no debt identity has two owners. */
  ghost predicate Apart(x: Operation, y: Operation) {
    && (forall m, n | m in x.candidate.members && n in y.candidate.members :: m.artifact != n.artifact)
    && (x.debt.Some? && y.debt.Some? ==> x.debt.value.id != y.debt.value.id)
  }

  ghost predicate History(s: State) {
    && (forall task :: TaskHistory(s, task))
    && (forall v | v in s.activated :: IsCommitted(s, v))
    && (forall scope | scope in s.operations :: Placed(s, scope, s.operations[scope]))
  }

  ghost predicate TaskHistory(s: State, task: TaskScope) {
    && StreamOf(s, task) == LogStream(s.auditFacts, task)
    && (forall i {:trigger Link(s, task, LogHistory(s.auditFacts, task), i)} | 0 <= i < |LogHistory(s.auditFacts, task)| ::
          Link(s, task, LogHistory(s.auditFacts, task), i))
  }

  /** Position i of a Task's history: revision i + 1, child of position i - 1. */
  ghost predicate Link(s: State, task: TaskScope, h: seq<ArtifactVersionID>, i: nat)
    requires i < |h|
  {
    && h[i] in s.activated
    && var a := s.activated[h[i]];
       && a.version == h[i] && a.domain == task.domain && a.task == task.task && a.streamRevision == i + 1
       && a.parent == (if i == 0 then NO_VERSION else h[i - 1])
       && a.kind == (if i == 0 then FirstGeneration else ManualEdit)
  }

  /** A committed version sits at its revision and snapshots its operation's candidate. */
  ghost predicate IsCommitted(s: State, v: ArtifactVersionID) {
    && v in s.activated
    && var a := s.activated[v];
       var h := LogHistory(s.auditFacts, TaskScope(a.domain, a.task));
       && a.version == v && 0 < a.streamRevision <= |h| && h[a.streamRevision - 1] == v
       && v in s.versionIndex && s.versionIndex[v] == OperationScope(a.domain, a.task, a.operation)
       && s.versionIndex[v] in s.operations
       && s.operations[s.versionIndex[v]].state == OpActivated
       && Snapshots(a, s.operations[s.versionIndex[v]])
  }

  ghost predicate Snapshots(a: ActivatedVersion, op: Operation) {
    && a.schema == op.candidate.schema && a.kind == op.candidate.kind && a.parent == op.candidate.parent
    && a.contract == op.candidate.contract && a.phaseRun == op.candidate.phaseRun
    && a.manifestDigest == op.candidate.manifestDigest && a.lineageDigest == op.candidate.lineageDigest
    && a.members == op.candidate.members && op.evidence == Some(a.evidence) && a.streamRevision == op.streamRevision
  }

  /** An activated operation is committed; any parent is already in the Task's history. */
  ghost predicate Placed(s: State, scope: OperationScope, op: Operation) {
    && (op.state == OpActivated ==> op.candidate.version in s.activated)
    && (op.candidate.parent != NO_VERSION ==> op.candidate.parent in LogHistory(s.auditFacts, TaskOf(scope)))
  }

  ghost predicate AuditRefines(s: State) {
    && (forall scope | scope in s.operations :: LastState(s.auditFacts, scope) == Some(s.operations[scope].state))
    && (forall i | 0 <= i < |s.auditFacts| :: 0 < s.auditFacts[i].id <= s.nextAudit)
    && (forall i, j | 0 <= i < j < |s.auditFacts| :: s.auditFacts[i].id < s.auditFacts[j].id)
    && (forall i | 0 <= i < |s.auditFacts| :: Subject(s.auditFacts[i]) in s.operations)
    && Numbered(s.auditFacts)
  }

  function Subject(f: AuditFact): OperationScope { OperationScope(f.domain, f.task, f.operation) }

  /** Every activation fact carries its position in its Task's history. */
  ghost predicate Numbered(log: seq<AuditFact>) {
    forall i | 0 <= i < |log| && log[i].action == ActivateKind ::
      log[i].streamRevision == |LogHistory(log[..i + 1], TaskScope(log[i].domain, log[i].task))|
  }

  lemma NumberedGrows(log: seq<AuditFact>, f: AuditFact)
    requires Numbered(log)
    requires f.action == ActivateKind ==> f.streamRevision == |LogHistory(log, TaskScope(f.domain, f.task))| + 1
    ensures Numbered(log + [f])
  {
    var log' := log + [f];
    forall i | 0 <= i < |log'| && log'[i].action == ActivateKind
      ensures log'[i].streamRevision == |LogHistory(log'[..i + 1], TaskScope(log'[i].domain, log'[i].task))|
    {
      if i < |log| {
        assert log'[..i + 1] == log[..i + 1];
      } else {
        assert log'[..i + 1] == log';
        LogGrows(log, f, TaskScope(f.domain, f.task), Subject(f));
      }
    }
  }

  ghost predicate Ledger(p: Projection) {
    && Distinct(p.sinkLog)
    && (forall id :: AuditAccepted(id) in p.sinkLog <==> id in p.deliveries && p.deliveries[id].audit)
    && (forall id :: TelemetryAccepted(id) in p.sinkLog <==> id in p.deliveries && p.deliveries[id].telemetry)
  }

  ghost predicate Inv(cfg: Config, s: State) {
    && SoundOperations(cfg, s)
    && Identities(s)
    && History(s)
    && AuditRefines(s)
    && Ledger(Projection(s.deliveries, s.sinkLog))
  }

  lemma InvPins(cfg: Config, s: State)
    requires SoundOperations(cfg, s)
    ensures Pinned(s)
  {
    forall scope | scope in s.operations ensures s.operations[scope].candidate.runtimeRefs != [] {
      assert SoundOperation(cfg, scope, s.operations[scope]);
    }
  }

  lemma InitialState(cfg: Config)
    ensures Inv(cfg, EMPTY_STATE)
  {
  }

  lemma HistoryIsNamed(s: State, task: TaskScope, i: nat)
    requires Identities(s) && History(s) && i < |LogHistory(s.auditFacts, task)|
    ensures LogHistory(s.auditFacts, task)[i] != NO_VERSION && Link(s, task, LogHistory(s.auditFacts, task), i)
  {
    var h := LogHistory(s.auditFacts, task);
    assert TaskHistory(s, task);
    assert Link(s, task, h, i);
    assert IsCommitted(s, h[i]);
    assert Indexed(s, h[i]);
  }

  lemma StreamIsLogged(s: State, task: TaskScope)
    requires History(s)
    ensures StreamOf(s, task) == LogStream(s.auditFacts, task)
  {
    assert TaskHistory(s, task);
  }

  // ---- Delivery keeps the ledger ----

  lemma DeliverKeeps(cfg: Config, env: Env, p: Projection, id: AuditFactID)
    requires Ledger(p)
    ensures Ledger(Deliver(cfg, env, p, id))
  {
    if cfg.hasAuditSink || cfg.hasTelemetrySink {
      var d := if id in p.deliveries then p.deliveries[id] else UNDELIVERED;
      var p' := Deliver(cfg, env, p, id);
      var audited := cfg.hasAuditSink && !d.audit && env.auditAccepts(id);
      var measured := cfg.hasTelemetrySink && !d.telemetry && env.telemetryAccepts(id);
      var added := (if audited then [AuditAccepted(id)] else []) + (if measured then [TelemetryAccepted(id)] else []);
      assert p'.sinkLog == p.sinkLog + added;
      assert forall x | x in added :: x !in p.sinkLog;
      assert Distinct(added);
      AppendDistinct(p.sinkLog, added);
      forall k ensures AuditAccepted(k) in p'.sinkLog <==> k in p'.deliveries && p'.deliveries[k].audit {}
      forall k ensures TelemetryAccepted(k) in p'.sinkLog <==> k in p'.deliveries && p'.deliveries[k].telemetry {}
    }
  }

  lemma AppendDistinct<T>(a: seq<T>, b: seq<T>)
    requires Distinct(a) && Distinct(b) && forall x | x in b :: x !in a
    ensures Distinct(a + b)
  {
    var c := a + b;
    forall i, j | 0 <= i < j < |c| ensures c[i] != c[j] {
      if i < |a| <= j {
        assert c[i] in a && c[j] == b[j - |a|] && c[j] in b;
      }
    }
  }

  // ---- Audited: one more fact ----

  lemma AuditedKeepsOrder(cfg: Config, env: Env, s: State, h: Header, kind: IntentKind, op: Operation)
    requires Ledger(Projection(s.deliveries, s.sinkLog))
    requires forall i | 0 <= i < |s.auditFacts| :: 0 < s.auditFacts[i].id <= s.nextAudit
    requires forall i, j | 0 <= i < j < |s.auditFacts| :: s.auditFacts[i].id < s.auditFacts[j].id
    requires ScopeOf(h) in s.operations && s.operations[ScopeOf(h)].state == op.state
    requires forall i | 0 <= i < |s.auditFacts| :: Subject(s.auditFacts[i]) in s.operations
    requires Numbered(s.auditFacts)
    requires kind == ActivateKind ==> op.streamRevision == |LogHistory(s.auditFacts, TaskScope(h.domain, h.task))| + 1
    requires forall scope | scope in s.operations && scope != ScopeOf(h) :: LastState(s.auditFacts, scope) == Some(s.operations[scope].state)
    ensures var s' := Audited(cfg, env, s, h, kind, op); AuditRefines(s') && Ledger(Projection(s'.deliveries, s'.sinkLog))
  {
    AuditedKeepsLedger(cfg, env, s, h, kind, op);
    AuditedAppends(cfg, env, s, h, kind, op);
    LongerLogRefines(s, Audited(cfg, env, s, h, kind, op), FactOf(s.nextAudit + 1, h, kind, op, env.now), ScopeOf(h));
  }

  lemma AuditedAppends(cfg: Config, env: Env, s: State, h: Header, kind: IntentKind, op: Operation)
    ensures var s' := Audited(cfg, env, s, h, kind, op);
      && s'.operations == s.operations && s'.nextAudit == s.nextAudit + 1
      && s'.auditFacts == s.auditFacts + [FactOf(s.nextAudit + 1, h, kind, op, env.now)]
  {
  }

  lemma AuditedKeepsLedger(cfg: Config, env: Env, s: State, h: Header, kind: IntentKind, op: Operation)
    requires Ledger(Projection(s.deliveries, s.sinkLog))
    ensures var s' := Audited(cfg, env, s, h, kind, op); Ledger(Projection(s'.deliveries, s'.sinkLog))
  {
    DeliverKeeps(cfg, env, Projection(s.deliveries, s.sinkLog), s.nextAudit + 1);
  }

  lemma LongerLogRefines(s: State, s': State, f: AuditFact, subject: OperationScope)
    requires s'.operations == s.operations && s'.auditFacts == s.auditFacts + [f] && s'.nextAudit == s.nextAudit + 1 == f.id
    requires Subject(f) == subject && subject in s.operations && s.operations[subject].state == f.state
    requires forall i | 0 <= i < |s.auditFacts| :: 0 < s.auditFacts[i].id <= s.nextAudit
    requires forall i, j | 0 <= i < j < |s.auditFacts| :: s.auditFacts[i].id < s.auditFacts[j].id
    requires forall i | 0 <= i < |s.auditFacts| :: Subject(s.auditFacts[i]) in s.operations
    requires forall scope | scope in s.operations && scope != subject :: LastState(s.auditFacts, scope) == Some(s.operations[scope].state)
    requires Numbered(s.auditFacts)
    requires f.action == ActivateKind ==> f.streamRevision == |LogHistory(s.auditFacts, TaskScope(f.domain, f.task))| + 1
    ensures AuditRefines(s')
  {
    NumberedGrows(s.auditFacts, f);
    forall scope | scope in s'.operations ensures LastState(s'.auditFacts, scope) == Some(s'.operations[scope].state) {
      LogGrows(s.auditFacts, f, TaskOf(scope), scope);
      if About(f, scope) { assert scope == subject; }
    }
  }

  // ---- Identities across the three ways operations change ----

  /** What a continuing step may do to the identity facts of its operation. */
  ghost predicate SameIdentity(s: State, op: Operation, op': Operation, effect: Effect) {
    && op'.candidate == op.candidate
    && (op.debt.Some? ==> op'.debt.Some? && op'.debt.value.id == op.debt.value.id)
    && (op.debt.None? && op'.debt.Some? ==> effect == MintDebt && op'.debt.value.id == s.nextDebt + 1)
  }

  ghost predicate SameIdentityFacts(s: State, s': State) {
    && s'.versionIndex == s.versionIndex && s'.versionFacts == s.versionFacts && s'.artifactFacts == s.artifactFacts
    && s'.nextVersion == s.nextVersion && s'.nextArtifact == s.nextArtifact && s'.nextDebt >= s.nextDebt
  }

  lemma ReplacedStaysApart(s: State, scope: OperationScope, op': Operation, x: OperationScope)
    requires Identities(s) && scope in s.operations && x in s.operations && x != scope
    requires op'.candidate == s.operations[scope].candidate
    requires s.operations[scope].debt.Some? ==> op'.debt.Some? && op'.debt.value.id == s.operations[scope].debt.value.id
    requires s.operations[scope].debt.None? && op'.debt.Some? ==> op'.debt.value.id == s.nextDebt + 1
    ensures Apart(op', s.operations[x]) && Apart(s.operations[x], op')
  {
    assert Apart(s.operations[scope], s.operations[x]) && Apart(s.operations[x], s.operations[scope]);
    assert OwnsIdentities(s, x, s.operations[x]);
  }

  lemma ReplaceKeepsIdentities(s: State, s': State, scope: OperationScope, op': Operation)
    requires Identities(s) && scope in s.operations && SameIdentityFacts(s, s')
    requires s'.operations == s.operations[scope := op'] && op'.candidate == s.operations[scope].candidate
    requires s.operations[scope].debt.Some? ==> op'.debt.Some? && op'.debt.value.id == s.operations[scope].debt.value.id
    requires s.operations[scope].debt.None? && op'.debt.Some? ==> op'.debt.value.id == s.nextDebt + 1 <= s'.nextDebt
    ensures Identities(s')
  {
    ReplaceKeepsOwners(s, s', scope, op');
    forall v | v in s'.versionIndex ensures Indexed(s', v) { assert Indexed(s, v); }
    forall x, y | x in s'.operations && y in s'.operations && x != y ensures Apart(s'.operations[x], s'.operations[y]) {
      ReplaceKeepsApart(s, s', scope, op', x, y);
    }
  }

  lemma ReplaceKeepsOwners(s: State, s': State, scope: OperationScope, op': Operation)
    requires Identities(s) && scope in s.operations && SameIdentityFacts(s, s')
    requires s'.operations == s.operations[scope := op'] && op'.candidate == s.operations[scope].candidate
    requires s.operations[scope].debt.Some? ==> op'.debt.Some? && op'.debt.value.id == s.operations[scope].debt.value.id
    requires s.operations[scope].debt.None? && op'.debt.Some? ==> op'.debt.value.id == s.nextDebt + 1 <= s'.nextDebt
    ensures forall x | x in s'.operations :: OwnsIdentities(s', x, s'.operations[x])
  {
    forall x | x in s'.operations ensures OwnsIdentities(s', x, s'.operations[x]) {
      assert OwnsIdentities(s, x, s.operations[x]);
    }
  }

  lemma ReplaceKeepsApart(s: State, s': State, scope: OperationScope, op': Operation, x: OperationScope, y: OperationScope)
    requires Identities(s) && scope in s.operations && x in s'.operations && y in s'.operations && x != y
    requires s'.operations == s.operations[scope := op'] && op'.candidate == s.operations[scope].candidate
    requires s.operations[scope].debt.Some? ==> op'.debt.Some? && op'.debt.value.id == s.operations[scope].debt.value.id
    requires s.operations[scope].debt.None? && op'.debt.Some? ==> op'.debt.value.id == s.nextDebt + 1
    ensures Apart(s'.operations[x], s'.operations[y])
  {
    if x == scope {
      ReplacedStaysApart(s, scope, op', y);
    } else if y == scope {
      ReplacedStaysApart(s, scope, op', x);
    } else {
      assert Apart(s.operations[x], s.operations[y]);
    }
  }

  lemma AffectedKeepsIdentities(s: State, scope: OperationScope, op': Operation, effect: Effect)
    requires Identities(s) && scope in s.operations && SameIdentity(s, s.operations[scope], op', effect)
    ensures Identities(Affected(s, scope, op', effect))
  {
    ReplaceKeepsIdentities(s, Affected(s, scope, op', effect), scope, op');
  }

  lemma AuditedKeepsIdentities(cfg: Config, env: Env, s: State, h: Header, kind: IntentKind, op: Operation)
    requires Identities(s)
    ensures Identities(Audited(cfg, env, s, h, kind, op))
  {
    var s' := Audited(cfg, env, s, h, kind, op);
    forall x | x in s'.operations ensures OwnsIdentities(s', x, s'.operations[x]) { assert OwnsIdentities(s, x, s.operations[x]); }
    forall v | v in s'.versionIndex ensures Indexed(s', v) { assert Indexed(s, v); }
  }

  // ---- History across a step that does not commit ----

  /** The new state has the old committed facts, and no more activated operations. */
  ghost predicate SameHistoryFacts(s: State, s': State) {
    && s'.activated == s.activated
    && (forall task :: StreamOf(s', task) == StreamOf(s, task))
    && (forall task :: LogHistory(s'.auditFacts, task) == LogHistory(s.auditFacts, task))
    && (forall v | v in s.versionIndex :: v in s'.versionIndex && s'.versionIndex[v] == s.versionIndex[v])
    && (forall x | x in s.operations :: x in s'.operations && SameCommitment(s.operations[x], s'.operations[x]))
    && (forall x | x in s'.operations && x !in s.operations :: Placed(s', x, s'.operations[x]))
  }

  ghost predicate SameCommitment(op: Operation, op': Operation) {
    && op'.candidate == op.candidate && (op'.state == OpActivated <==> op.state == OpActivated)
    && (op.state == OpActivated ==> op'.evidence == op.evidence && op'.streamRevision == op.streamRevision)
  }

  lemma QuietStepKeepsHistory(s: State, s': State)
    requires History(s) && SameHistoryFacts(s, s')
    ensures History(s')
  {
    forall task ensures TaskHistory(s', task) {
      assert TaskHistory(s, task);
      var h := LogHistory(s.auditFacts, task);
      forall i | 0 <= i < |h| ensures Link(s', task, h, i) { assert Link(s, task, h, i); }
    }
    forall v | v in s'.activated ensures IsCommitted(s', v) {
      assert IsCommitted(s, v);
      assert SameCommitment(s.operations[s.versionIndex[v]], s'.operations[s.versionIndex[v]]);
    }
    forall x | x in s'.operations ensures Placed(s', x, s'.operations[x]) {
      if x in s.operations {
        assert Placed(s, x, s.operations[x]);
        assert SameCommitment(s.operations[x], s'.operations[x]);
      }
    }
  }
}
