/** Linear publication history over whole runs: one unbroken chain of versions
    per Task, no lost update, no reused identity, and an audit log from which
    streams, histories and operation states can be rebuilt. */
module Publication {
  import opened Basics
  import opened Facts
  import opened Records
  import opened Manifests
  import opened Machine
  import opened Lifecycle
  import opened Invariants
  import opened Steps
  import opened Runs

  // ---- The chain ----

  predicate InTask(a: ActivatedVersion, task: TaskScope) { a.domain == task.domain && a.task == task.task }

  /** `h` is the Task's complete history: position i holds revision i + 1, only
      the first is a first generation, each later one edits its predecessor, and
      the stream points at the last. */
  ghost predicate IsLinear(s: State, task: TaskScope, h: seq<ArtifactVersionID>) {
    && StreamOf(s, task) == Stream(|h|, if h == [] then NO_VERSION else h[|h| - 1])
    && (forall i {:trigger Link(s, task, h, i)} | 0 <= i < |h| :: h[i] != NO_VERSION && Link(s, task, h, i))
    && (forall v | v in s.activated && InTask(s.activated[v], task) ::
          var r := s.activated[v].streamRevision; 0 < r <= |h| && h[r - 1] == v)
  }

  lemma CommittedPosition(s: State, task: TaskScope, v: ArtifactVersionID)
    requires History(s) && v in s.activated && InTask(s.activated[v], task)
    ensures var h := LogHistory(s.auditFacts, task); var r := s.activated[v].streamRevision; 0 < r <= |h| && h[r - 1] == v
  {
    assert IsCommitted(s, v);
  }

  lemma HistoryIsLinear(s: State, task: TaskScope)
    requires Identities(s) && History(s)
    ensures IsLinear(s, task, LogHistory(s.auditFacts, task))
  {
    var h := LogHistory(s.auditFacts, task);
    StreamIsLogged(s, task);
    forall i | 0 <= i < |h| ensures h[i] != NO_VERSION && Link(s, task, h, i) { HistoryIsNamed(s, task, i); }
    forall v | v in s.activated && InTask(s.activated[v], task)
      ensures var r := s.activated[v].streamRevision; 0 < r <= |h| && h[r - 1] == v
    {
      CommittedPosition(s, task, v);
    }
  }

  /** In every reachable state the versions a Task's activations committed form
      one complete linear history ending at the stream head. */
  lemma LinearHistory(cfg: Config, s: State, task: TaskScope)
    requires Reachable(cfg, s)
    ensures IsLinear(s, task, LogHistory(s.auditFacts, task))
    ensures StreamOf(s, task).head == NO_VERSION <==> StreamOf(s, task).revision == 0
  {
    ReachableHistory(cfg, s);
    HistoryIsLinear(s, task);
    LinearHead(s, task, LogHistory(s.auditFacts, task));
  }

  lemma LinearHead(s: State, task: TaskScope, h: seq<ArtifactVersionID>)
    requires IsLinear(s, task, h)
    ensures StreamOf(s, task).head == NO_VERSION <==> StreamOf(s, task).revision == 0
  {
    if h != [] { LinearNames(s, task, h, |h| - 1); }
  }

  lemma LinearNames(s: State, task: TaskScope, h: seq<ArtifactVersionID>, i: nat)
    requires IsLinear(s, task, h) && i < |h|
    ensures h[i] != NO_VERSION && h[i] in s.activated && s.activated[h[i]].version == h[i]
    ensures s.activated[h[i]].streamRevision == i + 1 && InTask(s.activated[h[i]], task)
    ensures s.activated[h[i]].parent == if i == 0 then NO_VERSION else h[i - 1]
  {
    assert Link(s, task, h, i);
  }

  lemma LinearIsDistinct(s: State, task: TaskScope, h: seq<ArtifactVersionID>)
    requires IsLinear(s, task, h)
    ensures Distinct(h) && NO_VERSION !in h && forall v | v in h :: v in s.activated
  {
    forall i | 0 <= i < |h| ensures h[i] != NO_VERSION && h[i] in s.activated && s.activated[h[i]].streamRevision == i + 1 {
      LinearNames(s, task, h, i);
    }
  }

  /** No two committed versions of one Task edit the same parent or share a revision. */
  lemma NoTwoChildren(cfg: Config, s: State, v: ArtifactVersionID, w: ArtifactVersionID)
    requires Reachable(cfg, s) && v in s.activated && w in s.activated && v != w
    requires s.activated[v].domain == s.activated[w].domain && s.activated[v].task == s.activated[w].task
    ensures s.activated[v].parent != s.activated[w].parent && s.activated[v].streamRevision != s.activated[w].streamRevision
  {
    var task := TaskScope(s.activated[v].domain, s.activated[v].task);
    ReachableHistory(cfg, s);
    HistoryIsLinear(s, task);
    LinearSeparates(s, task, LogHistory(s.auditFacts, task), v, w);
  }

  lemma LinearSeparates(s: State, task: TaskScope, h: seq<ArtifactVersionID>, v: ArtifactVersionID, w: ArtifactVersionID)
    requires IsLinear(s, task, h) && v in s.activated && w in s.activated && v != w
    requires InTask(s.activated[v], task) && InTask(s.activated[w], task)
    ensures s.activated[v].parent != s.activated[w].parent && s.activated[v].streamRevision != s.activated[w].streamRevision
  {
    var i, j := s.activated[v].streamRevision - 1, s.activated[w].streamRevision - 1;
    assert Link(s, task, h, i) && Link(s, task, h, j);
    if i > 0 && j > 0 {
      assert Link(s, task, h, i - 1) && Link(s, task, h, j - 1);
    }
  }

  // ---- Reading the history back, in whatever order the store lists it ----

  function RevisionBefore(a: ActivatedVersion, b: ActivatedVersion): bool { a.streamRevision < b.streamRevision }

  /** Some enumeration of the Task's committed versions, each once. */
  ghost predicate Enumerates(s: State, task: TaskScope, listed: seq<ActivatedVersion>) {
    && Distinct(listed)
    && (forall a | a in listed :: a.version in s.activated && s.activated[a.version] == a && InTask(a, task))
    && (forall v | v in s.activated && InTask(s.activated[v], task) :: s.activated[v] in listed)
  }

  lemma {:induction false} DistinctSameElements<T>(a: seq<T>, b: seq<T>)
    requires Distinct(a) && Distinct(b) && forall x :: x in a <==> x in b
    ensures multiset(a) == multiset(b)
  {
    forall x ensures multiset(a)[x] == multiset(b)[x] {
      DistinctOccursOnce(a, x);
      DistinctOccursOnce(b, x);
    }
  }

  lemma {:induction false} DistinctOccursOnce<T>(s: seq<T>, x: T)
    requires Distinct(s)
    ensures multiset(s)[x] == if x in s then 1 else 0
  {
    if s != [] {
      assert s == [s[0]] + s[1..];
      DistinctOccursOnce(s[1..], x);
      assert s[0] !in s[1..];
    }
  }

  ghost function Chain(s: State, h: seq<ArtifactVersionID>): (r: seq<ActivatedVersion>)
    requires forall i | 0 <= i < |h| :: h[i] in s.activated
    ensures |r| == |h| && forall i | 0 <= i < |h| :: r[i] == s.activated[h[i]]
  {
    seq(|h|, i requires 0 <= i < |h| => s.activated[h[i]])
  }

  lemma RevisionOrderIsStrict(chain: seq<ActivatedVersion>)
    requires forall i | 0 <= i < |chain| :: chain[i].streamRevision == i + 1
    ensures Ordered(chain, RevisionBefore) && StrictOn(multiset(chain), RevisionBefore) && Distinct(chain)
  {
    forall x, y | x in multiset(chain) && y in multiset(chain) && x != y ensures x.streamRevision != y.streamRevision {
      var i :| 0 <= i < |chain| && chain[i] == x;
      var j :| 0 <= j < |chain| && chain[j] == y;
    }
  }

  lemma ListedIsChain(s: State, task: TaskScope, h: seq<ArtifactVersionID>, listed: seq<ActivatedVersion>, chain: seq<ActivatedVersion>)
    requires Enumerates(s, task, listed) && |chain| == |h|
    requires forall i | 0 <= i < |h| :: h[i] in s.activated && chain[i] == s.activated[h[i]] && InTask(chain[i], task)
    requires forall v | v in s.activated && InTask(s.activated[v], task) ::
      var r := s.activated[v].streamRevision; 0 < r <= |h| && h[r - 1] == v
    ensures forall x :: x in listed <==> x in chain
  {
    forall x ensures x in listed <==> x in chain {
      if x in listed { assert chain[x.streamRevision - 1] == x; }
      if x in chain {
        var i :| 0 <= i < |chain| && chain[i] == x;
      }
    }
  }

  lemma LinearSorts(s: State, task: TaskScope, h: seq<ArtifactVersionID>, listed: seq<ActivatedVersion>)
    requires IsLinear(s, task, h) && Enumerates(s, task, listed)
    ensures forall i | 0 <= i < |h| :: h[i] in s.activated
    ensures Sort(listed, RevisionBefore) == Chain(s, h)
  {
    LinearIsDistinct(s, task, h);
    var chain := Chain(s, h);
    forall i | 0 <= i < |h| ensures chain[i].streamRevision == i + 1 && chain[i].version == h[i] && InTask(chain[i], task) {
      LinearNames(s, task, h, i);
    }
    RevisionOrderIsStrict(chain);
    ListedIsChain(s, task, h, listed, chain);
    DistinctSameElements(listed, chain);
    SortForgetsOrder(listed, chain, RevisionBefore);
    SortedAlready(chain, RevisionBefore);
  }

  /** The version history query returns exactly the Task's history, whatever
      order the store enumerates its versions in. */
  lemma HistoryQueryIsChain(cfg: Config, s: State, task: TaskScope, listed: seq<ActivatedVersion>)
    requires Reachable(cfg, s) && Enumerates(s, task, listed)
    ensures var h := LogHistory(s.auditFacts, task);
      && IsLinear(s, task, h) && |Sort(listed, RevisionBefore)| == |h|
      && forall i | 0 <= i < |h| :: h[i] in s.activated && Sort(listed, RevisionBefore)[i] == s.activated[h[i]]
  {
    ReachableHistory(cfg, s);
    HistoryIsLinear(s, task);
    LinearSorts(s, task, LogHistory(s.auditFacts, task), listed);
  }

  // ---- No lost update, no ABA ----

  lemma {:induction false} LogHistoryGrows(a: seq<AuditFact>, b: seq<AuditFact>, task: TaskScope)
    requires a <= b
    ensures LogHistory(a, task) <= LogHistory(b, task)
    decreases |b|
  {
    if |a| < |b| {
      assert a <= b[..|b| - 1];
      LogHistoryGrows(a, b[..|b| - 1], task);
    } else {
      assert a == b;
    }
  }

  lemma FirstNewPosition(h: seq<ArtifactVersionID>, h1: seq<ArtifactVersionID>, r: nat)
    requires h <= h1 && r < |h1| && h1[r] !in h && Distinct(h1)
    requires r > 0 ==> h1[r - 1] in h
    ensures r == |h|
  {
    assert forall i | 0 <= i < |h| :: h[i] == h1[i];
  }

  /** Where a version committed later sits, when its parent was already in the history. */
  lemma LateCommitPosition(s: State, s1: State, task: TaskScope, h: seq<ArtifactVersionID>, h1: seq<ArtifactVersionID>, v: ArtifactVersionID)
    requires IsLinear(s, task, h) && IsLinear(s1, task, h1) && h <= h1
    requires v !in s.activated && v in s1.activated && InTask(s1.activated[v], task)
    requires s1.activated[v].parent != NO_VERSION ==> s1.activated[v].parent in h
    ensures s1.activated[v].parent == StreamOf(s, task).head
  {
    LinearIsDistinct(s, task, h);
    LinearIsDistinct(s1, task, h1);
    var r := s1.activated[v].streamRevision - 1;
    LinearNames(s1, task, h1, r);
    FirstNewPosition(h, h1, r);
  }

  lemma CommittedOperation(s: State, scope: OperationScope)
    requires Identities(s) && History(s) && scope in s.operations && s.operations[scope].state == OpActivated
    ensures var v := s.operations[scope].candidate.version;
      v in s.activated && InTask(s.activated[v], TaskOf(scope)) && Snapshots(s.activated[v], s.operations[scope])
  {
    assert Placed(s, scope, s.operations[scope]);
    assert IsCommitted(s, s.operations[scope].candidate.version);
    assert OwnsIdentities(s, scope, s.operations[scope]);
  }

  lemma LateCommitExtendsHead(s: State, s1: State, scope: OperationScope)
    requires Identities(s) && History(s) && Identities(s1) && History(s1) && s.auditFacts <= s1.auditFacts
    requires scope in s.operations && s.operations[scope].state != OpActivated
    requires scope in s1.operations && s1.operations[scope].state == OpActivated
    requires s1.operations[scope].candidate == s.operations[scope].candidate
    ensures s.operations[scope].candidate.parent == StreamOf(s, TaskOf(scope)).head
  {
    var task := TaskOf(scope);
    CommittedOperation(s1, scope);
    UncommittedIsNew(s, scope);
    assert Placed(s, scope, s.operations[scope]);
    HistoryIsLinear(s, task);
    HistoryIsLinear(s1, task);
    LogHistoryGrows(s.auditFacts, s1.auditFacts, task);
    LateCommitPosition(s, s1, task, LogHistory(s.auditFacts, task), LogHistory(s1.auditFacts, task), s.operations[scope].candidate.version);
  }

  /** Once the head of a Task has moved away from the parent an unactivated
      operation was prepared on, no continuation of the run activates that
      operation, whatever revision and head its submissions claim; not even after
      any number of further activations (no lost update, no ABA). */
  lemma NoLostUpdate(cfg: Config, s: State, s': State, scope: OperationScope)
    requires Reachable(cfg, s) && Later(cfg, s, s')
    requires scope in s.operations && s.operations[scope].state != OpActivated
    requires s.operations[scope].candidate.parent != StreamOf(s, TaskOf(scope)).head
    ensures scope in s'.operations && s'.operations[scope].state != OpActivated
  {
    LaterGrows(cfg, s, s');
    assert Evolves(s.operations[scope], s'.operations[scope]);
    if s'.operations[scope].state == OpActivated {
      ReachableHistory(cfg, s);
      LaterHistory(cfg, s, s');
      LateCommitExtendsHead(s, s', scope);
    }
  }

  // ---- The audit log refines the state ----

  /** From the audit log alone: each operation's state, the set of operations,
      each Task's stream, and the revision of every activation. */
  lemma AuditRefinesState(cfg: Config, s: State)
    requires Reachable(cfg, s)
    ensures forall scope | scope in s.operations :: LastState(s.auditFacts, scope) == Some(s.operations[scope].state)
    ensures forall scope | scope !in s.operations :: LastState(s.auditFacts, scope) == None
    ensures forall task :: StreamOf(s, task) == LogStream(s.auditFacts, task)
    ensures Numbered(s.auditFacts)
    ensures forall i, j | 0 <= i < j < |s.auditFacts| :: s.auditFacts[i].id < s.auditFacts[j].id
  {
    ReachableInv(cfg, s);
    forall scope | scope !in s.operations ensures LastState(s.auditFacts, scope) == None {
      UnknownIsUnlogged(s.auditFacts, s.operations.Keys, scope);
    }
    forall task ensures StreamOf(s, task) == LogStream(s.auditFacts, task) { StreamIsLogged(s, task); }
  }

  lemma {:induction false} UnknownIsUnlogged(log: seq<AuditFact>, known: set<OperationScope>, scope: OperationScope)
    requires (forall i | 0 <= i < |log| :: Subject(log[i]) in known) && scope !in known
    ensures LastState(log, scope) == None
  {
    if log != [] {
      assert Subject(log[|log| - 1]) in known;
      UnknownIsUnlogged(log[..|log| - 1], known, scope);
    }
  }

  // ---- Committed versions are immutable and recompute ----

  /** A committed version never changes again, and its manifest digest is the
      digest of its own stored members. */
  lemma CommittedForever(cfg: Config, s: State, s': State, v: ArtifactVersionID)
    requires Reachable(cfg, s) && Later(cfg, s, s') && v in s.activated
    ensures v in s'.activated && s'.activated[v] == s.activated[v]
    ensures var a := s.activated[v];
      a.manifestDigest == ManifestDigestOf(a.schema, a.version, a.task, a.kind, a.parent, a.lineageDigest, a.members)
  {
    LaterGrows(cfg, s, s');
    CommittedIsSound(cfg, s, v);
  }

  lemma CommittedIsSound(cfg: Config, s: State, v: ArtifactVersionID)
    requires Reachable(cfg, s) && v in s.activated
    ensures v in s.versionIndex && s.versionIndex[v] in s.operations
    ensures var a, op := s.activated[v], s.operations[s.versionIndex[v]];
      && a.version == v && v == op.candidate.version && a.task == s.versionIndex[v].task
      && Snapshots(a, op) && SoundCandidate(a.task, op.candidate)
  {
    ReachableHistory(cfg, s);
    assert IsCommitted(s, v);
    assert Indexed(s, v);
    ReachableSound(cfg, s, s.versionIndex[v]);
  }

  // ---- Identities ----

  /** Two different operations never share a version, an artifact or a debt identity. */
  lemma IdentitiesAreFresh(cfg: Config, s: State, x: OperationScope, y: OperationScope)
    requires Reachable(cfg, s) && x in s.operations && y in s.operations && x != y
    ensures s.operations[x].candidate.version != s.operations[y].candidate.version
    ensures Apart(s.operations[x], s.operations[y])
  {
    ReachableHistory(cfg, s);
    assert OwnsIdentities(s, x, s.operations[x]) && OwnsIdentities(s, y, s.operations[y]);
  }

  /** The manual-edit guard of prepare reads the minted versions; on the Task's
      own head it accepts exactly the committed ones, so it never fires. */
  lemma HeadIsMintedIffCommitted(cfg: Config, s: State, task: TaskScope)
    requires Reachable(cfg, s)
    ensures var head := StreamOf(s, task).head;
      && (head in s.versionFacts <==> head in s.activated)
      && (head != NO_VERSION ==> head in s.versionFacts)
  {
    ReachableHistory(cfg, s);
    HistoryIsLinear(s, task);
    HeadIsKnown(s, task, LogHistory(s.auditFacts, task));
  }

  lemma VersionIsKnown(s: State, v: ArtifactVersionID)
    requires Identities(s) && History(s)
    ensures v in s.activated ==> v in s.versionFacts
    ensures v in s.versionFacts ==> v != NO_VERSION
  {
    assert v in s.activated ==> IsCommitted(s, v);
    assert v in s.versionIndex ==> Indexed(s, v);
  }

  lemma HeadIsKnown(s: State, task: TaskScope, h: seq<ArtifactVersionID>)
    requires Identities(s) && History(s) && IsLinear(s, task, h)
    ensures var head := StreamOf(s, task).head;
      if head == NO_VERSION then head !in s.versionFacts && head !in s.activated else head in s.versionFacts && head in s.activated
  {
    VersionIsKnown(s, StreamOf(s, task).head);
    if h != [] { LinearNames(s, task, h, |h| - 1); }
  }
}
