/** Redriving and inspecting the external projection backlog of one Task. */
module Backlog {
  import opened Basics
  import opened Facts
  import opened Records
  import opened Machine
  import opened Invariants

  predicate Delivered(deliveries: map<AuditFactID, Delivery>, id: AuditFactID) {
    id in deliveries && deliveries[id].audit && deliveries[id].telemetry
  }

  /** Retry at most `budget` undelivered facts of the Task, oldest first. */
  function Redrive(cfg: Config, env: Env, p: Projection, facts: seq<AuditFact>, task: TaskID, budget: nat): Projection
    decreases |facts|
  {
    if facts == [] || budget == 0 then p
    else if facts[0].task != task || Delivered(p.deliveries, facts[0].id)
    then Redrive(cfg, env, p, facts[1..], task, budget)
    else Redrive(cfg, env, Deliver(cfg, env, p, facts[0].id), facts[1..], task, budget - 1)
  }

  predicate ValidLimit(limit: nat) { 0 < limit <= 100 }

  /** A redrive request names one Task and a bounded number of attempts. */
  function RebuildStep(cfg: Config, env: Env, s: State, task: TaskID, limit: nat): State {
    if task == "" || !ValidLimit(limit) then s
    else
      var p := Redrive(cfg, env, Projection(s.deliveries, s.sinkLog), s.auditFacts, task, limit);
      s.(deliveries := p.deliveries, sinkLog := p.sinkLog)
  }

  lemma {:induction false} RedriveKeeps(cfg: Config, env: Env, p: Projection, facts: seq<AuditFact>, task: TaskID, budget: nat)
    requires Ledger(p)
    ensures Ledger(Redrive(cfg, env, p, facts, task, budget))
    decreases |facts|
  {
    if facts == [] || budget == 0 {
    } else if facts[0].task != task || Delivered(p.deliveries, facts[0].id) {
      RedriveKeeps(cfg, env, p, facts[1..], task, budget);
    } else {
      DeliverKeeps(cfg, env, p, facts[0].id);
      RedriveKeeps(cfg, env, Deliver(cfg, env, p, facts[0].id), facts[1..], task, budget - 1);
    }
  }

  // ---- Draining ----

  /** The Task's retained facts that some sink has not accepted. */
  function UndeliveredCount(deliveries: map<AuditFactID, Delivery>, facts: seq<AuditFact>, task: TaskID): nat {
    if facts == [] then 0
    else (if facts[0].task == task && !Delivered(deliveries, facts[0].id) then 1 else 0)
         + UndeliveredCount(deliveries, facts[1..], task)
  }

  function Smaller(a: nat, b: nat): nat { if a < b then a else b }

  predicate SinksAccept(cfg: Config, env: Env, facts: seq<AuditFact>) {
    && cfg.hasAuditSink && cfg.hasTelemetrySink
    && forall i | 0 <= i < |facts| :: env.auditAccepts(facts[i].id) && env.telemetryAccepts(facts[i].id)
  }

  lemma {:induction false} DeliveryElsewhere(deliveries: map<AuditFactID, Delivery>, id: AuditFactID, d: Delivery, facts: seq<AuditFact>, task: TaskID)
    requires forall i | 0 <= i < |facts| :: facts[i].id != id
    ensures UndeliveredCount(deliveries[id := d], facts, task) == UndeliveredCount(deliveries, facts, task)
  {
    if facts != [] {
      DeliveryElsewhere(deliveries, id, d, facts[1..], task);
    }
  }

  lemma {:induction false} RedriveElsewhere(cfg: Config, env: Env, p: Projection, facts: seq<AuditFact>, task: TaskID, budget: nat, id: AuditFactID)
    requires forall i | 0 <= i < |facts| :: facts[i].id != id
    ensures Delivered(Redrive(cfg, env, p, facts, task, budget).deliveries, id) == Delivered(p.deliveries, id)
    decreases |facts|
  {
    if facts == [] || budget == 0 {
    } else if facts[0].task != task || Delivered(p.deliveries, facts[0].id) {
      RedriveElsewhere(cfg, env, p, facts[1..], task, budget, id);
    } else {
      RedriveElsewhere(cfg, env, Deliver(cfg, env, p, facts[0].id), facts[1..], task, budget - 1, id);
    }
  }

  /** With both sinks accepting, a redrive delivers exactly as many of the Task's
      undelivered facts as its budget allows. */
  lemma {:induction false} RedriveDrains(cfg: Config, env: Env, p: Projection, facts: seq<AuditFact>, task: TaskID, budget: nat)
    requires SinksAccept(cfg, env, facts)
    requires forall i, j | 0 <= i < j < |facts| :: facts[i].id < facts[j].id
    ensures var before := UndeliveredCount(p.deliveries, facts, task);
      UndeliveredCount(Redrive(cfg, env, p, facts, task, budget).deliveries, facts, task) == before - Smaller(budget, before)
    decreases |facts|
  {
    if facts == [] || budget == 0 {
    } else {
      var id := facts[0].id;
      var rest := facts[1..];
      assert forall i | 0 <= i < |rest| :: rest[i].id != id;
      if facts[0].task != task || Delivered(p.deliveries, id) {
        RedriveDrains(cfg, env, p, rest, task, budget);
        RedriveElsewhere(cfg, env, p, rest, task, budget, id);
      } else {
        var p1 := Deliver(cfg, env, p, id);
        assert p1.deliveries == p.deliveries[id := p1.deliveries[id]] && Delivered(p1.deliveries, id);
        DeliveryElsewhere(p.deliveries, id, p1.deliveries[id], rest, task);
        RedriveDrains(cfg, env, p1, rest, task, budget - 1);
        RedriveElsewhere(cfg, env, p1, rest, task, budget - 1, id);
      }
    }
  }

  // ---- Inspection ----

  datatype Inspection = Inspection(pending: nat, delivered: nat, sourceFacts: nat, evidence: seq<AuditFactID>)

  function TaskFacts(facts: seq<AuditFact>, task: TaskID): seq<AuditFactID> {
    if facts == [] then []
    else
      var before := TaskFacts(facts[..|facts| - 1], task);
      if facts[|facts| - 1].task == task then before + [facts[|facts| - 1].id] else before
  }

  function DeliveredCount(deliveries: map<AuditFactID, Delivery>, ids: seq<AuditFactID>): nat {
    if ids == [] then 0
    else DeliveredCount(deliveries, ids[..|ids| - 1]) + (if Delivered(deliveries, ids[|ids| - 1]) then 1 else 0)
  }

  lemma CountGrows(deliveries: map<AuditFactID, Delivery>, ids: seq<AuditFactID>, id: AuditFactID)
    ensures DeliveredCount(deliveries, ids + [id]) == DeliveredCount(deliveries, ids) + (if Delivered(deliveries, id) then 1 else 0)
  {
    assert (ids + [id])[..|ids|] == ids;
  }

  lemma {:induction false} TaskFactsGrow(facts: seq<AuditFact>, task: TaskID, i: nat)
    requires i <= |facts|
    ensures TaskFacts(facts[..i], task) <= TaskFacts(facts, task)
  {
    if i < |facts| {
      assert facts[..|facts| - 1][..i] == facts[..i];
      TaskFactsGrow(facts[..|facts| - 1], task, i);
    } else {
      assert facts[..i] == facts;
    }
  }

  /** A bounded inspection: the first facts of the Task, each counted as delivered
      or pending, never more than the limit. */
  ghost predicate Inspects(b: Inspection, deliveries: map<AuditFactID, Delivery>, facts: seq<AuditFact>, task: TaskID, limit: nat) {
    var all := TaskFacts(facts, task);
    && b.evidence == all[..Smaller(limit, |all|)] && b.sourceFacts == |b.evidence|
    && b.delivered == DeliveredCount(deliveries, b.evidence) && b.delivered + b.pending == b.sourceFacts
  }
}
