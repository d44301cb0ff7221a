/** Runs of the whole transport: calls under any fault, redeliveries of anything
    ever sent, and arbitrary callbacks. */
module Network {
  import opened Basics
  import opened Facts
  import opened Records
  import opened Machine
  import opened Steps
  import opened Runs
  import opened Replay
  import opened Wire
  import opened Transport
  import opened Delivery
  import R = Reachability

  datatype NetInput =
    | MakeCall(now: Instant, first: Env, second: Env, intent: Intent, connected: bool, failure: Failure)
    | Redeliver(env: Env, index: nat)
    | CallBack(callback: Result)

  ghost function NetNext(service: Service, link: Link, n: Net, input: NetInput): Net
  {
    match input
    case MakeCall(now, first, second, intent, connected, failure) =>
      Call(service, link, now, first, second, n, intent, connected, failure).net
    case Redeliver(env, index) =>
      if index < |n.sent| then
        var d := Dispatch(service, link, env, n.core, n.bindings, n.sent[index]);
        n.(core := d.core, bindings := d.bindings)
      else n
    case CallBack(callback) => n.(inbox := Receive(link, n.inbox, callback))
  }

  const EMPTY_NET := Net(EMPTY_STATE, map[], [], Inbox(map[], []))

  ghost predicate NetTakes(service: Service, link: Link, n: Net, n': Net) {
    exists input: NetInput :: n' == NetNext(service, link, n, input)
  }

  ghost predicate NetLater(service: Service, link: Link, n: Net, n': Net) {
    R.Reaches((a: Net, b: Net) => NetTakes(service, link, a, b), n, n')
  }

  ghost predicate NetReachable(service: Service, link: Link, n: Net) { NetLater(service, link, EMPTY_NET, n) }

  // ---- Invariants of the binding store and the inbox ----

  /** Every stored deadline is within the machine authority's lifetime, and every
      envelope ever sent carries the deadline its key was first bound to. */
  ghost predicate BindingsHold(link: Link, bindings: Bindings, sent: seq<Envelope>) {
    && (forall k | k in bindings :: bindings[k].identity.key == k && bindings[k].deadline <= link.authority.expiresAt)
    && (forall i | 0 <= i < |sent| :: IsBound(bindings, sent[i]))
  }

  ghost predicate IsBound(bindings: Bindings, e: Envelope) {
    IdentityOf(e).key in bindings && bindings[IdentityOf(e).key] == BindingOf(e)
  }

  /** At most one accepted callback per key, and the key's tag is on record. */
  ghost predicate InboxHolds(inbox: Inbox) {
    && (forall i | 0 <= i < |inbox.accepted| :: KeyOf(inbox.accepted[i]) in inbox.tags)
    && (forall i, j | 0 <= i < j < |inbox.accepted| :: KeyOf(inbox.accepted[i]) != KeyOf(inbox.accepted[j]))
  }

  ghost predicate NetGrows(n: Net, n': Net) {
    && (forall k | k in n.bindings :: k in n'.bindings && n'.bindings[k] == n.bindings[k])
    && n.sent <= n'.sent && n.inbox.accepted <= n'.inbox.accepted
  }

  lemma ReceiveHolds(link: Link, inbox: Inbox, c: Result)
    requires InboxHolds(inbox)
    ensures InboxHolds(Receive(link, inbox, c))
    ensures inbox.accepted <= Receive(link, inbox, c).accepted
  {
  }

  lemma CalledHolds(link: Link, inbox: Inbox, r: Result, failure: Failure)
    requires InboxHolds(inbox)
    ensures InboxHolds(Called(link, inbox, r, failure))
    ensures inbox.accepted <= Called(link, inbox, r, failure).accepted
  {
    ReceiveHolds(link, inbox, CallbackOf(link, r, failure));
    ReceiveHolds(link, Receive(link, inbox, CallbackOf(link, r, failure)), CallbackOf(link, r, failure));
  }

  lemma BindingHolds(link: Link, bindings: Bindings, sent: seq<Envelope>, b: Binding)
    requires BindingsHold(link, bindings, sent) && b.deadline <= link.authority.expiresAt
    ensures BindingsHold(link, Stored(bindings, b), sent)
  {
    var stored := Stored(bindings, b);
    forall i | 0 <= i < |sent| ensures IsBound(stored, sent[i]) { assert IsBound(bindings, sent[i]); }
  }

  lemma SendingHolds(link: Link, bindings: Bindings, sent: seq<Envelope>, e: Envelope)
    requires BindingsHold(link, bindings, sent) && IsBound(bindings, e)
    ensures BindingsHold(link, bindings, sent + [e])
  {
    var longer := sent + [e];
    forall i | 0 <= i < |longer| ensures IsBound(bindings, longer[i]) {
      if i < |sent| { assert IsBound(bindings, sent[i]); }
    }
  }

  lemma BoundIsStable(bindings: Bindings, e: Envelope)
    requires IsBound(bindings, e)
    ensures Stored(bindings, BindingOf(e)) == bindings
  {
  }

  /** Dispatching an envelope that is already bound binds nothing. */
  lemma DispatchBindsNothing(service: Service, link: Link, env: Env, core: State, bindings: Bindings, e: Envelope)
    requires IsBound(bindings, e)
    ensures Dispatch(service, link, env, core, bindings, e).bindings == bindings
  {
    DispatchCases(service, link, env, core, bindings, e);
    BoundIsStable(bindings, e);
  }

  lemma AttemptBindsNothing(
    service: Service, link: Link, first: Env, second: Env, core: State, bindings: Bindings, e: Envelope, failure: Failure)
    requires IsBound(bindings, e)
    ensures Attempt(service, link, first, second, core, bindings, e, failure).bindings == bindings
  {
    var d := Dispatch(service, link, first, core, bindings, e);
    DispatchBindsNothing(service, link, first, core, bindings, e);
    DispatchBindsNothing(service, link, second, d.core, d.bindings, e);
    PaddedIsRefused(service, link, first, core, bindings, e);
  }

  /** What a call does to the store, the sent envelopes and the inbox. */
  lemma CallBinds(
    service: Service, link: Link, now: Instant, first: Env, second: Env, n: Net, intent: Intent, connected: bool, failure: Failure)
    requires BindingsHold(link, n.bindings, n.sent) && InboxHolds(n.inbox)
    ensures var n' := Call(service, link, now, first, second, n, intent, connected, failure).net;
      BindingsHold(link, n'.bindings, n'.sent) && InboxHolds(n'.inbox) && NetGrows(n, n')
  {
    if Callable(link, service.nameOf, intent) {
      if FreeToBind(link, n.bindings, intent) {
        FreeCallBinds(service, link, now, first, second, n, intent, connected, failure);
      } else {
        TakenCallIsRefused(service, link, now, first, second, n, intent, connected, failure);
      }
    }
  }

  lemma FreeCallBinds(
    service: Service, link: Link, now: Instant, first: Env, second: Env, n: Net, intent: Intent, connected: bool, failure: Failure)
    requires BindingsHold(link, n.bindings, n.sent) && InboxHolds(n.inbox)
    requires Callable(link, service.nameOf, intent) && FreeToBind(link, n.bindings, intent)
    ensures var n' := Call(service, link, now, first, second, n, intent, connected, failure).net;
      BindingsHold(link, n'.bindings, n'.sent) && InboxHolds(n'.inbox) && NetGrows(n, n')
  {
    var e := EnvelopeFor(link, intent, DeadlineOf(link, now, n.bindings, intent));
    SendBinds(link, now, n, intent);
    FreeCallShape(service, link, now, first, second, n, intent, connected, failure);
  }

  /** A free call binds and sends its envelope, and its inbox only grows. */
  lemma FreeCallShape(
    service: Service, link: Link, now: Instant, first: Env, second: Env, n: Net, intent: Intent, connected: bool, failure: Failure)
    requires InboxHolds(n.inbox)
    requires Callable(link, service.nameOf, intent) && FreeToBind(link, n.bindings, intent)
    requires var e := EnvelopeFor(link, intent, DeadlineOf(link, now, n.bindings, intent)); IsBound(Stored(n.bindings, BindingOf(e)), e)
    ensures var n' := Call(service, link, now, first, second, n, intent, connected, failure).net;
      var e := EnvelopeFor(link, intent, DeadlineOf(link, now, n.bindings, intent));
      && n'.bindings == Stored(n.bindings, BindingOf(e)) && n'.sent == n.sent + [e]
      && InboxHolds(n'.inbox) && n.inbox.accepted <= n'.inbox.accepted
  {
    var e := EnvelopeFor(link, intent, DeadlineOf(link, now, n.bindings, intent));
    CallSends(service, link, now, first, second, n, intent, connected, failure);
    TripBinds(service, link, first, second, n, e, connected, failure);
  }

  lemma TripBinds(service: Service, link: Link, first: Env, second: Env, n: Net, e: Envelope, connected: bool, failure: Failure)
    requires InboxHolds(n.inbox) && IsBound(Stored(n.bindings, BindingOf(e)), e)
    ensures var stored := Stored(n.bindings, BindingOf(e));
      var trip := TripOf(service, link, first, second, n.core, stored, n.inbox, e, connected, failure);
      trip.bindings == stored && InboxHolds(trip.inbox) && n.inbox.accepted <= trip.inbox.accepted
  {
    if connected {
      var stored := Stored(n.bindings, BindingOf(e));
      AttemptBindsNothing(service, link, first, second, n.core, stored, e, failure);
      CalledHolds(link, n.inbox, Returned(link, Attempt(service, link, first, second, n.core, stored, e, failure).result, failure), failure);
    }
  }

  lemma SendBinds(link: Link, now: Instant, n: Net, intent: Intent)
    requires BindingsHold(link, n.bindings, n.sent) && FreeToBind(link, n.bindings, intent)
    ensures var e := EnvelopeFor(link, intent, DeadlineOf(link, now, n.bindings, intent));
      var stored := Stored(n.bindings, BindingOf(e));
      IsBound(stored, e) && BindingsHold(link, stored, n.sent + [e])
  {
    var e := EnvelopeFor(link, intent, DeadlineOf(link, now, n.bindings, intent));
    SameCall(link, intent, DeadlineOf(link, now, n.bindings, intent));
    BindingHolds(link, n.bindings, n.sent, BindingOf(e));
    SendingHolds(link, Stored(n.bindings, BindingOf(e)), n.sent, e);
  }

  // ---- Whole runs ----

  ghost predicate NetInv(link: Link, n: Net) {
    BindingsHold(link, n.bindings, n.sent) && InboxHolds(n.inbox)
  }

  lemma RedeliveryKeeps(service: Service, link: Link, env: Env, n: Net, index: nat)
    requires NetInv(link, n) && index < |n.sent|
    ensures var d := Dispatch(service, link, env, n.core, n.bindings, n.sent[index]); d.bindings == n.bindings
  {
    assert IsBound(n.bindings, n.sent[index]);
    DispatchBindsNothing(service, link, env, n.core, n.bindings, n.sent[index]);
  }

  lemma NetNextKeeps(service: Service, link: Link, n: Net, input: NetInput)
    requires NetInv(link, n)
    ensures NetInv(link, NetNext(service, link, n, input)) && NetGrows(n, NetNext(service, link, n, input))
  {
    match input
    case MakeCall(now, first, second, intent, connected, failure) =>
      CallBinds(service, link, now, first, second, n, intent, connected, failure);
    case Redeliver(env, index) =>
      if index < |n.sent| { RedeliveryKeeps(service, link, env, n, index); }
    case CallBack(callback) => ReceiveHolds(link, n.inbox, callback);
  }

  lemma NetTakesKeeps(service: Service, link: Link, n: Net, n': Net)
    requires NetInv(link, n) && NetTakes(service, link, n, n')
    ensures NetInv(link, n') && NetGrows(n, n')
  {
    var input: NetInput :| n' == NetNext(service, link, n, input);
    NetNextKeeps(service, link, n, input);
  }

  ghost predicate Continues(service: Service, link: Link, n: Net, n': Net) { NetInv(link, n') && NetGrows(n, n') }

  lemma TakesContinues(service: Service, link: Link, n: Net, a: Net, b: Net)
    requires Continues(service, link, n, a) && NetTakes(service, link, a, b)
    ensures Continues(service, link, n, b)
  {
    NetTakesKeeps(service, link, a, b);
  }

  lemma RunContinues(service: Service, link: Link, n: Net, n': Net)
    requires Continues(service, link, n, n) && NetLater(service, link, n, n')
    ensures Continues(service, link, n, n')
  {
    var step := (a: Net, b: Net) => NetTakes(service, link, a, b);
    var kept := (a: Net) => Continues(service, link, n, a);
    forall a, b | kept(a) && step(a, b) ensures kept(b) { TakesContinues(service, link, n, a, b); }
    R.Invariance(step, kept, n, n');
  }

  lemma NetReachableInv(service: Service, link: Link, n: Net)
    requires NetReachable(service, link, n)
    ensures NetInv(link, n)
  {
    RunContinues(service, link, EMPTY_NET, n);
  }

  lemma NetLaterGrows(service: Service, link: Link, n: Net, n': Net)
    requires NetReachable(service, link, n) && NetLater(service, link, n, n')
    ensures NetInv(link, n') && NetGrows(n, n')
  {
    NetReachableInv(service, link, n);
    RunContinues(service, link, n, n');
  }

  /** Over any run all envelopes of one call key carry one deadline and one
      payload, and the deadline is within the machine authority's own expiry. */
  lemma DeadlinesAreFirstWins(service: Service, link: Link, n: Net, n': Net, i: nat, j: nat)
    requires NetReachable(service, link, n) && NetLater(service, link, n, n') && i < |n.sent| && j < |n'.sent|
    requires IdentityOf(n.sent[i]).key == IdentityOf(n'.sent[j]).key
    ensures n'.sent[j].deadline == n.sent[i].deadline <= link.authority.expiresAt
    ensures n'.sent[j].payloadDigest == n.sent[i].payloadDigest
  {
    NetReachableInv(service, link, n);
    NetLaterGrows(service, link, n, n');
    assert IsBound(n.bindings, n.sent[i]) && IsBound(n'.bindings, n'.sent[j]);
  }

  /** `n'` comes after the call of `intent` at `now` that was the first to bind its key. */
  ghost predicate AfterFirstBind(
    service: Service, link: Link, n: Net, n': Net, now: Instant, first: Env, second: Env, intent: Intent, connected: bool, failure: Failure)
  {
    && NetReachable(service, link, n) && Callable(link, service.nameOf, intent)
    && CallOf(link, intent).key !in n.bindings
    && NetLater(service, link, NetNext(service, link, n, MakeCall(now, first, second, intent, connected, failure)), n')
  }

  lemma NetNextIsReachable(service: Service, link: Link, n: Net, input: NetInput)
    requires NetReachable(service, link, n)
    ensures NetReachable(service, link, NetNext(service, link, n, input))
  {
    var step := (a: Net, b: Net) => NetTakes(service, link, a, b);
    assert step(n, NetNext(service, link, n, input));
    R.Extends(step, EMPTY_NET, n, NetNext(service, link, n, input));
  }

  lemma FirstCallStores(
    service: Service, link: Link, n: Net, now: Instant, first: Env, second: Env, intent: Intent, connected: bool, failure: Failure)
    requires InboxHolds(n.inbox) && BindingsHold(link, n.bindings, n.sent)
    requires Callable(link, service.nameOf, intent) && CallOf(link, intent).key !in n.bindings
    ensures var bindings := Call(service, link, now, first, second, n, intent, connected, failure).net.bindings;
      var key := CallOf(link, intent).key;
      key in bindings && bindings[key] == Binding(CallOf(link, intent), DeadlineAt(link, now))
  {
    SendBinds(link, now, n, intent);
    SameCall(link, intent, DeadlineAt(link, now));
    FreeCallShape(service, link, now, first, second, n, intent, connected, failure);
  }

  /** From the first bind on, the store keeps that call and its deadline for the key. */
  lemma FirstBindIsKept(
    service: Service, link: Link, n: Net, n': Net, now: Instant, first: Env, second: Env, intent: Intent, connected: bool, failure: Failure)
    requires AfterFirstBind(service, link, n, n', now, first, second, intent, connected, failure)
    ensures NetReachable(service, link, n') && NetInv(link, n')
    ensures var key := CallOf(link, intent).key;
      key in n'.bindings && n'.bindings[key] == Binding(CallOf(link, intent), DeadlineAt(link, now))
  {
    var n1 := NetNext(service, link, n, MakeCall(now, first, second, intent, connected, failure));
    NetReachableInv(service, link, n);
    FirstCallStores(service, link, n, now, first, second, intent, connected, failure);
    NetNextIsReachable(service, link, n, MakeCall(now, first, second, intent, connected, failure));
    NetLaterGrows(service, link, n1, n');
    NetLaterReachable(service, link, n1, n');
  }

  lemma NetLaterReachable(service: Service, link: Link, n: Net, n': Net)
    requires NetReachable(service, link, n) && NetLater(service, link, n, n')
    ensures NetReachable(service, link, n')
  {
    R.Joins((a: Net, b: Net) => NetTakes(service, link, a, b), EMPTY_NET, n, n');
  }

  /** Every envelope of a key, at any later point of any run, carries the deadline
      fixed when the key was first bound: at most that moment plus the request
      lifetime, and at most the machine authority's expiry. */
  lemma FirstBindSetsDeadline(
    service: Service, link: Link, n: Net, n': Net, now: Instant, first: Env, second: Env, intent: Intent, connected: bool, failure: Failure, j: nat)
    requires AfterFirstBind(service, link, n, n', now, first, second, intent, connected, failure)
    requires j < |n'.sent| && IdentityOf(n'.sent[j]).key == CallOf(link, intent).key
    ensures n'.sent[j].deadline == DeadlineAt(link, now)
    ensures n'.sent[j].deadline <= now + link.lifetime && n'.sent[j].deadline <= link.authority.expiresAt
  {
    FirstBindIsKept(service, link, n, n', now, first, second, intent, connected, failure);
    assert IsBound(n'.bindings, n'.sent[j]);
  }

  /** Ever after the first bind a call of the same key that is another request is
      refused, and nothing of the transport or the authority changes. */
  lemma OtherRequestIsRefused(
    service: Service, link: Link, n: Net, n': Net, now: Instant, first: Env, second: Env, intent: Intent, connected: bool, failure: Failure,
    at: Instant, env: Env, env': Env, other: Intent, up: bool, fault: Failure)
    requires AfterFirstBind(service, link, n, n', now, first, second, intent, connected, failure)
    requires Callable(link, service.nameOf, other) && CallOf(link, other).key == CallOf(link, intent).key
    requires CallOf(link, other) != CallOf(link, intent)
    ensures Call(service, link, at, env, env', n', other, up, fault) == CallStep(n', Fails(IntegrityConflict))
  {
    FirstBindIsKept(service, link, n, n', now, first, second, intent, connected, failure);
    TakenCallIsRefused(service, link, at, env, env', n', other, up, fault);
  }

  /** Once the deadline fixed at the first bind has passed, no redelivery of an
      envelope of that key, at any point of any run, changes the authority. */
  lemma NothingAfterFirstDeadline(
    service: Service, link: Link, n: Net, n': Net, now: Instant, first: Env, second: Env, intent: Intent, connected: bool, failure: Failure,
    env: Env, j: nat)
    requires AfterFirstBind(service, link, n, n', now, first, second, intent, connected, failure)
    requires j < |n'.sent| && IdentityOf(n'.sent[j]).key == CallOf(link, intent).key && DeadlineAt(link, now) <= env.now
    ensures NetNext(service, link, n', Redeliver(env, j)) == n'
  {
    FirstBindIsKept(service, link, n, n', now, first, second, intent, connected, failure);
    FirstBindSetsDeadline(service, link, n, n', now, first, second, intent, connected, failure, j);
    NothingAfterDeadline(service, link, env, n'.core, n'.bindings, n'.sent[j]);
  }

  lemma LateDispatches(service: Service, link: Link, first: Env, second: Env, core: State, bindings: Bindings, e: Envelope, failure: Failure)
    requires e.deadline <= first.now && e.deadline <= second.now
    ensures Attempt(service, link, first, second, core, bindings, e, failure).core == core
  {
    NothingAfterDeadline(service, link, first, core, bindings, Delivered(link, e, failure));
    NothingAfterDeadline(service, link, second, core, bindings, e);
  }

  /** Nor does a call of that key, whatever its link does to it. */
  lemma NoCallAfterFirstDeadline(
    service: Service, link: Link, n: Net, n': Net, now: Instant, first: Env, second: Env, intent: Intent, connected: bool, failure: Failure,
    at: Instant, env: Env, env': Env, other: Intent, up: bool, fault: Failure)
    requires AfterFirstBind(service, link, n, n', now, first, second, intent, connected, failure)
    requires CallOf(link, other).key == CallOf(link, intent).key
    requires DeadlineAt(link, now) <= env.now && DeadlineAt(link, now) <= env'.now
    ensures Call(service, link, at, env, env', n', other, up, fault).net.core == n'.core
  {
    FirstBindIsKept(service, link, n, n', now, first, second, intent, connected, failure);
    LateCallAddsNothing(service, link, at, env, env', n', other, up, fault);
  }

  lemma LateCallAddsNothing(
    service: Service, link: Link, at: Instant, env: Env, env': Env, n: Net, intent: Intent, up: bool, fault: Failure)
    requires DeadlineOf(link, at, n.bindings, intent) <= env.now && DeadlineOf(link, at, n.bindings, intent) <= env'.now
    ensures Call(service, link, at, env, env', n, intent, up, fault).net.core == n.core
  {
    if Callable(link, service.nameOf, intent) {
      if FreeToBind(link, n.bindings, intent) {
        var e := EnvelopeFor(link, intent, DeadlineOf(link, at, n.bindings, intent));
        CallSends(service, link, at, env, env', n, intent, up, fault);
        LateDispatches(service, link, env, env', n.core, Stored(n.bindings, BindingOf(e)), e, fault);
      } else {
        TakenCallIsRefused(service, link, at, env, env', n, intent, up, fault);
      }
    }
  }

  lemma CallbacksAreAcceptedOnce(service: Service, link: Link, n: Net, n': Net)
    requires NetReachable(service, link, n) && NetLater(service, link, n, n')
    ensures n.inbox.accepted <= n'.inbox.accepted
    ensures forall i, j | 0 <= i < j < |n'.inbox.accepted| :: KeyOf(n'.inbox.accepted[i]) != KeyOf(n'.inbox.accepted[j])
  {
    NetLaterGrows(service, link, n, n');
  }

  // ---- Transport runs are runs of the authority ----

  lemma MutationIsLater(cfg: Config, s0: State, env: Env, core: State, intent: Intent)
    requires Pinned(core) && Later(cfg, s0, core)
    ensures Pinned(ServiceOf(cfg).mutate(env, core, intent).state) && Later(cfg, s0, ServiceOf(cfg).mutate(env, core, intent).state)
  {
    var step := (a: State, b: State) => Takes(cfg, a, b);
    var core' := Mutate(cfg, env, core, intent).state;
    assert Next(cfg, core, Submit(env, intent)) == core';
    assert step(core, core');
    R.Extends(step, s0, core, core');
    MutateKeepsPinned(cfg, env, core, intent);
  }

  ghost predicate Mirrors(cfg: Config, s0: State, core: State) { Pinned(core) && Later(cfg, s0, core) }

  /** What every submission keeps of the core, every step of the transport keeps. */
  lemma NetNextMirrors(service: Service, link: Link, mirrors: State -> bool, n: Net, input: NetInput)
    requires mirrors(n.core)
    requires forall env, core, intent | mirrors(core) :: mirrors(service.mutate(env, core, intent).state)
    ensures mirrors(NetNext(service, link, n, input).core)
  {
    match input
    case MakeCall(now, first, second, intent, connected, failure) =>
      CallSubmits(service, link, now, first, second, n, intent, connected, failure);
    case Redeliver(env, index) =>
      if index < |n.sent| { DispatchCases(service, link, env, n.core, n.bindings, n.sent[index]); }
    case CallBack(_) =>
  }

  lemma RunMirrors(service: Service, link: Link, mirrors: State -> bool, n: Net, n': Net)
    requires mirrors(n.core) && NetLater(service, link, n, n')
    requires forall env, core, intent | mirrors(core) :: mirrors(service.mutate(env, core, intent).state)
    ensures mirrors(n'.core)
  {
    var step := (a: Net, b: Net) => NetTakes(service, link, a, b);
    var kept := (a: Net) => mirrors(a.core);
    forall a, b | kept(a) && step(a, b) ensures kept(b) {
      var input: NetInput :| b == NetNext(service, link, a, input);
      NetNextMirrors(service, link, mirrors, a, input);
    }
    R.Invariance(step, kept, n, n');
  }

  /** The core of a later state of the transport is a later state of the authority. */
  lemma CoreIsLater(cfg: Config, link: Link, n: Net, n': Net)
    requires Pinned(n.core) && NetLater(ServiceOf(cfg), link, n, n')
    ensures Pinned(n'.core) && Later(cfg, n.core, n'.core)
  {
    var mirrors := (core: State) => Mirrors(cfg, n.core, core);
    R.Stays((a: State, b: State) => Takes(cfg, a, b), n.core);
    forall env, core, intent | mirrors(core) ensures mirrors(ServiceOf(cfg).mutate(env, core, intent).state) {
      MutationIsLater(cfg, n.core, env, core, intent);
    }
    RunMirrors(ServiceOf(cfg), link, mirrors, n, n');
  }

  /** The authority behind any run of the transport, faults included, is in a
      state its own runs reach: every whole-run property of the authority holds
      behind the transport as well. */
  lemma TransportRunsAreRuns(cfg: Config, link: Link, n: Net)
    requires NetReachable(ServiceOf(cfg), link, n)
    ensures Reachable(cfg, n.core) && Pinned(n.core)
  {
    CoreIsLater(cfg, link, EMPTY_NET, n);
  }

  // ---- Redelivery of what is on record ----

  /** The input delivers this intent: a call for it, or the redelivery of any
      envelope ever sent that carries it. */
  predicate Delivers(link: Link, n: Net, input: NetInput, intent: Intent) {
    match input
    case MakeCall(_, _, _, called, _, _) => called == intent
    case Redeliver(_, index) => index < |n.sent| && Decode(n.sent[index].payload).Some? && Open(link, n.sent[index]) == Carries(intent)
    case CallBack(_) => false
  }

  lemma IdleDeliveryAddsNothing(service: Service, link: Link, n: Net, intent: Intent, input: NetInput)
    requires Delivers(link, n, input, intent)
    requires forall env :: service.mutate(env, n.core, intent).state == n.core
    ensures NetNext(service, link, n, input).core == n.core
  {
    match input
    case MakeCall(now, first, second, _, connected, failure) =>
      IdleCallAddsNothing(service, link, now, first, second, n, intent, connected, failure);
    case Redeliver(env, index) =>
      DispatchCases(service, link, env, n.core, n.bindings, n.sent[index]);
  }

  /** Once the outcome of an intent is on record, nothing that delivers it again
      changes the authority: no call, under any fault of the link, and no
      redelivery of any envelope, at any later point of any run. */
  lemma RecordedAddsNothing(cfg: Config, link: Link, n: Net, n': Net, intent: Intent, input: NetInput)
    requires NetReachable(ServiceOf(cfg), link, n) && NetLater(ServiceOf(cfg), link, n, n')
    requires Replayable(KindOf(intent.payload)) && EntryRefusal(cfg, intent).None? && IsRecorded(n.core, intent)
    requires Delivers(link, n', input, intent)
    ensures NetNext(ServiceOf(cfg), link, n', input).core == n'.core
    ensures IsRecorded(n'.core, intent) && OutcomeOf(n'.core, intent) == OutcomeOf(n.core, intent)
  {
    TransportRunsAreRuns(cfg, link, n);
    CoreIsLater(cfg, link, n, n');
    RecordedStays(cfg, n.core, n'.core, intent);
    forall env ensures ServiceOf(cfg).mutate(env, n'.core, intent).state == n'.core { RecordedIsIdle(cfg, env, n'.core, intent); }
    IdleDeliveryAddsNothing(ServiceOf(cfg), link, n', intent, input);
  }
}
