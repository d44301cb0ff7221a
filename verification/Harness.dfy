/** The receiving side of the transport as an object: a harness over the
    authority, its binding store and its callback registry. */
module Endpoints {
  import opened Basics
  import opened Facts
  import opened Records
  import opened Machine
  import opened Invariants
  import opened Steps
  import opened InMemory
  import opened Wire
  import opened Transport
  import opened Delivery

  datatype DeliveryKind = Original | DuplicateOf | Redelivery
  datatype DeliveryRecord = DeliveryRecord(sequence: nat, kind: DeliveryKind, claim: Generation, family: Method, operation: OperationID)

  /** The delivery records one round trip adds after `before` earlier ones. */
  function DeliveriesOf(before: nat, e: Envelope, failure: Failure): seq<DeliveryRecord> {
    [Noted(before + 1, e, FirstKind(failure), FirstClaim(failure))]
    + if DeliversTwice(failure) then [Noted(before + 2, e, SecondKind(failure), SecondClaim(failure))] else []
  }

  // Out of order, the redelivery under a second claim overtakes the original.
  function FirstKind(failure: Failure): DeliveryKind { if failure == OutOfOrderDelivery then Redelivery else Original }
  function FirstClaim(failure: Failure): Generation { if failure == OutOfOrderDelivery then 2 else 1 }
  function SecondKind(failure: Failure): DeliveryKind {
    if failure == OutOfOrderDelivery then Original else if failure == DuplicateDelivery then DuplicateOf else Redelivery
  }
  function SecondClaim(failure: Failure): Generation { if failure == QueueClaimLoss then 2 else 1 }

  function Noted(sequence: nat, e: Envelope, kind: DeliveryKind, claim: Generation): DeliveryRecord {
    DeliveryRecord(sequence, kind, claim, e.family, e.operation)
  }

  predicate Consecutive(deliveries: seq<DeliveryRecord>) {
    forall i | 0 <= i < |deliveries| :: deliveries[i].sequence == i + 1
  }

  lemma NotedNext(deliveries: seq<DeliveryRecord>, e: Envelope, kind: DeliveryKind, claim: Generation)
    requires Consecutive(deliveries)
    ensures Consecutive(deliveries + [Noted(|deliveries| + 1, e, kind, claim)])
  {
  }

  class Harness {
    const link: Link
    const authority: PublicationAuthority
    const store: BindingStore
    var requests: seq<Envelope>
    var deliveries: seq<DeliveryRecord>
    var callbacks: seq<Result>
    var tags: map<CallbackKey, Tag>
    var accepted: seq<Result>

    /** The authority is valid, and deliveries are numbered from 1 without a gap. */
    ghost predicate Valid()
      reads this, authority, authority.persistence, authority.persistence.operations.Values
    {
      authority.Valid() && Consecutive(deliveries)
    }

    constructor (config: Config, wires: Link)
      ensures link == wires && authority.cfg == config && fresh(authority) && fresh(authority.persistence) && fresh(store) && Valid()
      ensures authority.persistence.operations == map[] && authority.state == EMPTY_STATE && store.bindings == map[]
      ensures requests == [] && deliveries == [] && callbacks == [] && tags == map[] && accepted == []
    {
      link := wires;
      requests, deliveries, callbacks, tags, accepted := [], [], [], map[], [];
      store := new BindingStore();
      authority := new PublicationAuthority(config);
    }

    method RecordDelivery(e: Envelope, kind: DeliveryKind, claim: Generation)
      requires Consecutive(deliveries)
      modifies this`deliveries
      ensures Consecutive(deliveries) && authority.state == old(authority.state)
      ensures deliveries == old(deliveries) + [Noted(|old(deliveries)| + 1, e, kind, claim)]
    {
      NotedNext(deliveries, e, kind, claim);
      deliveries := deliveries + [DeliveryRecord(|deliveries| + 1, kind, claim, e.family, e.operation)];
    }

    /** Enough for one submission: unshared records that all pin a runtime reference. */
    ghost predicate Ready()
      reads authority, authority.persistence, authority.persistence.operations.Values
    {
      authority.Ready()
    }

    /** The first binding of the call wins; another payload or deadline is refused. */
    method BindEnvelope(e: Envelope) returns (ok: bool)
      modifies store
      ensures authority.state == old(authority.state)
      ensures ok == (BoundFor(old(store.bindings), BindingOf(e)) == BindingOf(e)) && store.bindings == Stored(old(store.bindings), BindingOf(e))
    {
      var bound, loaded := store.LoadOrStore(BindingOf(e));
      return bound.identity == IdentityOf(e) && bound.deadline == e.deadline;
    }

    /** What is refused before anything is bound. */
    method Screen(now: Instant, e: Envelope) returns (refusal: Option<ErrorCode>)
      ensures refusal == Unacceptable(link, now, e)
    {
      if !Authenticated(link, now, e) {
        return Some(OwnershipDenied);
      }
      if e.deadline <= now {
        return Some(StaleAuthority);
      }
      if e.payloadDigest != HashOf(e.payload) {
        return Some(IntegrityConflict);
      }
      if Decode(e.payload).None? {
        return Some(IntegrityConflict);
      }
      return None;
    }

    /** Submit what a bound envelope carries. */
    method Handle(env: Env, e: Envelope) returns (result: Result)
      requires Ready() && Decode(e.payload).Some?
      modifies authority, authority.persistence, authority.persistence.operations.Values
      ensures Ready() && authority.persistence.KeepsRecords()
      ensures Handled(authority.state, result)
        == Transport.Handle(ServiceOf(authority.cfg), env, old(authority.state), e, Open(link, e))
    {
      match Open(link, e) {
        case Rejects(code) => return ErrorResult(e, code);
        case Carries(intent) =>
          MutateKeepsPinned(authority.cfg, env, authority.state, intent);
          var response := authority.Submit(env, intent);
          return EncodeResult(e, response);
      }
    }

    method Admit(env: Env, e: Envelope) returns (result: Result)
      requires Ready() && Decode(e.payload).Some?
      modifies store, authority, authority.persistence, authority.persistence.operations.Values
      ensures Ready() && authority.persistence.KeepsRecords()
      ensures Dispatched(authority.state, store.bindings, result)
        == Transport.Admit(ServiceOf(authority.cfg), link, env, old(authority.state), old(store.bindings), e)
    {
      var bound := BindEnvelope(e);
      if !bound {
        return ErrorResult(e, IntegrityConflict);
      }
      result := Handle(env, e);
    }

    /** Authenticate, validate and bind one envelope, then submit what it carries. */
    method Dispatch(env: Env, e: Envelope) returns (result: Result)
      requires Ready()
      modifies store, authority, authority.persistence, authority.persistence.operations.Values
      ensures Ready() && authority.persistence.KeepsRecords()
      ensures Dispatched(authority.state, store.bindings, result)
        == Transport.Dispatch(ServiceOf(authority.cfg), link, env, old(authority.state), old(store.bindings), e)
    {
      var refusal := Screen(env.now, e);
      if refusal.Some? {
        assert authority.persistence.KeepsRecords();
        return ErrorResult(e, refusal.value);
      }
      result := Admit(env, e);
    }

    // ---- One round trip ----

    /** Note one delivery and dispatch it. */
    method DispatchDelivery(env: Env, e: Envelope, kind: DeliveryKind, claim: Generation) returns (result: Result)
      requires Ready() && Consecutive(deliveries)
      modifies this`deliveries, store, authority, authority.persistence, authority.persistence.operations.Values
      ensures Ready() && Consecutive(deliveries) && authority.persistence.KeepsRecords()
      ensures deliveries == old(deliveries) + [Noted(|old(deliveries)| + 1, e, kind, claim)]
      ensures Dispatched(authority.state, store.bindings, result)
        == Transport.Dispatch(ServiceOf(authority.cfg), link, env, old(authority.state), old(store.bindings), e)
    {
      RecordDelivery(e, kind, claim);
      result := Dispatch(env, e);
    }

    /** Both deliveries of one envelope, in the order they arrive. */
    method DispatchTwice(
      first: Env, second: Env, e: Envelope, kind: DeliveryKind, claim: Generation, again: DeliveryKind, reclaim: Generation)
      returns (result: Result, repeated: Result)
      requires Ready() && Consecutive(deliveries)
      modifies this`deliveries, store, authority, authority.persistence, authority.persistence.operations.Values
      ensures Ready() && Consecutive(deliveries) && authority.persistence.KeepsRecords()
      ensures deliveries == old(deliveries) + [Noted(|old(deliveries)| + 1, e, kind, claim), Noted(|old(deliveries)| + 2, e, again, reclaim)]
      ensures var d := Transport.Dispatch(ServiceOf(authority.cfg), link, first, old(authority.state), old(store.bindings), e);
        && result == d.result
        && Dispatched(authority.state, store.bindings, repeated) == Again(ServiceOf(authority.cfg), link, second, d, e)
    {
      result := DispatchDelivery(first, e, kind, claim);
      repeated := DispatchDelivery(second, e, again, reclaim);
    }

    /** An envelope that arrives twice: again after its original, or overtaken by its redelivery. */
    method CarryTwice(first: Env, second: Env, e: Envelope, failure: Failure) returns (result: Result)
      requires Ready() && Consecutive(deliveries) && DeliversTwice(failure)
      modifies this`deliveries, store, authority, authority.persistence, authority.persistence.operations.Values
      ensures Ready() && Consecutive(deliveries) && authority.persistence.KeepsRecords()
      ensures deliveries == old(deliveries) + DeliveriesOf(|old(deliveries)|, e, failure)
      ensures Dispatched(authority.state, store.bindings, result)
        == Attempt(ServiceOf(authority.cfg), link, first, second, old(authority.state), old(store.bindings), e, failure)
    {
      var repeated;
      result, repeated := DispatchTwice(
        first, second, e, FirstKind(failure), FirstClaim(failure), SecondKind(failure), SecondClaim(failure));
      if failure != OutOfOrderDelivery {
        result := repeated;
      }
    }

    /** An envelope the link drops and answers with an error of its own. */
    method CarryNone(first: Env, second: Env, e: Envelope, failure: Failure) returns (result: Result)
      requires Ready() && Consecutive(deliveries) && Fabricates(failure)
      modifies this`deliveries, store, authority, authority.persistence, authority.persistence.operations.Values
      ensures Ready() && Consecutive(deliveries) && authority.persistence.KeepsRecords()
      ensures deliveries == old(deliveries) + DeliveriesOf(|old(deliveries)|, e, failure)
      ensures Dispatched(authority.state, store.bindings, result)
        == Attempt(ServiceOf(authority.cfg), link, first, second, old(authority.state), old(store.bindings), e, failure)
    {
      RecordDelivery(e, Original, 1);
      result := Fabricated(e, failure);
    }

    /** The deliveries a failure turns one round trip into, each noted first. */
    method Carry(first: Env, second: Env, e: Envelope, failure: Failure) returns (result: Result)
      requires Ready() && Consecutive(deliveries)
      modifies this`deliveries, store, authority, authority.persistence, authority.persistence.operations.Values
      ensures Ready() && Consecutive(deliveries) && authority.persistence.KeepsRecords()
      ensures deliveries == old(deliveries) + DeliveriesOf(|old(deliveries)|, e, failure)
      ensures Dispatched(authority.state, store.bindings, result)
        == Attempt(ServiceOf(authority.cfg), link, first, second, old(authority.state), old(store.bindings), e, failure)
    {
      if DeliversTwice(failure) {
        result := CarryTwice(first, second, e, failure);
      } else if Fabricates(failure) {
        result := CarryNone(first, second, e, failure);
      } else {
        result := DispatchDelivery(first, Delivered(link, e, failure), Original, 1);
      }
    }

    /** The transport as a value. */
    ghost function World(): Net
      reads this, store, authority
    {
      Net(authority.state, store.bindings, requests, Inbox(tags, accepted))
    }

    /** Deliver, sign what comes back, and call back with it. */
    method Serve(first: Env, second: Env, e: Envelope, failure: Failure) returns (returned: Result)
      requires Ready() && Consecutive(deliveries)
      modifies this`deliveries, this`callbacks, this`tags, this`accepted, store, authority, authority.persistence, authority.persistence.operations.Values
      ensures Ready() && Consecutive(deliveries) && authority.persistence.KeepsRecords()
      ensures deliveries == old(deliveries) + DeliveriesOf(|old(deliveries)|, e, failure)
      ensures var n := old(World());
        var d := Attempt(ServiceOf(authority.cfg), link, first, second, n.core, n.bindings, e, failure);
        returned == Returned(link, d.result, failure) && World() == Net(d.core, d.bindings, n.sent, Called(link, n.inbox, returned, failure))
    {
      var result := Carry(first, second, e, failure);
      returned := Returned(link, result, failure);
      RecordCallback(returned, failure);
    }

    /** Serve an envelope, and lose the acknowledgement where the failure says so. */
    method Answer(first: Env, second: Env, e: Envelope, failure: Failure) returns (reply: Reply)
      requires Ready() && Consecutive(deliveries)
      modifies this`deliveries, this`callbacks, this`tags, this`accepted, store, authority, authority.persistence, authority.persistence.operations.Values
      ensures Ready() && Consecutive(deliveries) && authority.persistence.KeepsRecords()
      ensures deliveries == old(deliveries) + DeliveriesOf(|old(deliveries)|, e, failure)
      ensures var n := old(World());
        var trip := TripOf(ServiceOf(authority.cfg), link, first, second, n.core, n.bindings, n.inbox, e, true, failure);
        World() == Net(trip.core, trip.bindings, n.sent, trip.inbox) && reply == trip.reply
    {
      var returned := Serve(first, second, e, failure);
      if failure == ResponseLoss || failure == TimeoutAfterDelivery {
        return Unacknowledged;
      }
      return Replied(returned);
    }

    method RecordRequest(e: Envelope)
      modifies this`requests
      ensures World() == old(World()).(sent := old(requests) + [e])
    {
      requests := requests + [e];
    }

    /** One round trip under a scheduled failure, over a link that is up or down. */
    method RoundTrip(first: Env, second: Env, e: Envelope, connected: bool, failure: Failure) returns (reply: Reply)
      requires Ready() && Consecutive(deliveries)
      modifies this, store, authority, authority.persistence, authority.persistence.operations.Values
      ensures Ready() && Consecutive(deliveries) && authority.persistence.KeepsRecords()
      ensures deliveries == old(deliveries) + (if connected then DeliveriesOf(|old(deliveries)|, e, failure) else [])
      ensures var n := old(World());
        var trip := TripOf(ServiceOf(authority.cfg), link, first, second, n.core, n.bindings, n.inbox, e, connected, failure);
        World() == Net(trip.core, trip.bindings, n.sent + [e], trip.inbox) && reply == trip.reply
    {
      RecordRequest(e);
      if !connected {
        return Unreachable;
      }
      reply := Answer(first, second, e, failure);
    }

    // ---- Callbacks ----

    /** Accept an authentic, canonical callback the first time its key is seen. */
    method DeliverCallback(c: Result)
      modifies this`callbacks, this`tags, this`accepted
      ensures callbacks == old(callbacks) + [c]
      ensures Inbox(tags, accepted) == Transport.Receive(link, Inbox(old(tags), old(accepted)), c)
    {
      callbacks := callbacks + [c];
      if c.tag != SignCallback(c, link.responseKey) || c.family == Method.OtherMethod("") || c.operation == "" || c.requestDigest == NoDigest {
        return;
      }
      if c.error.None? {
        if c.payloadDigest != HashOfResult(c.payload) || !(c.payload.ResultOf? && c.family == MutateMethod) {
          return;
        }
      } else {
        if c.payload != NoBytes || c.payloadDigest != NoResult || !c.error.value.SafeError? {
          return;
        }
      }
      var key := CallbackKey(c.family, c.operation, c.requestDigest);
      if key in tags {
        return;
      }
      tags := tags[key := c.tag];
      accepted := accepted + [c];
    }

    /** The callback of a response, delivered once, or twice when it is replayed. */
    method RecordCallback(r: Result, failure: Failure)
      modifies this`callbacks, this`tags, this`accepted
      ensures World() == old(World()).(inbox := Called(link, Inbox(old(tags), old(accepted)), r, failure))
    {
      var callback := CallbackOf(link, r, failure);
      DeliverCallback(callback);
      if failure == CallbackReplay {
        DeliverCallback(callback);
      }
    }
  }

  lemma CallRefused(
    service: Service, link: Link, now: Instant, first: Env, second: Env, net: Net, intent: Intent, connected: bool, failure: Failure)
    requires !(Callable(link, service.nameOf, intent) && FreeToBind(link, net.bindings, intent))
    ensures Call(service, link, now, first, second, net, intent, connected, failure)
      == CallStep(net, Fails(if Callable(link, service.nameOf, intent) then IntegrityConflict else InvalidIntent))
  {
    if Callable(link, service.nameOf, intent) {
      TakenCallIsRefused(service, link, now, first, second, net, intent, connected, failure);
    }
  }

  lemma CallKeepsInv(
    cfg: Config, link: Link, now: Instant, first: Env, second: Env, net: Net, intent: Intent, connected: bool, failure: Failure)
    requires Inv(cfg, net.core) && Pinned(net.core)
    ensures var core' := Call(ServiceOf(cfg), link, now, first, second, net, intent, connected, failure).net.core;
      Inv(cfg, core') && Pinned(core')
  {
    CallSubmits(ServiceOf(cfg), link, now, first, second, net, intent, connected, failure);
    SubmittedKeepsInv(cfg, first, second, net.core, intent,
                      Call(ServiceOf(cfg), link, now, first, second, net, intent, connected, failure).net.core);
  }

  lemma SubmittedKeepsInv(cfg: Config, first: Env, second: Env, core: State, intent: Intent, core': State)
    requires Inv(cfg, core) && Pinned(core) && Submitted(ServiceOf(cfg), first, second, core, intent, core')
    ensures Inv(cfg, core') && Pinned(core')
  {
    MutateKeepsInv(cfg, first, core, intent);
    MutateKeepsInv(cfg, second, core, intent);
    MutateKeepsInv(cfg, second, Mutate(cfg, first, core, intent).state, intent);
  }

  /** The sending side, over the harness it is paired with: it binds a call
      before it signs anything, and reads what comes back. */
  class Client {
    const harness: Harness

    constructor (paired: Harness)
      ensures harness == paired
    {
      harness := paired;
    }

    /** The deadline this call may carry: that of the first bind of its key, or
        none when the key is bound to another request. */
    method BindCall(intent: Intent, now: Instant) returns (deadline: Option<Instant>)
      modifies harness.store
      ensures harness.World() == old(harness.World()).(bindings := harness.store.bindings)
      ensures harness.store.bindings == Stored(old(harness.store.bindings), BindingOf(EnvelopeFor(harness.link, intent, DeadlineAt(harness.link, now))))
      ensures deadline == if FreeToBind(harness.link, old(harness.store.bindings), intent)
        then Some(DeadlineOf(harness.link, now, old(harness.store.bindings), intent)) else None
    {
      var limit := now + harness.link.lifetime;
      if harness.link.authority.expiresAt < limit {
        limit := harness.link.authority.expiresAt;
      }
      var candidate := BindingOf(EnvelopeFor(harness.link, intent, limit));
      SameCall(harness.link, intent, limit);
      var bound, loaded := harness.store.LoadOrStore(candidate);
      if bound.identity != candidate.identity {
        return None;
      }
      return Some(bound.deadline);
    }

    /** What the client makes of a reply, check by check. */
    method Read(e: Envelope, reply: Reply) returns (response: Response)
      ensures response == Understood(harness.link, e, reply)
    {
      if reply.Unacknowledged? {
        return Fails(ReconciliationNeeded);
      }
      if reply.Unreachable? {
        return Fails(RetryableUnavailable);
      }
      var r := reply.result;
      if r.tag != SignResponse(r, harness.link.responseKey) {
        return Fails(IntegrityConflict);
      }
      if r.family != e.family || r.operation != e.operation || r.requestDigest != e.requestDigest {
        return Fails(IntegrityConflict);
      }
      if r.error.Some? {
        if r.payload != NoBytes || r.payloadDigest != NoResult || r.error.value.UnknownError? {
          return Fails(IntegrityConflict);
        }
        return Fails(r.error.value.code);
      }
      if r.payloadDigest != HashOfResult(r.payload) || !r.payload.ResultOf? {
        return Fails(IntegrityConflict);
      }
      return Response(r.payload.decision, None);
    }

    /** Sign the bound call, hand it to the transport and read the answer. `net`
        is the transport before the call was bound. */
    method Transmit(
      now: Instant, first: Env, second: Env, intent: Intent, deadline: Instant, connected: bool, failure: Failure, ghost net: Net)
      returns (response: Response)
      requires harness.Ready() && Consecutive(harness.deliveries)
      requires Callable(harness.link, ServiceOf(harness.authority.cfg).nameOf, intent) && FreeToBind(harness.link, net.bindings, intent)
      requires deadline == DeadlineOf(harness.link, now, net.bindings, intent)
      requires harness.World() == net.(bindings := Stored(net.bindings, BindingOf(EnvelopeFor(harness.link, intent, deadline))))
      modifies harness, harness.store, harness.authority, harness.authority.persistence, harness.authority.persistence.operations.Values
      ensures harness.Ready() && Consecutive(harness.deliveries) && harness.authority.persistence.KeepsRecords()
      ensures CallStep(harness.World(), response)
        == Call(ServiceOf(harness.authority.cfg), harness.link, now, first, second, net, intent, connected, failure)
    {
      CallSends(ServiceOf(harness.authority.cfg), harness.link, now, first, second, net, intent, connected, failure);
      var e := EnvelopeFor(harness.link, intent, deadline);
      var reply := harness.RoundTrip(first, second, e, connected, failure);
      response := Read(e, reply);
    }

    /** Bind a call that is fit to be sent; the transport is otherwise as before. */
    method Bind(now: Instant, intent: Intent) returns (refusal: Option<ErrorCode>, deadline: Instant)
      requires harness.Ready()
      modifies harness.store
      ensures harness.Ready() && harness.authority.persistence.KeepsRecords()
      ensures var net := old(harness.World());
        var free := FreeToBind(harness.link, net.bindings, intent);
        var b := BindingOf(EnvelopeFor(harness.link, intent, DeadlineOf(harness.link, now, net.bindings, intent)));
        if !Callable(harness.link, ServiceOf(harness.authority.cfg).nameOf, intent) then refusal == Some(InvalidIntent) && harness.World() == net
        else if !free then refusal == Some(IntegrityConflict) && harness.World() == net
        else refusal == None && deadline == DeadlineOf(harness.link, now, net.bindings, intent) && harness.World() == net.(bindings := Stored(net.bindings, b))
    {
      deadline := 0;
      if !Callable(harness.link, harness.authority.cfg.nameOf, intent) {
        return Some(InvalidIntent), deadline;
      }
      ghost var bindings := harness.store.bindings;
      var bound := BindCall(intent, now);
      if bound.None? {
        SameCall(harness.link, intent, DeadlineAt(harness.link, now));
        return Some(IntegrityConflict), deadline;
      }
      FreeCallIsBound(harness.link, now, bindings, intent);
      return None, bound.value;
    }

    /** Bind, sign, send, and read the answer. */
    method Send(now: Instant, first: Env, second: Env, intent: Intent, connected: bool, failure: Failure) returns (response: Response)
      requires harness.Ready() && Consecutive(harness.deliveries)
      modifies harness, harness.store, harness.authority, harness.authority.persistence, harness.authority.persistence.operations.Values
      ensures harness.Ready() && Consecutive(harness.deliveries) && harness.authority.persistence.KeepsRecords()
      ensures CallStep(harness.World(), response)
        == Call(ServiceOf(harness.authority.cfg), harness.link, now, first, second, old(harness.World()), intent, connected, failure)
    {
      ghost var net := harness.World();
      var refusal, deadline := Bind(now, intent);
      if refusal.Some? {
        CallRefused(ServiceOf(harness.authority.cfg), harness.link, now, first, second, net, intent, connected, failure);
        return Fails(refusal.value);
      }
      response := Transmit(now, first, second, intent, deadline, connected, failure, net);
    }

    /** A mutation over the transport: exactly the call of the specification. */
    method Mutate(now: Instant, first: Env, second: Env, intent: Intent, connected: bool, failure: Failure) returns (response: Response)
      requires harness.Valid()
      modifies harness, harness.store, harness.authority, harness.authority.persistence, harness.authority.persistence.operations.Values
      ensures harness.Valid() && harness.authority.persistence.KeepsRecords()
      ensures CallStep(harness.World(), response)
        == Call(ServiceOf(harness.authority.cfg), harness.link, now, first, second, old(harness.World()), intent, connected, failure)
    {
      CallKeepsInv(harness.authority.cfg, harness.link, now, first, second, harness.World(), intent, connected, failure);
      response := Send(now, first, second, intent, connected, failure);
    }
  }
}
