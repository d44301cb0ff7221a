/** What the transport adds to the authority over any run of calls, faults,
    redeliveries and callbacks: nothing but time limits and refusals. */
module Delivery {
  import opened Basics
  import opened Facts
  import opened Records
  import opened Machine
  import opened Steps
  import opened Runs
  import opened Replay
  import opened Wire
  import opened Transport
  import R = Reachability

  // ---- One dispatch ----

  lemma AdmitCases(service: Service, link: Link, env: Env, core: State, bindings: Bindings, e: Envelope)
    requires Decode(e.payload).Some?
    ensures var d := Admit(service, link, env, core, bindings, e);
      || (d.core == core && d.result.error.Some?)
      || (&& Open(link, e).Carries? && d.core == service.mutate(env, core, Open(link, e).intent).state
          && d.result == EncodeResult(e, service.mutate(env, core, Open(link, e).intent).response))
    ensures Admit(service, link, env, core, bindings, e).bindings == Stored(bindings, BindingOf(e))
  {
  }

  /** A dispatch either refuses and leaves the authority alone, or is exactly one
      mutation by the intent the envelope carries, before its deadline. */
  lemma DispatchCases(service: Service, link: Link, env: Env, core: State, bindings: Bindings, e: Envelope)
    ensures var d := Dispatch(service, link, env, core, bindings, e);
      || (d.core == core && d.result.error.Some?)
      || (&& Unacceptable(link, env.now, e).None? && env.now < e.deadline && Open(link, e).Carries?
          && d.core == service.mutate(env, core, Open(link, e).intent).state
          && d.result == EncodeResult(e, service.mutate(env, core, Open(link, e).intent).response))
    ensures var d := Dispatch(service, link, env, core, bindings, e);
      d.bindings == bindings || d.bindings == Stored(bindings, BindingOf(e))
  {
    if Unacceptable(link, env.now, e).None? { AdmitCases(service, link, env, core, bindings, e); }
  }

  /** Nothing reaches the authority at or after an envelope's deadline. */
  lemma NothingAfterDeadline(service: Service, link: Link, env: Env, core: State, bindings: Bindings, e: Envelope)
    requires e.deadline <= env.now
    ensures Dispatch(service, link, env, core, bindings, e).core == core && Dispatch(service, link, env, core, bindings, e).bindings == bindings
    ensures Dispatch(service, link, env, core, bindings, e).result ==
      ErrorResult(e, if Authenticated(link, env.now, e) then StaleAuthority else OwnershipDenied)
  {
  }

  lemma OpenedEnvelope(link: Link, nameOf: string -> Option<string>, intent: Intent, deadline: Instant)
    requires ValidIntent(nameOf, intent)
    ensures Decode(EnvelopeFor(link, intent, deadline).payload).Some?
    ensures Open(link, EnvelopeFor(link, intent, deadline)) ==
      if RequestDigest(intent) == intent.header.requestDigest then Carries(intent) else Rejects(IntegrityConflict)
  {
    ValidReconstructs(link.misread, nameOf, intent);
  }

  lemma EnvelopeIsAcceptable(link: Link, now: Instant, intent: Intent, deadline: Instant)
    requires link.key != "" && now < link.authority.expiresAt && now < deadline
    requires link.authorize(ScopeFor(link, intent))
    ensures Unacceptable(link, now, EnvelopeFor(link, intent, deadline)).None?
  {
  }

  /** A valid intent whose header carries its own digest. */
  predicate Digested(service: Service, intent: Intent) {
    ValidIntent(service.nameOf, intent) && intent.header.requestDigest == RequestDigest(intent)
  }

  function ScopeFor(link: Link, intent: Intent): AuthorityScope {
    var h := intent.header;
    AuthorityScope(link.authority.id, link.authority.generation, h.domain, h.task, h.operation, h.generation, h.fence, h.safetyEpoch)
  }

  /** The binding of an intent's envelopes, whatever their deadline. */
  function CallOf(link: Link, intent: Intent): CallIdentity { IdentityOf(EnvelopeFor(link, intent, 0)) }

  lemma SameCall(link: Link, intent: Intent, deadline: Instant)
    ensures IdentityOf(EnvelopeFor(link, intent, deadline)) == CallOf(link, intent)
  {
  }

  // ---- Transparency ----

  /** What the wire carries of a response: an error drops its decision. */
  function Carried(r: Response): Response { if r.error.Some? then Response(None, r.error) else r }

  lemma AcceptsWhatWasEncoded(link: Link, e: Envelope, r: Response)
    ensures Accepted(link, e, Returned(link, EncodeResult(e, r), NoFailure)) == Carried(r)
  {
  }

  /** The deadline this call's envelope carries: that of the first bind. */
  function DeadlineOf(link: Link, now: Instant, bindings: Bindings, intent: Intent): Instant {
    var key := CallOf(link, intent).key;
    if key in bindings then bindings[key].deadline else DeadlineAt(link, now)
  }

  predicate FreeToBind(link: Link, bindings: Bindings, intent: Intent) {
    var key := CallOf(link, intent).key;
    key in bindings ==> bindings[key].identity == CallOf(link, intent)
  }

  /** The envelope of a free call carries the deadline kept for its key. */
  lemma FreeCallIsBound(link: Link, now: Instant, bindings: Bindings, intent: Intent)
    requires FreeToBind(link, bindings, intent)
    ensures var offer := BindingOf(EnvelopeFor(link, intent, DeadlineAt(link, now)));
      var b := BindingOf(EnvelopeFor(link, intent, DeadlineOf(link, now, bindings, intent)));
      var stored := Stored(bindings, b);
      stored == Stored(bindings, offer) && BoundFor(bindings, offer) == b && BoundFor(stored, b) == b && Stored(stored, b) == stored
  {
    SameCall(link, intent, DeadlineAt(link, now));
    SameCall(link, intent, DeadlineOf(link, now, bindings, intent));
  }

  lemma CallSends(
    service: Service, link: Link, now: Instant, first: Env, second: Env, net: Net, intent: Intent, connected: bool, failure: Failure)
    requires Callable(link, service.nameOf, intent) && FreeToBind(link, net.bindings, intent)
    ensures var e := EnvelopeFor(link, intent, DeadlineOf(link, now, net.bindings, intent));
      var stored := Stored(net.bindings, BindingOf(e));
      var trip := TripOf(service, link, first, second, net.core, stored, net.inbox, e, connected, failure);
      Call(service, link, now, first, second, net, intent, connected, failure)
        == CallStep(Net(trip.core, trip.bindings, net.sent + [e], trip.inbox), Understood(link, e, trip.reply))
  {
    SameCall(link, intent, DeadlineAt(link, now));
    FreeCallIsBound(link, now, net.bindings, intent);
  }

  /** A call of a key bound to another request is refused before anything is
      sent, and leaves the whole transport as it was. */
  lemma TakenCallIsRefused(
    service: Service, link: Link, now: Instant, first: Env, second: Env, net: Net, intent: Intent, connected: bool, failure: Failure)
    requires Callable(link, service.nameOf, intent) && !FreeToBind(link, net.bindings, intent)
    ensures Call(service, link, now, first, second, net, intent, connected, failure) == CallStep(net, Fails(IntegrityConflict))
  {
    SameCall(link, intent, DeadlineAt(link, now));
  }

  lemma FirstDispatch(service: Service, link: Link, env: Env, core: State, bindings: Bindings, intent: Intent, deadline: Instant)
    requires Digested(service, intent)
    requires link.key != "" && env.now < link.authority.expiresAt && env.now < deadline && link.authorize(ScopeFor(link, intent))
    requires BoundFor(bindings, BindingOf(EnvelopeFor(link, intent, deadline))) == BindingOf(EnvelopeFor(link, intent, deadline))
    ensures var e := EnvelopeFor(link, intent, deadline);
      var d := Dispatch(service, link, env, core, bindings, e);
      var step := service.mutate(env, core, intent);
      d.core == step.state && d.result == EncodeResult(e, step.response)
  {
    EnvelopeIsAcceptable(link, env.now, intent, deadline);
    OpenedEnvelope(link, service.nameOf, intent, deadline);
  }

  lemma FaultlessTrip(service: Service, link: Link, first: Env, second: Env, core: State, bindings: Bindings, inbox: Inbox, e: Envelope, r: Response)
    requires Dispatch(service, link, first, core, bindings, e).result == EncodeResult(e, r)
    ensures var trip := TripOf(service, link, first, second, core, bindings, inbox, e, true, NoFailure);
      trip.core == Dispatch(service, link, first, core, bindings, e).core && Understood(link, e, trip.reply) == Carried(r)
  {
    AcceptsWhatWasEncoded(link, e, r);
  }

  /** Over a working link a call does to the core what its seam does. */
  lemma SeamIsTransparent(service: Service, link: Link, now: Instant, first: Env, second: Env, net: Net, intent: Intent)
    requires Callable(link, service.nameOf, intent) && Digested(service, intent)
    requires link.key != "" && link.authorize(ScopeFor(link, intent)) && FreeToBind(link, net.bindings, intent)
    requires first.now < link.authority.expiresAt && first.now < DeadlineOf(link, now, net.bindings, intent)
    ensures var c := Call(service, link, now, first, second, net, intent, true, NoFailure);
      var step := service.mutate(first, net.core, intent);
      c.net.core == step.state && c.response == Carried(step.response)
  {
    var deadline := DeadlineOf(link, now, net.bindings, intent);
    var e := EnvelopeFor(link, intent, deadline);
    var stored := Stored(net.bindings, BindingOf(e));
    CallSends(service, link, now, first, second, net, intent, true, NoFailure);
    FreeCallIsBound(link, now, net.bindings, intent);
    FirstDispatch(service, link, first, net.core, stored, intent, deadline);
    FaultlessTrip(service, link, first, second, net.core, stored, net.inbox, e, service.mutate(first, net.core, intent).response);
  }

  /** A retry that differs only in its diagnostic time is refused: the business
      digest, and so the key, ignores the time, but the payload carries it. The
      authority, which would replay its outcome, never hears of it. */
  lemma OtherTimeIsRefused(
    service: Service, link: Link, now: Instant, first: Env, second: Env, net: Net, a: Intent, b: Intent, connected: bool, failure: Failure)
    requires Callable(link, service.nameOf, b)
    requires b == a.(header := a.header.(occurredAt := b.header.occurredAt)) && b.header.occurredAt != a.header.occurredAt
    requires CallOf(link, a).key in net.bindings && net.bindings[CallOf(link, a).key].identity == CallOf(link, a)
    ensures RequestDigest(a) == RequestDigest(b)
    ensures Call(service, link, now, first, second, net, b, connected, failure) == CallStep(net, Fails(IntegrityConflict))
  {
    assert WireOf(a).header != WireOf(b).header;
    assert CallOf(link, a).key == CallOf(link, b).key && CallOf(link, a).payloadDigest != CallOf(link, b).payloadDigest;
    TakenCallIsRefused(service, link, now, first, second, net, b, connected, failure);
  }

  // ---- At least once on the wire, at most once in the authority ----

  /** Whatever a dispatch of this intent's envelope does, it submits no other intent. */
  lemma DispatchSubmits(service: Service, link: Link, env: Env, core: State, bindings: Bindings, intent: Intent, deadline: Instant)
    requires ValidIntent(service.nameOf, intent)
    ensures var core' := Dispatch(service, link, env, core, bindings, EnvelopeFor(link, intent, deadline)).core;
      core' == core || (core' == service.mutate(env, core, intent).state && RequestDigest(intent) == intent.header.requestDigest)
  {
    DispatchCases(service, link, env, core, bindings, EnvelopeFor(link, intent, deadline));
    OpenedEnvelope(link, service.nameOf, intent, deadline);
  }

  lemma PaddedIsRefused(service: Service, link: Link, env: Env, core: State, bindings: Bindings, e: Envelope)
    ensures Dispatch(service, link, env, core, bindings, NonCanonical(link, e)).core == core
    ensures Dispatch(service, link, env, core, bindings, NonCanonical(link, e)).bindings == bindings
    ensures Dispatch(service, link, env, core, bindings, NonCanonical(link, e)).result.error.Some?
  {
  }

  /** The authority after a call, under any fault: untouched, one direct
      submission of this intent, or two. */
  ghost predicate Submitted(service: Service, first: Env, second: Env, core: State, intent: Intent, core': State)
  {
    var once := service.mutate(first, core, intent).state;
    || core' == core || core' == once
    || core' == service.mutate(second, once, intent).state || core' == service.mutate(second, core, intent).state
  }

  lemma TwoDispatchesSubmit(service: Service, link: Link, first: Env, second: Env, core: State, bindings: Bindings, intent: Intent, deadline: Instant)
    requires ValidIntent(service.nameOf, intent)
    ensures var e := EnvelopeFor(link, intent, deadline);
      var d := Dispatch(service, link, first, core, bindings, e);
      && Submitted(service, first, second, core, intent, d.core)
      && Submitted(service, first, second, core, intent, Again(service, link, second, d, e).core)
  {
    var e := EnvelopeFor(link, intent, deadline);
    var d := Dispatch(service, link, first, core, bindings, e);
    DispatchSubmits(service, link, first, core, bindings, intent, deadline);
    DispatchSubmits(service, link, second, d.core, d.bindings, intent, deadline);
  }

  lemma DeliverySubmits(
    service: Service, link: Link, env: Env, core: State, bindings: Bindings, intent: Intent, deadline: Instant, failure: Failure)
    requires ValidIntent(service.nameOf, intent)
    ensures var core' := Dispatch(service, link, env, core, bindings, Delivered(link, EnvelopeFor(link, intent, deadline), failure)).core;
      core' == core || core' == service.mutate(env, core, intent).state
  {
    if failure == NonCanonicalPayload {
      PaddedIsRefused(service, link, env, core, bindings, EnvelopeFor(link, intent, deadline));
    } else {
      DispatchSubmits(service, link, env, core, bindings, intent, deadline);
    }
  }

  lemma OnceSubmits(
    service: Service, link: Link, first: Env, second: Env, core: State, bindings: Bindings, intent: Intent, deadline: Instant, failure: Failure)
    requires ValidIntent(service.nameOf, intent) && !DeliversTwice(failure)
    ensures Submitted(service, first, second, core, intent,
                      Attempt(service, link, first, second, core, bindings, EnvelopeFor(link, intent, deadline), failure).core)
  {
    if !Fabricates(failure) { DeliverySubmits(service, link, first, core, bindings, intent, deadline, failure); }
  }

  lemma TwiceSubmits(
    service: Service, link: Link, first: Env, second: Env, core: State, bindings: Bindings, intent: Intent, deadline: Instant, failure: Failure)
    requires ValidIntent(service.nameOf, intent) && DeliversTwice(failure)
    ensures Submitted(service, first, second, core, intent,
                      Attempt(service, link, first, second, core, bindings, EnvelopeFor(link, intent, deadline), failure).core)
  {
    assert Delivered(link, EnvelopeFor(link, intent, deadline), failure) == EnvelopeFor(link, intent, deadline);
    TwoDispatchesSubmit(service, link, first, second, core, bindings, intent, deadline);
  }

  lemma AttemptSubmits(
    service: Service, link: Link, first: Env, second: Env, core: State, bindings: Bindings, intent: Intent, deadline: Instant, failure: Failure)
    requires ValidIntent(service.nameOf, intent)
    ensures Submitted(service, first, second, core, intent,
                      Attempt(service, link, first, second, core, bindings, EnvelopeFor(link, intent, deadline), failure).core)
  {
    if DeliversTwice(failure) {
      TwiceSubmits(service, link, first, second, core, bindings, intent, deadline, failure);
    } else {
      OnceSubmits(service, link, first, second, core, bindings, intent, deadline, failure);
    }
  }

  /** No fault of the link makes a call do anything but submit its own intent. */
  lemma CallSubmits(
    service: Service, link: Link, now: Instant, first: Env, second: Env, net: Net, intent: Intent, connected: bool, failure: Failure)
    ensures Submitted(service, first, second, net.core, intent,
                      Call(service, link, now, first, second, net, intent, connected, failure).net.core)
  {
    if Callable(link, service.nameOf, intent) {
      if FreeToBind(link, net.bindings, intent) {
        FreeCallSubmits(service, link, now, first, second, net, intent, connected, failure);
      } else {
        TakenCallIsRefused(service, link, now, first, second, net, intent, connected, failure);
      }
    }
  }

  lemma FreeCallSubmits(
    service: Service, link: Link, now: Instant, first: Env, second: Env, net: Net, intent: Intent, connected: bool, failure: Failure)
    requires Callable(link, service.nameOf, intent) && FreeToBind(link, net.bindings, intent)
    ensures Submitted(service, first, second, net.core, intent,
                      Call(service, link, now, first, second, net, intent, connected, failure).net.core)
  {
    var deadline := DeadlineOf(link, now, net.bindings, intent);
    CallSends(service, link, now, first, second, net, intent, connected, failure);
    AttemptSubmits(service, link, first, second, net.core, Stored(net.bindings, BindingOf(EnvelopeFor(link, intent, deadline))), intent, deadline, failure);
  }

  // ---- The publication authority behind the link ----

  /** A recorded submission leaves the authority alone under any environment. */
  lemma RecordedIsIdle(cfg: Config, env: Env, core: State, intent: Intent)
    requires Pinned(core) && IsRecorded(core, intent) && Replayable(KindOf(intent.payload)) && EntryRefusal(cfg, intent).None?
    ensures ServiceOf(cfg).mutate(env, core, intent).state == core
  {
    RecordedReplays(cfg, env, core, intent);
  }

  lemma IdleCallAddsNothing(
    service: Service, link: Link, now: Instant, first: Env, second: Env, net: Net, intent: Intent, connected: bool, failure: Failure)
    requires service.mutate(first, net.core, intent).state == net.core && service.mutate(second, net.core, intent).state == net.core
    ensures Call(service, link, now, first, second, net, intent, connected, failure).net.core == net.core
  {
    CallSubmits(service, link, now, first, second, net, intent, connected, failure);
  }

  /** For every valid, correctly digested, authorized and unexpired intent whose
      call is not bound to another payload, a call over a working link does to the
      authority exactly what a direct mutation does, and returns what it returns,
      except that an error comes back without the decision beside it. */
  lemma TransparentCall(cfg: Config, link: Link, now: Instant, first: Env, second: Env, net: Net, intent: Intent)
    requires Pinned(net.core) && Callable(link, cfg.nameOf, intent) && EntryRefusal(cfg, intent).None?
    requires link.key != "" && link.authorize(ScopeFor(link, intent)) && FreeToBind(link, net.bindings, intent)
    requires first.now < link.authority.expiresAt && first.now < DeadlineOf(link, now, net.bindings, intent)
    ensures var c := Call(ServiceOf(cfg), link, now, first, second, net, intent, true, NoFailure);
      var step := Mutate(cfg, first, net.core, intent);
      c.net.core == step.state && c.response == Carried(step.response)
  {
    SeamIsTransparent(ServiceOf(cfg), link, now, first, second, net, intent);
  }

  /** A first call under any fault leaves the authority as one direct submission
      would, or untouched, whenever that submission is recorded. */
  lemma FaultsNeverDoubleCommit(
    cfg: Config, link: Link, now: Instant, first: Env, second: Env, net: Net, intent: Intent, connected: bool, failure: Failure)
    requires Pinned(net.core) && Replayable(KindOf(intent.payload)) && EntryRefusal(cfg, intent).None?
    requires IsRecorded(Mutate(cfg, first, net.core, intent).state, intent)
    ensures var core' := Call(ServiceOf(cfg), link, now, first, second, net, intent, connected, failure).net.core;
      core' == net.core || core' == Mutate(cfg, first, net.core, intent).state || core' == Mutate(cfg, second, net.core, intent).state
  {
    MutateKeepsPinned(cfg, first, net.core, intent);
    RecordedIsIdle(cfg, second, Mutate(cfg, first, net.core, intent).state, intent);
    CallSubmits(ServiceOf(cfg), link, now, first, second, net, intent, connected, failure);
  }
}
