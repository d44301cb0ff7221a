/** The owned transport: a client and a harness that share a first-wins binding
    store and carry intents to the authority over a faulty link. */
module Transport {
  import opened Basics
  import opened Facts
  import opened Records
  import opened Machine
  import opened Wire

  const WIRE_SCHEMA: string := "slidesmith.artifact-publication.owned-transport/v1"

  datatype AuthorityScope = AuthorityScope(
    machine: string, machineGeneration: Generation, domain: PolicyDomainID, task: TaskID,
    operation: OperationID, generation: Generation, fence: Fence, safetyEpoch: SafetyEpoch)

  /** What the harness serves: any core with a mutation seam. */
  datatype Service = Service(mutate: (Env, State, Intent) -> Step, nameOf: string -> Option<string>)

  /** The publication authority as such a core. A state it holds always pins
      runtime references; elsewhere the seam does nothing. */
  ghost function ServiceOf(cfg: Config): Service {
    Service((env: Env, s: State, intent: Intent) => if Pinned(s) then Mutate(cfg, env, s, intent) else Step(s, Fails(IntegrityFailure)), cfg.nameOf)
  }

  /** The paired client and harness share the machine authority and both keys. */
  datatype Link = Link(
    authority: MachineAuthority, key: string, responseKey: string, authorize: AuthorityScope -> bool,
    lifetime: nat, misread: Misreading)

  datatype Failure =
    | NoFailure | ResponseLoss | DuplicateDelivery | OutOfOrderDelivery | QueueClaimLoss | CallbackReplay
    | TimeoutAfterDelivery | NonCanonicalPayload | UnsafeFailure | ForgedResponse | ForgedCallback
    | ForgedErrorResponse | ForgedErrorCallback | UnknownWireError

  datatype CallbackKey = CallbackKey(family: Method, operation: OperationID, requestDigest: Digest)
  datatype Inbox = Inbox(tags: map<CallbackKey, Tag>, accepted: seq<Result>)

  /** The authority, the shared binding store, every envelope handed to the
      transport, and the accepted callbacks. */
  datatype Net = Net(core: State, bindings: Bindings, sent: seq<Envelope>, inbox: Inbox)

  // ---- The harness side ----

  function ErrorResult(e: Envelope, code: ErrorCode): Result {
    Result(e.family, e.operation, e.requestDigest, NoResult, NoBytes, Some(SafeError(code)), NoTag)
  }

  /** An error drops the decision that came with it. */
  function EncodeResult(e: Envelope, r: Response): Result {
    if r.error.Some? then ErrorResult(e, r.error.value)
    else Result(e.family, e.operation, e.requestDigest, HashOfResult(ResultOf(r.decision)), ResultOf(r.decision), None, NoTag)
  }

  predicate Authenticated(link: Link, now: Instant, e: Envelope) {
    && link.key != "" && e.machine == link.authority.id && e.machineGeneration == link.authority.generation
    && link.authority.expiresAt > now && e.tag == SignEnvelope(e, link.key)
    && link.authorize(AuthorityScope(e.machine, e.machineGeneration, e.domain, e.task, e.operation, e.generation, e.fence, e.safetyEpoch))
  }

  /** The rebuilt intent carries exactly the envelope's facts and its digest. */
  predicate MatchesEnvelope(wire: WireMutation, intent: Intent, e: Envelope) {
    var h := intent.header;
    && h.domain == e.domain && h.task == e.task && h.operation == e.operation
    && h.requestDigest == e.requestDigest && RequestDigest(intent) == e.requestDigest
    && h.generation == e.generation && h.fence == e.fence && h.safetyEpoch == e.safetyEpoch
    && wire.kind == Known(KindOf(intent.payload))
  }

  function BindingOf(e: Envelope): Binding { Binding(IdentityOf(e), e.deadline) }

  /** What the harness refuses before it binds the envelope. */
  function Unacceptable(link: Link, now: Instant, e: Envelope): Option<ErrorCode> {
    if !Authenticated(link, now, e) then Some(OwnershipDenied)
    else if e.deadline <= now then Some(StaleAuthority)
    else if e.payloadDigest != HashOf(e.payload) || Decode(e.payload).None? then Some(IntegrityConflict)
    else None
  }

  /** The intent an accepted and bound envelope delivers, or the refusal. */
  datatype Opened = Carries(intent: Intent) | Rejects(code: ErrorCode)

  function Open(link: Link, e: Envelope): Opened
    requires Decode(e.payload).Some?
  {
    match Decode(e.payload).value
    case EmptyBody => Rejects(InvalidIntent)
    case Mutation(wire) =>
      if e.family != MutateMethod then Rejects(IntegrityConflict)
      else
        var intent := Reconstruct(link.misread, wire);
        if intent.None? then Rejects(InvalidIntent)
        else if !MatchesEnvelope(wire, intent.value, e) then Rejects(IntegrityConflict)
        else Carries(intent.value)
  }

  datatype Dispatched = Dispatched(core: State, bindings: Bindings, result: Result)
  datatype Handled = Handled(core: State, result: Result)

  /** What becomes of an accepted and bound envelope. */
  function Handle(service: Service, env: Env, core: State, e: Envelope, cargo: Opened): Handled
  {
    match cargo
    case Rejects(code) => Handled(core, ErrorResult(e, code))
    case Carries(intent) =>
      var step := service.mutate(env, core, intent);
      Handled(step.state, EncodeResult(e, step.response))
  }

  /** Bind an acceptable envelope; the first binding of its key decides. */
  function Admit(service: Service, link: Link, env: Env, core: State, bindings: Bindings, e: Envelope): Dispatched
    requires Decode(e.payload).Some?
  {
    var stored := Stored(bindings, BindingOf(e));
    if BoundFor(bindings, BindingOf(e)) != BindingOf(e) then Dispatched(core, stored, ErrorResult(e, IntegrityConflict))
    else
      var handled := Handle(service, env, core, e, Open(link, e));
      Dispatched(handled.core, stored, handled.result)
  }

  /** The only way the transport reaches the authority. */
  function Dispatch(service: Service, link: Link, env: Env, core: State, bindings: Bindings, e: Envelope): Dispatched
  {
    var refusal := Unacceptable(link, env.now, e);
    if refusal.Some? then Dispatched(core, bindings, ErrorResult(e, refusal.value))
    else Admit(service, link, env, core, bindings, e)
  }

  // ---- Callbacks ----

  predicate AcceptableCallback(link: Link, c: Result) {
    && c.tag == SignCallback(c, link.responseKey)
    && c.family != Method.OtherMethod("") && c.operation != "" && c.requestDigest != NoDigest
    && if c.error.None? then c.payloadDigest == HashOfResult(c.payload) && c.payload.ResultOf? && c.family == MutateMethod
       else c.payload == NoBytes && c.payloadDigest == NoResult && c.error.value.SafeError?
  }

  function KeyOf(c: Result): CallbackKey { CallbackKey(c.family, c.operation, c.requestDigest) }

  /** First wins again: one accepted callback per key. */
  function Receive(link: Link, inbox: Inbox, c: Result): Inbox {
    if !AcceptableCallback(link, c) || KeyOf(c) in inbox.tags then inbox
    else Inbox(inbox.tags[KeyOf(c) := c.tag], inbox.accepted + [c])
  }

  // ---- One round trip over the faulty link ----

  function Pad(b: Bytes): Bytes {
    match b
    case Encoded(body) => Padded(body, " ")
    case Padded(body, suffix) => Padded(body, suffix + " ")
    case Garbage(text) => Garbage(text + " ")
  }

  /** The same envelope with a padded payload, honestly re-signed. */
  function NonCanonical(link: Link, e: Envelope): Envelope {
    var padded := e.(payload := Pad(e.payload), payloadDigest := HashOf(Pad(e.payload)));
    padded.(tag := SignEnvelope(padded, link.key))
  }

  /** A second delivery of the same envelope, under its own environment. */
  function Again(service: Service, link: Link, env: Env, d: Dispatched, e: Envelope): Dispatched
  {
    Dispatch(service, link, env, d.core, d.bindings, e)
  }

  predicate Fabricates(failure: Failure) {
    failure == UnsafeFailure || failure == ForgedErrorResponse || failure == ForgedErrorCallback || failure == UnknownWireError
  }

  predicate DeliversTwice(failure: Failure) {
    failure == DuplicateDelivery || failure == OutOfOrderDelivery || failure == QueueClaimLoss
  }

  /** An error made up by the link itself; one of them carries no known code. */
  function Fabricated(e: Envelope, failure: Failure): Result {
    var r := ErrorResult(e, RetryableUnavailable);
    if failure == UnknownWireError then r.(error := Some(WireError.UnknownError)) else r
  }

  function Delivered(link: Link, e: Envelope, failure: Failure): Envelope {
    if failure == NonCanonicalPayload then NonCanonical(link, e) else e
  }

  /** The deliveries a failure turns one round trip into, and the result the
      harness answers with. */
  function Attempt(
    service: Service, link: Link, first: Env, second: Env, core: State, bindings: Bindings, e: Envelope, failure: Failure): Dispatched
  {
    if Fabricates(failure) then Dispatched(core, bindings, Fabricated(e, failure))
    else
      var d := Dispatch(service, link, first, core, bindings, Delivered(link, e, failure));
      if !DeliversTwice(failure) then d
      else
        var again := Again(service, link, second, d, e);
        if failure == OutOfOrderDelivery then again.(result := d.result) else again
  }

  /** The signed response as it leaves the harness, tampered with or not. */
  function Returned(link: Link, r: Result, failure: Failure): Result {
    var signed := r.(tag := SignResponse(r, link.responseKey));
    if failure == ForgedResponse
    then signed.(payload := Extended(r.payload, "x"), payloadDigest := HashOfResult(Extended(r.payload, "x")))
    else if failure == ForgedErrorResponse then signed.(payload := Extended(r.payload, "unsigned"))
    else signed
  }

  /** The asynchronous callback that carries the same result. */
  function CallbackOf(link: Link, r: Result, failure: Failure): Result {
    var signed := r.(tag := SignCallback(r, link.responseKey));
    if failure == ForgedCallback
    then signed.(payload := Extended(r.payload, "x"), payloadDigest := HashOfResult(Extended(r.payload, "x")))
    else if failure == ForgedErrorCallback then signed.(payload := Extended(r.payload, "unsigned"))
    else signed
  }

  function Called(link: Link, inbox: Inbox, r: Result, failure: Failure): Inbox {
    var once := Receive(link, inbox, CallbackOf(link, r, failure));
    if failure == CallbackReplay then Receive(link, once, CallbackOf(link, r, failure)) else once
  }

  /** What comes back over the link: nothing, a lost acknowledgement, or a signed response. */
  datatype Reply = Unreachable | Unacknowledged | Replied(result: Result)
  datatype Tripped = Tripped(core: State, bindings: Bindings, inbox: Inbox, reply: Reply)

  /** One round trip: deliver, sign what comes back, call back with it, answer. */
  function TripOf(
    service: Service, link: Link, first: Env, second: Env, core: State, bindings: Bindings, inbox: Inbox, e: Envelope,
    connected: bool, failure: Failure): Tripped
  {
    if !connected then Tripped(core, bindings, inbox, Unreachable)
    else
      var d := Attempt(service, link, first, second, core, bindings, e, failure);
      var r := Returned(link, d.result, failure);
      Tripped(d.core, d.bindings, Called(link, inbox, r, failure),
              if failure == ResponseLoss || failure == TimeoutAfterDelivery then Unacknowledged else Replied(r))
  }

  // ---- The client side ----

  /** What the client makes of a returned response. */
  function Accepted(link: Link, e: Envelope, r: Result): Response {
    if r.tag != SignResponse(r, link.responseKey) then Fails(IntegrityConflict)
    else if r.family != e.family || r.operation != e.operation || r.requestDigest != e.requestDigest
    then Fails(IntegrityConflict)
    else if r.error.Some? then
      if r.payload != NoBytes || r.payloadDigest != NoResult || r.error.value.UnknownError? then Fails(IntegrityConflict)
      else Fails(r.error.value.code)
    else if r.payloadDigest != HashOfResult(r.payload) || !r.payload.ResultOf? then Fails(IntegrityConflict)
    else Response(r.payload.decision, None)
  }

  function Understood(link: Link, e: Envelope, reply: Reply): Response {
    match reply
    case Unreachable => Fails(RetryableUnavailable)
    case Unacknowledged => Fails(ReconciliationNeeded)
    case Replied(r) => Accepted(link, e, r)
  }

  /** The request lifetime, cut short by the machine authority's own expiry. */
  function DeadlineAt(link: Link, now: Instant): (deadline: Instant)
    ensures deadline <= now + link.lifetime && deadline <= link.authority.expiresAt
  {
    if link.authority.expiresAt < now + link.lifetime then link.authority.expiresAt else now + link.lifetime
  }

  function EnvelopeFor(link: Link, intent: Intent, deadline: Instant): Envelope {
    var h := intent.header;
    var payload := Encoded(Mutation(WireOf(intent)));
    var e := Envelope(
      WIRE_SCHEMA, MutateMethod, link.authority.id, link.authority.generation, h.domain, h.task, h.operation,
      h.requestDigest, HashOf(payload), deadline, h.generation, h.fence, h.safetyEpoch, payload, NoTag);
    e.(tag := SignEnvelope(e, link.key))
  }

  predicate Callable(link: Link, nameOf: string -> Option<string>, intent: Intent) {
    && ValidIntent(nameOf, intent) && link.authority.id != "" && link.authority.generation != 0
    && intent.header.requestDigest != NoDigest
  }

  datatype CallStep = CallStep(net: Net, response: Response)

  /** One client call: bind, sign, send, and read the answer. */
  function Call(
    service: Service, link: Link, now: Instant, first: Env, second: Env, net: Net, intent: Intent,
    connected: bool, failure: Failure): CallStep
  {
    if !Callable(link, service.nameOf, intent) then CallStep(net, Fails(InvalidIntent))
    else
      var offer := BindingOf(EnvelopeFor(link, intent, DeadlineAt(link, now)));
      var bound := BoundFor(net.bindings, offer);
      var net1 := net.(bindings := Stored(net.bindings, offer));
      if bound.identity != offer.identity then CallStep(net1, Fails(IntegrityConflict))
      else
        var e := EnvelopeFor(link, intent, bound.deadline);
        var net2 := net1.(sent := net1.sent + [e]);
        var trip := TripOf(service, link, first, second, net2.core, net2.bindings, net2.inbox, e, connected, failure);
        CallStep(Net(trip.core, trip.bindings, net2.sent, trip.inbox), Understood(link, e, trip.reply))
  }
}
