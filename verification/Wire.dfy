/** The wire form of intents, envelopes, responses and callbacks, and the
    authentication tags that bind them. */
module Wire {
  import opened Basics
  import opened Facts
  import opened Records

  // ---- Wire form of one intent ----

  datatype WirePayload =
    | NullWire
    | PrepareWire(prepare: PreparePayload)
    | VerifyWire(verify: VerifyPayload)
    | RejectWire(rejectReason: RejectReason, failure: Option<EvidenceFailure>)
    | CancelWire(cancelReason: CancelReason)
    | ReconcileWire(mode: ReconcileMode)
    | AssembleWire(assembly: Assembly)
    | ResolveWire(class_: ResolutionClass, evidence: Option<ResolutionEvidence>, approval: string, expiresAt: Instant)

  datatype WireKind = Known(kind: IntentKind) | Unknown(text: string)
  datatype WireMutation = WireMutation(kind: WireKind, header: Header, payload: WirePayload)

  function WireOf(intent: Intent): WireMutation {
    WireMutation(Known(KindOf(intent.payload)), intent.header,
      match intent.payload
      case Prepare(p) => PrepareWire(p)
      case Verify(v) => VerifyWire(v)
      case Activate => NullWire
      case Reject(reason, failure) => RejectWire(reason, failure)
      case Cancel(reason) => CancelWire(reason)
      case Reconcile(mode) => ReconcileWire(mode)
      case Assemble(a) => AssembleWire(a)
      case Release => NullWire
      case Resolve(class_, evidence, approval, expiresAt) => ResolveWire(class_, evidence, approval, expiresAt))
  }

  /** How the decoder reads a payload of another kind's shape: arbitrary. */
  type Misreading = (IntentKind, WirePayload) -> Option<Payload>

  /** Rebuild the typed intent through its constructors. A debt resolution is
      rebuilt from its evidence alone, or as an accepted exception without one. */
  function Reconstruct(misread: Misreading, wire: WireMutation): Option<Intent> {
    match wire.kind
    case Unknown(_) => None
    case Known(kind) =>
      var payload: Option<Payload> :=
        match (kind, wire.payload)
        case (PrepareKind, PrepareWire(p)) => Some(Prepare(p))
        case (VerifyKind, VerifyWire(v)) => Some(Verify(v))
        case (ActivateKind, p) => if p.NullWire? then Some(Activate) else None
        case (RejectKind, RejectWire(reason, failure)) => Some(Reject(reason, failure))
        case (CancelKind, CancelWire(reason)) => Some(Cancel(reason))
        case (ReconcileKind, ReconcileWire(mode)) => Some(Reconcile(mode))
        case (AssembleKind, AssembleWire(a)) => Some(Assemble(a))
        case (ReleaseKind, p) => if p.NullWire? then Some(Release) else None
        case (ResolveKind, ResolveWire(class_, evidence, approval, expiresAt)) =>
          if evidence.Some? then Some(Resolve(class_, evidence, "", 0))
          else Some(Resolve(AcceptedException, None, approval, expiresAt))
        case (k, p) => misread(k, p);
      if payload.None? then None else Some(Intent(wire.header, payload.value))
  }

  /** The debt resolutions the two constructors can build. */
  predicate Constructible(p: Payload) {
    match p
    case Resolve(class_, evidence, approval, expiresAt) =>
      if evidence.Some? then approval == "" && expiresAt == 0 else class_ == AcceptedException
    case _ => true
  }

  /** The wire form gives an intent back exactly when it could have been built by
      the constructors; only debt resolutions can fail to. */
  lemma ReconstructsIffConstructible(misread: Misreading, intent: Intent)
    ensures Reconstruct(misread, WireOf(intent)) == Some(intent) <==> Constructible(intent.payload)
  {
    match intent.payload
    case Resolve(class_, evidence, approval, expiresAt) =>
    case _ =>
  }

  /** Every valid intent, of all nine kinds, survives the wire. */
  lemma ValidReconstructs(misread: Misreading, nameOf: string -> Option<string>, intent: Intent)
    requires ValidIntent(nameOf, intent)
    ensures Reconstruct(misread, WireOf(intent)) == Some(intent)
  {
    ReconstructsIffConstructible(misread, intent);
  }

  // ---- Envelopes ----

  datatype Method = MutateMethod | QueryMethod | OtherMethod(name: string)

  /** A decodable request that carries one mutation, or none. */
  datatype Body = Mutation(wire: WireMutation) | EmptyBody

  /** Payload bytes: the canonical encoding of a body, one with appended bytes
      that decodes but is not canonical, or bytes that do not decode. */
  datatype Bytes = Encoded(body: Body) | Padded(body: Body, suffix: string) | Garbage(text: string)

  function Decode(b: Bytes): Option<Body> { if b.Encoded? then Some(b.body) else None }

  /** sha256 of payload bytes, as a free injective constructor. */
  datatype PayloadDigest = HashOf(bytes: Bytes) | OtherHash(text: string)

  datatype MachineAuthority = MachineAuthority(id: string, generation: Generation, expiresAt: Instant)

  datatype Envelope = Envelope(
    schema: string, family: Method, machine: string, machineGeneration: Generation, domain: PolicyDomainID,
    task: TaskID, operation: OperationID, requestDigest: Digest, payloadDigest: PayloadDigest,
    deadline: Instant, generation: Generation, fence: Fence, safetyEpoch: SafetyEpoch, payload: Bytes, tag: Tag)

  datatype WireError = SafeError(code: ErrorCode) | UnknownError

  /** Result bytes, their digest, and the two signed messages that carry them. */
  datatype ResultBytes = NoBytes | ResultOf(decision: Option<Decision>) | Extended(bytes: ResultBytes, suffix: string)
  datatype ResultDigest = NoResult | HashOfResult(bytes: ResultBytes)
  datatype Result = Result(
    family: Method, operation: OperationID, requestDigest: Digest, payloadDigest: ResultDigest,
    payload: ResultBytes, error: Option<WireError>, tag: Tag)

  /** HMAC under a key, as a free constructor: equal tags mean equal key and message. */
  datatype Tag = NoTag | OfEnvelope(key: string, envelope: Envelope) | OfResponse(key: string, result: Result) | OfCallback(key: string, result: Result)

  // Tags cover every field but the payload bytes, which the payload digest stands for.
  function SignEnvelope(e: Envelope, key: string): Tag { OfEnvelope(key, e.(payload := Garbage(""), tag := NoTag)) }
  function SignResponse(r: Result, key: string): Tag { OfResponse(key, r.(payload := NoBytes, tag := NoTag)) }
  function SignCallback(r: Result, key: string): Tag { OfCallback(key, r.(payload := NoBytes, tag := NoTag)) }

  // ---- Bindings ----

  datatype CallKey = CallKey(family: Method, domain: PolicyDomainID, task: TaskID, operation: OperationID, requestDigest: Digest)

  /** The retry identity of a call: everything but its deadline, and the deadline. */
  datatype CallIdentity = CallIdentity(
    key: CallKey, machine: string, machineGeneration: Generation, payloadDigest: PayloadDigest,
    generation: Generation, fence: Fence, safetyEpoch: SafetyEpoch)
  datatype Binding = Binding(identity: CallIdentity, deadline: Instant)

  type Bindings = map<CallKey, Binding>

  function IdentityOf(e: Envelope): CallIdentity {
    CallIdentity(CallKey(e.family, e.domain, e.task, e.operation, e.requestDigest), e.machine, e.machineGeneration,
                 e.payloadDigest, e.generation, e.fence, e.safetyEpoch)
  }

  /** First wins: the binding kept for the key of `b`. */
  function BoundFor(bindings: Bindings, b: Binding): Binding {
    if b.identity.key in bindings then bindings[b.identity.key] else b
  }
  function Stored(bindings: Bindings, b: Binding): Bindings {
    if b.identity.key in bindings then bindings else bindings[b.identity.key := b]
  }

  /** The in-memory binding store. */
  class BindingStore {
    var bindings: Bindings

    constructor ()
      ensures bindings == map[]
    {
      bindings := map[];
    }

    /** The first binding stored for a key is returned for ever. */
    method LoadOrStore(binding: Binding) returns (bound: Binding, loaded: bool)
      modifies this
      ensures bound == BoundFor(old(bindings), binding) && loaded == (binding.identity.key in old(bindings))
      ensures bindings == Stored(old(bindings), binding)
    {
      var key := binding.identity.key;
      if key in bindings {
        return bindings[key], true;
      }
      bindings := bindings[key := binding];
      return binding, false;
    }
  }
}
