# Artifact publication authority: verification model

The artifact publication authority turns a prepared candidate into an immutable,
numbered Artifact Version of a Task. Every change goes through one mutation seam
that runs under one lock, so the model is a state machine: one call is one atomic
step, and a run is any finite sequence of steps, each under its own clock, fault
hook, capability registry, release port, scope resolver and sinks.

The project has three layers.

* **State machine.** `Facts`, `Records`, `Evidence`, `ResidueRules`, `Manifests`
  and `Machine` define identities, canonical digests, evidence, records and the
  step function of all nine intents, with the branches, guards and error codes
  of the code in their order. `Backlog`, `Content`, `Wire` and `Transport` add the
  projection backlog, the content-target and reconstruction-capability queries,
  and the owned transport with its faults.
* **Theorems.** `Lifecycle`, `Invariants`, `Preparation`, `Steps`, `Reachability`
  and `Runs` prove one invariant for every reachable state. On it rest
  `Publication` (linear history, no lost update, audit refinement, identities),
  `Replay` (exactly-once and response loss), `VerificationRules` (the evidence
  matrix), `Trail` (what journal, evidence and audit log prove), `Activation`
  (when exactly a version is committed), `Safety` (lifecycle, residue, debt,
  sinks), `Content` (validity for life), `Delivery` and `Network` (transparency,
  deadlines, callbacks). `Scenarios` runs concrete submissions from the empty
  authority where a theorem says that something can happen.
* **Code.** `Store`, `InMemory`, `Matrix`, `Validation`, `Endpoints`, `Wire` and
  `Decimal` hold the imperative counterparts: operation records updated in place,
  mint loops, the evidence loops, the flows with their early exits, the
  transport's binding store, harness and client, and the decimal buffer.
  Each method is proved to take exactly the specified step.

Conventions. Digests and authentication tags are free constructors, so they are
injective and cannot be forged. Identities this authority mints are their
counters, with 0 for the absent identity; fixed-width hexadecimal orders the same
way. A fault hook answers each fault point with an optional error. Callers of the
run theorems are not restricted: any header, payload, authority and environment
is an input. The transport is stated over any core with a mutation seam, as in the
code; `Transport.ServiceOf` is the publication authority as such a core.

Where the code and its comments disagree the code is followed:

* The evidence matrix never records pending slots, so a re-check always covers all
  pinned capabilities (`Safety.ActivatedWasVerified`,
  `VerificationRules.RecheckIsComplete`).
* A blocked release receipt overwrites the status of a debt that was already
  resolved; `Safety.ResolvedStaysUnlessBlocked` gives the exact condition,
  `Scenarios.ResolvedIsNotAbsorbing` a run, and `Safety.ReopenedNeverResolves`
  shows the debt can then not be resolved again.
* In-memory activation compares generation, fence, revision and head, but not the
  safety epoch or the activity generation (`Activation.CommitsIff`,
  `Activation.EpochsAreNotCompared`, and a run in `Scenarios.CommitsUnderOtherEpochs`).
* A resolution names the audit identity minted just before its own audit fact, an
  identity no retained fact carries (`Trail.ResolutionAuditIsUnclaimed`, and a run
  in `Scenarios.ResolutionNamesNoFact`).
* The transport drops the decision that accompanies an error, and refuses a retry
  that differs only in its diagnostic time although the authority would replay it
  (`Delivery.OtherTimeIsRefused`).

## Model

| member | source | states |
|---|---|---|
| Publication.LinearHistory | backend/internal/artifactpublication/activation.go:61-115 | In every reachable state the versions committed for a Task are one complete chain: position i holds revision i + 1, only the first is a first generation without parent, every later one is a manual edit of its predecessor, and the stream's revision and head are those of the last (head absent iff revision 0). |
| Publication.NoTwoChildren | backend/internal/artifactpublication/activation.go:69-92 | No two committed versions of a Task share a parent or a revision. |
| Publication.NoLostUpdate | backend/internal/artifactpublication/activation.go:69-92 | Once the head differs from the parent an unactivated operation was prepared on, no continuation of the run activates it, whatever its submissions claim and however often the head moves on. |
| Publication.HistoryQueryIsChain | backend/internal/artifactpublication/query.go:295-312 | Whatever order the store enumerates the committed versions in, the sorted history is exactly the chain. |
| Publication.AuditRefinesState | backend/internal/artifactpublication/in_memory.go:408-425 | The audit log alone gives each operation's state, the set of operations, each Task's stream, and numbers a Task's activations 1..n in log order. |
| Publication.CommittedForever | backend/internal/artifactpublication/activation.go:98-115 | A committed version never changes again and its manifest digest recomputes from its own stored members. |
| Publication.IdentitiesAreFresh | backend/internal/artifactpublication/in_memory.go:693-712 | Different operations never share a version, artifact or debt identity, faults that burn identities included. |
| Publication.HeadIsMintedIffCommitted | backend/internal/artifactpublication/in_memory.go:568-577 | On a Task's head the guard over minted versions accepts exactly the committed ones, as the relational adapter's guard over committed versions does. |
| Activation.CommitsIff | backend/internal/artifactpublication/activation.go:30-92 | A submission to a reachable state takes an operation into activated if and only if it is an accepted activate of that operation by an authorized authority with the operation's generation and fence, on a verified operation whose parent is the head, by a header that names that head and its revision, with no fault before the commit. |
| Activation.EpochsAreNotCompared | backend/internal/artifactpublication/activation.go:36-71 | Two activates that differ only in safety epoch and activity generation (and so in request digest) both commit or neither does. |
| Activation.EvidenceCarriesHeaderEpochs | backend/internal/artifactpublication/activation.go:141-168 | The committed evidence has the operation's own safety epoch, or activity generation, if and only if the header has it. |
| Scenarios.CommitsUnderOtherEpochs | backend/internal/artifactpublication/activation.go:36-71 | A run from the empty authority, by prepare, verify and activate, that commits under another safety epoch and another activity generation than the operation was prepared with. |
| Trail.EvidenceBindsCommit | backend/internal/artifactpublication/activation.go:141-168 | In every reachable state the evidence of a committed version binds that version: its operation and original request, its claim, its revision, parent and head, and a manifest digest that recomputes from the stored members. |
| Trail.FactsAreAuthorized | backend/internal/artifactpublication/in_memory.go:762-790 | In every reachable state each retained audit fact carries the digest of a request by its authority for its action on its operation, and that authority may take that action, for reconcile in the requested mode. |
| Trail.JournalTellsState | backend/internal/artifactpublication/in_memory.go:387-400 | In every reachable state an operation is activated, rejected or cancelled exactly when the outcome of that flow is journaled, and has a debt exactly when the assembly is. |
| Trail.ResolutionAuditIsUnclaimed | backend/internal/artifactpublication/residue_flow.go:303-307 | In every reachable state no retained audit fact carries the identity a debt resolution names; the resolution's own fact carries the next one. |
| Scenarios.ResolutionNamesNoFact | backend/internal/artifactpublication/residue_flow.go:303-307 | A run from the empty authority that ends with a resolved debt naming an audit identity none of its facts carries. |
| Runs.ReachableInv | backend/internal/artifactpublication/in_memory.go:260-327 | Every state some finite run of submissions and redrives reaches, under arbitrary clocks, faults, registries, ports and sinks, satisfies the invariant. |
| Runs.EveryInputIsTaken | backend/internal/artifactpublication/in_memory.go:260-327 | A reachable state accepts every input and the result is reachable: the run theorems are about all interleavings. |
| Runs.LaterGrows | backend/internal/artifactpublication/state.go:5-234 | Along any run operations only evolve, and committed versions, identity facts, audit facts and sink acceptances are never removed or rewritten. |
| Steps.MutateKeepsInv | backend/internal/artifactpublication/in_memory.go:260-327 | One mutation by any intent under any environment keeps operation soundness, identities, linear history, audit refinement and the delivery ledger. |
| Steps.MutateKeepsPinned | backend/internal/artifactpublication/lifecycle.go:168-175 | No mutation leaves an operation without a pinned runtime reference, so the first-proposal index of verify is never out of range. |
| Steps.RebuildKeepsInv | backend/internal/artifactpublication/projection_backlog.go:160-193 | A redrive keeps the same invariant. |
| Reachability.Invariance | backend/internal/artifactpublication/in_memory.go:260-327 | The run induction: what holds at the start and survives every step holds wherever a run leads. |
| Replay.ExactlyOnce | backend/internal/artifactpublication/in_memory.go:301-306 | A recorded outcome is returned as a replay to every later submission of the same request, in every later state and environment, and that submission leaves the whole state alone. |
| Replay.ConflictIsRefused | backend/internal/artifactpublication/in_memory.go:307-317 | Another request of a recorded kind is refused as an integrity conflict, sets no more than the conflict flag and leaves the recorded outcome in place: one digest per kind. |
| Replay.LossChangesNothing | backend/internal/artifactpublication/in_memory.go:675-678 | Losing the response after the journal write leaves exactly the state that would have been left anyway (reconcile, which journals its response, excepted). |
| Replay.LostResponseIsReplayed | backend/internal/artifactpublication/in_memory.go:361-400 | Under any environment, whether or not the response was lost: after a submission reached the journal every retry at any later point returns the answer it would have had without the loss, marked as a replay, and changes nothing. |
| Replay.RecordedIffAudited | backend/internal/artifactpublication/in_memory.go:387-425 | A replayable submission is journaled exactly when it retains an audit fact. |
| Safety.TerminalIsFinal | backend/internal/artifactpublication/lifecycle.go:34-41 | Activated, rejected and cancelled are absorbing, and a candidate never changes after prepare. |
| Safety.FailedNeverPublishes | backend/internal/artifactpublication/lifecycle.go:496-515 | An operation whose verification was ever recorded as failed is never verified or activated afterwards. |
| Safety.ActivatedWasVerified | backend/internal/artifactpublication/activation.go:42-59 | Activated implies a verified verification; exactly the activated operations carry evidence; pending slots stay empty. |
| Safety.ResidueStructure | backend/internal/artifactpublication/residue_flow.go:44-69 | Residue iff rejected or cancelled, with the candidate's staging; debt iff an assembly was recorded, naming it; every stored disposition is open or the image of a stored valid receipt, so expired is never stored. |
| Safety.ClosureIsFinal | backend/internal/artifactpublication/residue_flow.go:142-144 | A residue closed by evidence keeps its disposition, receipt and attempt count for ever. |
| Safety.ClosedIsNotReleasedAgain | backend/internal/artifactpublication/residue_flow.go:142-144 | Once a residue is closed by evidence, no submission to its operation depends on what the release port would answer. |
| Safety.ResolutionIsWrittenOnce | backend/internal/artifactpublication/residue_flow.go:283-304 | Class, reason, evidence, approval and time of a debt resolution are written once; unless an accepted exception, its evidence binds that debt's resource identity, generation and fence. |
| Safety.ResolvedStaysUnlessBlocked | backend/internal/artifactpublication/residue_flow.go:218-232 | Across any submission to any reachable state a resolved debt becomes blocked if and only if the submission is an authorized release of its operation, or reconcile complete_release, that gets past the entry checks, reaches the port and brings back a valid blocked receipt; every other submission leaves it resolved. |
| Scenarios.ResolvedIsNotAbsorbing | backend/internal/artifactpublication/residue_flow.go:226-230 | A run from the empty authority, by prepare, reject, record assembly, resolve and release, whose debt is resolved before its last submission and blocked after it. |
| Safety.ReopenedNeverResolves | backend/internal/artifactpublication/residue_flow.go:268-273 | A debt blocked again after its resolution never becomes resolved again. |
| Safety.SinksAcceptOnce | backend/internal/artifactpublication/in_memory.go:431-461 | Over any run each sink accepts each fact at most once, and exactly the accepted facts are marked delivered. |
| Safety.RebuildDrains | backend/internal/artifactpublication/projection_backlog.go:160-193 | With both sinks accepting, one redrive lowers the Task's undelivered count by exactly min(limit, undelivered) and touches nothing else. |
| Lifecycle.ContinueKeeps | backend/internal/artifactpublication/in_memory.go:331-359 | Each of the eight continuing intents keeps its operation sound and never undoes what is final. |
| VerificationRules.CapabilityMatrixIsExact | backend/internal/artifactpublication/lifecycle.go:242-294 | On every prepared candidate the capability section accepts exactly the lists in one-to-one correspondence with the pinned references by slot, identity and digest, each matching its member and staged reference. |
| VerificationRules.VerdictForgetsOrder | backend/internal/artifactpublication/lifecycle.go:242-301 | Verified, ambiguous or failed, and the accepted list, do not depend on the order of the capability list. |
| VerificationRules.VerifiedMeansResolvable | backend/internal/artifactpublication/lifecycle.go:283-300 | Whatever submission puts an operation into verified, by verify or by reconcile, every pinned capability resolves in that step to a current capability with the pinned digest. |
| VerificationRules.RecheckIsComplete | backend/internal/artifactpublication/lifecycle.go:545-572 | A re-check with nothing pending looks at every pinned reference. |
| Preparation.CanonicalCandidate | backend/internal/artifactpublication/in_memory.go:591-650 | Reordering members, staging and capability references of a valid prepare drafts the same members, staging, manifest and lineage digests and burns the same identities. |
| Preparation.OrderNeverRefuses | backend/internal/artifactpublication/in_memory.go:548-582 | The guards of prepare treat all orders of one request alike. |
| Preparation.ManifestKeepsMemberOrder | backend/internal/artifactpublication/manifest.go:275-295 | Ordering manifest members by artifact identity agrees with the slot order they were minted in. |
| Preparation.CandidateIsSound | backend/internal/artifactpublication/in_memory.go:591-658 | Every candidate prepare builds has distinct slots, one capability reference per member, matching staged facts, increasing artifact identities and a recomputable manifest digest. |
| Preparation.MintingIsFresh | backend/internal/artifactpublication/in_memory.go:703-712 | Minting gives consecutive identities above every earlier one and files each under its Task. |
| Facts.RequestDigestBindsOperation | backend/internal/artifactpublication/intents.go:679-684 | Equal request digests mean the same operation, kind, header facts and, except for claimed evidence digests of verify, the same payload. |
| Content.TargetsStayValid | backend/internal/artifactpublication/query.go:415-530 | A resolved content target presented in any later reachable state is accepted iff the presented scope is well formed, has the bound kind and generation and is then the resolver's current fact for that version. |
| Content.CapabilitiesStayValid | backend/internal/artifactpublication/query.go:540-637 | The same for reconstruction capabilities, without the kind and only before the declared expiry. |
| Content.AcceptedIsIssuable | backend/internal/artifactpublication/query.go:472-530 | An accepted target is one the authority would issue now, up to its time, exactly when it is an attachment, carries the version's own schema and names a workspace and Task. |
| Wire.ReconstructsIffConstructible | backend/internal/artifactpublication/owned_transport.go:1055-1115 | The wire form gives an intent back exactly when the constructors could have built it; only debt resolutions can fail to. |
| Wire.ValidReconstructs | backend/internal/artifactpublication/owned_transport.go:995-1115 | Every valid intent of all nine kinds survives the wire. |
| Wire.BindingStore.LoadOrStore | backend/internal/artifactpublication/owned_transport.go:138-149 | The kept binding of the key is returned, and one is stored only where none was kept. |
| Delivery.TransparentCall | backend/internal/artifactpublication/owned_transport.go:608-656 | For every valid, correctly digested, authorized, unexpired intent whose key is not bound to other bytes, a call does exactly what a direct mutation does and returns its answer, an error without the decision beside it. |
| Delivery.CallSubmits | backend/internal/artifactpublication/owned_transport.go:515-577 | Under any of the link's faults a call leaves the authority untouched or with one or two direct submissions of its own intent. |
| Delivery.FaultsNeverDoubleCommit | backend/internal/artifactpublication/owned_transport.go:536-545 | A first call under any fault has the effect of at most one submission whenever that submission is recorded. |
| Delivery.OtherTimeIsRefused | backend/internal/artifactpublication/owned_transport.go:980-990 | A retry that differs only in its diagnostic time has the same digest and key but other bytes: it is refused and the authority never hears of it. |
| Network.DeadlinesAreFirstWins | backend/internal/artifactpublication/owned_transport.go:783-835 | Over any run all envelopes of one call key carry one deadline, within the machine authority's expiry, and one payload. |
| Network.FirstBindSetsDeadline | backend/internal/artifactpublication/owned_transport.go:783-816 | Every envelope of a key, at any later point of any run, carries the deadline fixed when a call first bound the key: at most that moment plus the request lifetime, and at most the machine authority's expiry. |
| Network.OtherRequestIsRefused | backend/internal/artifactpublication/owned_transport.go:806-809 | Ever after the first bind a call of the same key that is another request is refused, and neither transport nor authority changes. |
| Network.NothingAfterFirstDeadline | backend/internal/artifactpublication/owned_transport.go:618-620 | Once the deadline fixed at the first bind has passed, no redelivery of an envelope of that key changes anything, at any point of any run. |
| Network.NoCallAfterFirstDeadline | backend/internal/artifactpublication/owned_transport.go:618-620 | Nor does a call of that key change the authority, under any fault of the link. |
| Network.RecordedAddsNothing | backend/internal/artifactpublication/owned_transport.go:536-545 | Once an intent's outcome is on record, no call for it under any fault and no redelivery of any envelope ever sent that carries it changes the authority again, at any later point of any run, and the outcome stays. |
| Network.CallbacksAreAcceptedOnce | backend/internal/artifactpublication/owned_transport.go:901-931 | Over any run, arbitrary callbacks included, at most one callback per key is accepted. |
| Network.TransportRunsAreRuns | backend/internal/artifactpublication/owned_transport.go:515-577 | The authority behind any run of the transport is in a state its own runs reach, so every run theorem holds behind the transport. |
| Transport.DeadlineAt | backend/internal/artifactpublication/owned_transport.go:788-791 | A fresh deadline is at most now plus the lifetime and at most the machine authority's expiry. |
| Endpoints.Harness.constructor | backend/internal/artifactpublication/owned_transport.go:401-429 | A new harness serves an empty authority with nothing bound, delivered or accepted. |
| Endpoints.Harness.BindEnvelope | backend/internal/artifactpublication/owned_transport.go:818-835 | An envelope is accepted iff the kept binding has its identity and deadline. |
| Endpoints.Harness.Screen | backend/internal/artifactpublication/owned_transport.go:612-629 | The refusals made before anything is bound, in order. |
| Endpoints.Harness.Dispatch | backend/internal/artifactpublication/owned_transport.go:608-656 | Authenticate, validate, bind and submit: exactly the dispatch of the specification; no record is replaced and new ones are new objects. |
| Endpoints.Harness.Carry | backend/internal/artifactpublication/owned_transport.go:533-564 | The deliveries each failure turns one round trip into, numbered consecutively, with the result the harness answers with. |
| Endpoints.Harness.RoundTrip | backend/internal/artifactpublication/owned_transport.go:515-577 | One round trip over the faulty link: requests, deliveries, the authority, the bindings, the inbox and the reply are those of the specification. |
| Endpoints.Harness.DeliverCallback | backend/internal/artifactpublication/owned_transport.go:901-931 | Every callback is logged; an authentic canonical one is accepted the first time its key is seen. |
| Endpoints.Harness.RecordCallback | backend/internal/artifactpublication/owned_transport.go:859-899 | The callback of a response, delivered once or replayed, leaves the inbox the specification gives. |
| Endpoints.Client.BindCall | backend/internal/artifactpublication/owned_transport.go:783-816 | A call carries the deadline of the first bind of its key, or none when the key is bound to another request. |
| Endpoints.Client.Read | backend/internal/artifactpublication/owned_transport.go:747-780 | What the client makes of a reply, check by check. |
| Endpoints.Client.Mutate | backend/internal/artifactpublication/owned_transport.go:660-781 | A mutation over the transport is exactly the call of the specification, under every failure, and keeps the authority valid. |
| Decimal.FormatInt64 | backend/internal/artifactpublication/postgres_projection.go:182-202 | The digit loop stays inside its 20-byte buffer for every 64-bit value and prints the specified text, a bare sign for the minimum. |
| Decimal.ParseUint64 | backend/internal/artifactpublication/postgres.go:778-787 | The digit loop computes the denoted number modulo 2^64, or 0 for any non-digit. |
| Decimal.ParsesBackIffNatural | backend/internal/artifactpublication/postgres_projection.go:182-202 | Parsing the printed text returns the number iff it is not negative. |
| Decimal.DenotesIffNotMinimum | backend/internal/artifactpublication/postgres_projection.go:182-202 | The printed text denotes the number for every 64-bit value except the minimum. |
| Matrix.EvaluateEvidence | backend/internal/artifactpublication/lifecycle.go:119-302 | The evidence matrix with its loops and early exits computes the specified verdict. |
| Matrix.EvaluateRuntime | backend/internal/artifactpublication/lifecycle.go:132-175 | First failing runtime check, or the accepted evidence and the proposal all channels share. |
| Matrix.IndexRuntime | backend/internal/artifactpublication/lifecycle.go:137-142 | Comparing with the last entry per channel finds a conflict iff two entries of one channel differ in identity. |
| Matrix.EvaluateCapabilities | backend/internal/artifactpublication/lifecycle.go:242-301 | First failing capability check, or the accepted capabilities and whether some do not resolve. |
| Matrix.IndexCapabilities | backend/internal/artifactpublication/lifecycle.go:245-251 | The same conflict search by member slot. |
| Matrix.CheckCapability | backend/internal/artifactpublication/lifecycle.go:253-293 | The checks of one pinned reference in order. |
| Matrix.RecheckCapabilities | backend/internal/artifactpublication/lifecycle.go:545-572 | The re-check loop over pending or all slots computes the specified result. |
| Validation.CheckPreparePayload | backend/internal/artifactpublication/intents.go:696-781 | The payload loops accept exactly the valid prepare payloads. |
| Validation.CheckPrepareBindings | backend/internal/artifactpublication/in_memory.go:718-760 | The binding loops accept exactly the requests whose slots are staged with matching facts and pinned, with distinct and covered channels. |
| InMemory.PublicationAuthority.constructor | backend/internal/artifactpublication/in_memory.go:220-225 | A new authority is valid and empty. |
| InMemory.PublicationAuthority.Mutate | backend/internal/artifactpublication/in_memory.go:260-327 | The mutation seam takes exactly one step of the state machine on the records in place, keeps every invariant, replaces no record and files only new objects. |
| InMemory.PublicationAuthority.Resubmit | backend/internal/artifactpublication/in_memory.go:289-317 | Replay, conflict or continuation of an operation on file. |
| InMemory.PublicationAuthority.ContinueOperation | backend/internal/artifactpublication/in_memory.go:331-359 | Each continuing intent takes its specified step. |
| InMemory.PublicationAuthority.Prepare | backend/internal/artifactpublication/in_memory.go:548-679 | Prepare, with its guards, mint loops, fault points and persistence order, is the specified step. |
| InMemory.PublicationAuthority.CheckPrepare | backend/internal/artifactpublication/in_memory.go:550-582 | The guards of prepare in order. |
| InMemory.PublicationAuthority.MintVersionID | backend/internal/artifactpublication/in_memory.go:693-701 | The loop terminates with the smallest free counter above the last one. |
| InMemory.PublicationAuthority.MintArtifactID | backend/internal/artifactpublication/in_memory.go:703-712 | The same for artifacts, filing the identity under its Task. |
| InMemory.PublicationAuthority.MintAll | backend/internal/artifactpublication/in_memory.go:595-610 | One identity per specification in the given order. |
| InMemory.PublicationAuthority.Verify | backend/internal/artifactpublication/lifecycle.go:12-91 | Refuse, or record the verdict on the record exactly as decided. |
| InMemory.PublicationAuthority.CheckActivation | backend/internal/artifactpublication/activation.go:30-92 | The guards of activation, the compare-and-swap included, in order. |
| InMemory.PublicationAuthority.Activate | backend/internal/artifactpublication/activation.go:94-117 | Version, stream and operation are committed together, or nothing changes. |
| InMemory.PublicationAuthority.Reject | backend/internal/artifactpublication/lifecycle.go:344-382 | Refuse, or reject and turn the staging into residue. |
| InMemory.PublicationAuthority.Cancel | backend/internal/artifactpublication/lifecycle.go:388-433 | Refuse, return the committed result of an activated operation, or cancel and turn the staging into residue. |
| InMemory.PublicationAuthority.RecordResidueAssembly | backend/internal/artifactpublication/residue_flow.go:21-77 | Refuse, return the recorded debt, or mint one debt for the assembly. |
| InMemory.PublicationAuthority.ResolveCleanupDebt | backend/internal/artifactpublication/residue_flow.go:257-312 | Refuse, or close the debt on evidence or approval. |
| InMemory.PublicationAuthority.ClaimDebt | backend/internal/artifactpublication/residue_flow.go:155-170 | The debt is claimed iff it is open or scheduled; a mismatched one stops the release. |
| InMemory.PublicationAuthority.AttemptRelease | backend/internal/artifactpublication/residue_flow.go:171-238 | One attempt on the release port, with every answer and fault, updates residue and debt as specified. |
| InMemory.PublicationAuthority.ApplyReceiptTo | backend/internal/artifactpublication/residue_flow.go:211-233 | A valid receipt sets disposition, reconciliation, retry schedule and blockers. |
| InMemory.PublicationAuthority.RunRelease | backend/internal/artifactpublication/residue_flow.go:117-238 | The shared release, guard by guard and field by field, is the specified one. |
| InMemory.PublicationAuthority.Reconcile | backend/internal/artifactpublication/lifecycle.go:466-540 | Each reconcile mode declines or answers with the specified operation. |
| InMemory.PublicationAuthority.Recheck | backend/internal/artifactpublication/lifecycle.go:494-508 | Only an operation waiting for reconciliation is re-checked, to failed, verified or ambiguous. |
| InMemory.PublicationAuthority.Conclude | backend/internal/artifactpublication/in_memory.go:667-678 | Journal, audit, then possibly lose the response. |
| InMemory.PublicationAuthority.RecordAudit | backend/internal/artifactpublication/in_memory.go:408-425 | One more fact with the next identity, then best-effort delivery. |
| InMemory.PublicationAuthority.DeliverProjection | backend/internal/artifactpublication/in_memory.go:431-461 | A sink that has accepted a fact is not asked again; refusals only mark the delivery degraded. |
| InMemory.PublicationAuthority.RebuildProjectionDelivery | backend/internal/artifactpublication/projection_backlog.go:160-193 | At most limit undelivered facts of the Task are retried, oldest first; nothing else changes. |
| InMemory.PublicationAuthority.InspectProjectionBacklog | backend/internal/artifactpublication/projection_backlog.go:195-234 | Evidence is the Task's first facts up to the limit, and delivered plus pending is their number. |
| InMemory.PublicationAuthority.ActivatedVersionsForTask | backend/internal/artifactpublication/activation.go:179-189 | Exactly the Task's chain of committed versions, from a store listed in any order. |
| Store.OperationRecord.Decide | backend/internal/artifactpublication/in_memory.go:468-497 | The decision a record renders to. |
| Store.OperationRecord.RecordOutcome | backend/internal/artifactpublication/in_memory.go:387-400 | One more outcome under its kind and digest; everything else as it was. |
| Store.OperationRecord.RecordResidueAttempt | backend/internal/artifactpublication/residue.go:463-480 | The retry bookkeeping of one residue attempt. |
| Store.OperationRecord.RecordDebtAttempt | backend/internal/artifactpublication/residue.go:484-505 | The retry bookkeeping of one debt attempt. |

## Left out

- The relational adapter: SQL, transactions, row codecs and error mapping depend on a database that is not part of this model; its guards were only compared.
- Hashing, HMAC, JSON and Unicode normalisation: abstracted as injective constructors and an arbitrary name normaliser.
- 64-bit counters and sizes: unbounded here; only the decimal formatter and parser model their width.
- Clock: one reading per step, where the code reads it several times within one locked call.
- Record objects: operation records are shared objects updated in place; residue, debt and outcome maps are values owned by their record, since the code never shares them.
- Guards for a record without a candidate: a record enters the journal together with its candidate, so they cannot fire.
- sort.Slice: modelled as a stable sort; wherever a theorem depends on it the keys are distinct.
- Endpoints.Harness.RoundTrip: connection and failure are arguments of one round trip; the queue they are scheduled in is not modelled, and each delivery has its own environment.
- Wire.Reconstruct: a payload of another kind's shape is decoded by an arbitrary function, because which foreign fields the JSON decoder picks up is not modelled; every theorem holds for all such functions.
- Queries over the transport, and the operation, candidate, stream, residue and debt views: read-only lookups that add only easy members.
- Response and signal logs of the harness, diagnostic access faults, schedule hooks, metrics, traces and administrator views.
- Malformed backlog requests are refused by one flag; administrator authority checks on them are not modelled.
- The fault point after the response: it is declared but never injected.
