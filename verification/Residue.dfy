/** The pure residue and cleanup-debt transitions shared by every release flow. */
module ResidueRules {
  import opened Basics
  import opened Facts
  import opened Records

  const CLEANUP_BLOCKER_LIMIT: nat := 32 // five blocker classes, one bit each

  function BackoffSeconds(failures: nat): nat {
    if failures == 0 then 0
    else match (if failures - 1 > 6 then 6 else failures - 1)
         case 0 => 60 case 1 => 120 case 2 => 240 case 3 => 480 case 4 => 960 case 5 => 1920 case _ => 3840
  }

  /** Each further failure doubles the wait, up to 64 minutes. */
  lemma BackoffDoubles(failures: nat)
    requires failures > 0
    ensures BackoffSeconds(failures + 1) == if failures <= 6 then 2 * BackoffSeconds(failures) else 3840
    ensures 60 <= BackoffSeconds(failures) <= BackoffSeconds(failures + 1) <= 3840
  {
  }

  function NextRetry(now: Instant, failures: nat): Instant { now + BackoffSeconds(failures) }

  predicate ClosedByEvidence(d: ResidueDisposition) { d == Released || d == AlreadyAbsent }

  predicate ValidReceipt(r: ReleaseReceipt, durableObject: AuthorityID) {
    && r.id != "" && ValidDigest(r.digest) && r.producer.authority == durableObject
    && r.producer.generation != 0 && !r.outcome.OtherOutcome? && r.blockers < CLEANUP_BLOCKER_LIMIT
    && r.occurredAt != 0 && r.digest == ReceiptDigest(r)
    && (r.outcome == OutcomeBlocked <==> r.blockers != 0)
  }

  function ApplyReceipt(outcome: ReleaseOutcome): ResidueDisposition {
    match outcome
    case OutcomeReleased => Released
    case OutcomeAlreadyAbsent => AlreadyAbsent
    case OutcomeRetained => RetainedResidue
    case OutcomeBlocked => BlockedResidue
    case _ => ReleaseRequested
  }

  predicate ValidResolutionEvidence(e: ResolutionEvidence, durableObject: AuthorityID, debt: Debt) {
    && e.id != "" && ValidDigest(e.digest) && e.producer.authority == durableObject
    && e.producer.generation != 0 && e.occurredAt != 0 && e.digest == ResolutionDigest(e)
    && e.resourceIdentity == debt.identity && e.resourceGeneration == debt.resourceGeneration
    && e.resourceFence == debt.resourceFence
  }

  function ReasonFor(class_: ResolutionClass): ResolutionReason {
    match class_
    case Reclaimed => CleanupProven
    case ResourceAlreadyAbsent => ExactGenerationAbsent
    case RetainedByAuthority => CurrentAuthorityRetention
    case AcceptedException => AdministratorException
    case _ => NoReason
  }

  function ReleaseErrorCategory(code: ErrorCode): ErrorCategory {
    match code
    case OwnershipDenied => AuthorizationDenied
    case IntegrityConflict | IntegrityFailure => IntegrityCategory
    case StaleAuthority => Stale
    case _ => Unavailable
  }

  function ResidueAttempt(r: Residue, category: ErrorCategory, now: Instant): Residue {
    match category
    case Unavailable =>
      r.(attempts := r.attempts + 1, failures := r.failures + 1,
         nextRetryAt := NextRetry(now, r.failures + 1), lastError := category)
    case NoCategory =>
      r.(attempts := r.attempts + 1, failures := 0, nextRetryAt := 0, lastError := category)
    case _ =>
      r.(attempts := r.attempts + 1, failures := r.failures + 1, nextRetryAt := 0, lastError := category)
  }

  /** One debt attempt; every flow bumps the debt revision right after it. */
  function DebtAttempt(d: Debt, category: ErrorCategory, now: Instant): Debt {
    var d1 := d.(attempts := d.attempts + 1, lastAttemptAt := now, lastError := category, revision := d.revision + 1,
                 firstAttemptAt := if d.firstAttemptAt == 0 then now else d.firstAttemptAt);
    match category
    case NoCategory => d1.(failures := 0, nextRetryAt := 0, retry := RetryReady)
    case Unavailable =>
      d1.(failures := d.failures + 1, nextRetryAt := NextRetry(now, d.failures + 1), retry := RetryScheduled)
    case _ => d1.(failures := d.failures + 1, nextRetryAt := 0, retry := RetryBlocked)
  }
}
