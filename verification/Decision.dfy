/** The decision store's tables, and each audited command as a function on them.

    A transaction either commits its whole effect or leaves every table alone, so
    a command is `Step(db, c)`: its static checks, its row lock, the audit lookup
    that makes it idempotent, its guards in the order the store evaluates them,
    and only then its effect. */
module Decision {
  import opened Basics
  import opened Commands
  import F = Fingerprints
  import Refs

  // ------------------------------------------------------------------ rows

  datatype CampaignState = CampaignRunning | CampaignCompleted | CampaignFailed | CampaignCancelled
  datatype CostState = CostKnown | CostUnknown | CostExceeded
  datatype TicketState = Proposed | Sponsored | InFlight | TicketDelivered | Blocked | Resolved | TicketRejected
  datatype Stage =
    | Engineering | HardValidation | Quality | AwaitingArchitect
    | ReworkEngineering | ReworkValidation | ReworkQuality
    | AttemptDelivered | AttemptFailed | AttemptCancelled
  datatype CandidateState = Submitted | Validated | Rejected | Accepted | Delivered
  datatype SessionState = SessionRunning | SessionSucceeded | SessionOther
  datatype Office = ProductOffice | EngineeringOffice | QualityOffice

  datatype CampaignRow = CampaignRow(
    build: int, lifecycle: CampaignState, revision: nat, target: int, costState: CostState, cost: nat)
  datatype TicketRow = TicketRow(lifecycle: TicketState, revision: nat, current: int)
  datatype TicketRevisionRow = TicketRevisionRow(
    ticket: int, application: int, reproducer: int, lifecycle: TicketState, revision: nat,
    expectedObservation: int, discoveryObservation: int)
  datatype AttemptRow = AttemptRow(
    ticketRevision: int, campaign: int, claimedCommit: string, claimedTree: string, stage: Stage,
    candidateOrdinal: nat, reworkOrdinal: nat, released: bool, revision: nat)
  datatype CandidateRow = CandidateRow(
    attempt: int, baseCommit: string, baseTree: string, regressionTree: string, candidateTree: string,
    session: int, commit: Option<string>, ref: Option<string>, lifecycle: CandidateState, revision: nat)
  datatype ValidationRow = ValidationRow(
    candidate: int, build: int, session: int, scope: Scope, pristineTree: string, outcome: Outcome)
  datatype ReviewRow = ReviewRow(candidate: int, session: int, validation: int, verdict: Verdict)
  datatype DecisionRow =
    | SponsorDecision(ticketRevision: int)
    | ReleaseDecision(attempt: int)
    | CandidateDecision(choice: Choice, candidate: int, review: int, overrides: bool)
  datatype DeliveryRow = DeliveryRow(
    candidate: int, candidateCommit: string, oldCommit: string, resultingCommit: string,
    resultingTree: string, cost: nat)
  datatype SessionRow = SessionRow(campaign: int, office: Office, lifecycle: SessionState)
  datatype ArtifactRow = ArtifactRow(digest: string, byteLength: nat)
  datatype Subject = CandidateSubject | ValidationSubject | ReviewSubject | DecisionSubject | DeliverySubject | OtherSubject
  datatype AuditRow = AuditRow(
    id: int, operation: string, fingerprint: string, subject: Subject, subjectId: int, resultingRevision: nat)

  /** `nextId` stands for the identity columns: it is above every id in use. */
  datatype Db = Db(
    campaigns: map<int, CampaignRow>, tickets: map<int, TicketRow>, ticketRevisions: map<int, TicketRevisionRow>,
    attempts: map<int, AttemptRow>, candidates: map<int, CandidateRow>, validations: map<int, ValidationRow>,
    reviews: map<int, ReviewRow>, decisions: map<int, DecisionRow>, deliveries: map<int, DeliveryRow>,
    sessions: map<int, SessionRow>, artifacts: map<int, ArtifactRow>, builds: map<string, int>,
    audit: map<(string, string), AuditRow>, nextId: int)

  datatype Error =
    | InvalidCommandIdentity | ContractViolation | CorruptState | CorruptDecision | ConstraintViolation
    | IntegerOutOfRange | IdempotencyConflict | RevisionConflict
    | UnknownCandidate | UnknownTicketAttempt | UnknownValidation | UnknownReview
    | CandidateStateConflict | TicketStateConflict | AttemptStageConflict
    | CandidateBaseChanged | ValidationTreeChanged | ValidationAlreadyRecorded | ReviewAlreadySubmitted
    | CandidateCommitMissing | CandidateCommitAlreadyAttached | HardValidationMissing
    | QualityValidationNotPassed | ReviewCandidateMismatch | QualityRejectionOverrideRequired
    | QualityRejectionOverrideForbidden | ReworkLimitReached | AttemptNotReleasable
    | ArtifactReferenceMismatch | ValidationBuildMismatch | SessionJurisdictionMismatch | InvalidCandidateRef
    | DeliveryReceiptMismatch | ArchitectDeliveryDecisionMissing | CampaignNotRunning | CampaignCostNotKnown
    | DeliveryFactoryCostMismatch | PaidSessionStillRunning

  datatype ReleaseOutcome = Released | ReleaseResolved | ReleaseBlocked

  datatype Receipt =
    | CandidateReceipt(candidate: int, state: CandidateState, candidateRevision: nat, audit: int, retry: bool)
    | ValidationReceipt(validation: int, candidate: int, outcome: Outcome, state: CandidateState,
                        candidateRevision: nat, attemptRevision: nat, audit: int, retry: bool)
    | ReviewReceipt(review: int, candidate: int, verdict: Verdict, candidateRevision: nat, attemptRevision: nat,
                    audit: int, retry: bool)
    | SponsorReceipt(decision: int, ticketRevisionId: int, ticketRevision: nat, audit: int, retry: bool)
    | ReleaseReceipt(decision: int, attempt: int, released: ReleaseOutcome, attemptRevision: nat,
                     ticketRevision: nat, audit: int, retry: bool)
    | DecisionReceipt(decision: int, choice: Choice, candidate: int, state: CandidateState, candidateRevision: nat,
                      attemptRevision: nat, ticketRevision: nat, audit: int, retry: bool)
    | DeliveryReceipt(delivery: int, candidate: int, cost: nat, candidateRevision: nat, attemptRevision: nat,
                      ticketRevision: nat, campaignRevision: nat, completed: bool, audit: int, retry: bool)

  type Answer = Result<Receipt, Error>

  // --------------------------------------------------------- static checks

  predicate Bounded(a: F.Artifact, maximum: nat, allowEmpty: bool) {
    a.byteLength <= maximum && (allowEmpty || a.byteLength > 0)
  }

  predicate NoNul(s: string) { forall i :: 0 <= i < |s| ==> s[i] != 0 as char }

  predicate OneLine(s: string) { forall i :: 0 <= i < |s| ==> s[i] != '\n' && s[i] != '\r' }

  predicate IsArchitectPrincipal(s: string) { 0 < |s| <= 160 && NoNul(s) }

  predicate IsObjectHex(s: string) {
    (|s| == 40 || |s| == 64) && forall i :: 0 <= i < |s| ==> IsLowerHex(s[i])
  }

  predicate SubmissionBounded(c: Command)
    requires c.SubmitCandidate?
  {
    && 0 < |c.commitSubject| <= 120 && NoNul(c.commitSubject) && OneLine(c.commitSubject)
    && |c.commitBody| <= 8192 && NoNul(c.commitBody)
    && 0 < |c.regressionIdentity| <= 4096 && NoNul(c.regressionIdentity)
    && Bounded(c.changedPaths, 0x4_0000, false) && Bounded(c.regressionPatch, 0x100_0000, true)
    && Bounded(c.regressionCommandSet, 0x4_0000, false) && Bounded(c.regressionLog, 0x100_0000, true)
    && Bounded(c.candidatePatch, 0x100_0000, false) && Bounded(c.engineeringReport, 0x2_0000, false)
    && Bounded(c.engineeringRisks, 0x1_0000, false)
  }

  predicate ReviewBounded(c: Command)
    requires c.SubmitQualityReview?
  {
    Bounded(c.rationale, 0x2_0000, false) && Bounded(c.risks, 0x1_0000, false) && Bounded(c.probes, 0x2_0000, false)
  }

  /** What is refused before a transaction is opened. */
  function StaticError(c: Command): Option<Error> {
    if c.SubmitCandidate? then
      if !IsAuditIdentity(c.principal) || !IsAuditIdentity(c.commandId) then Some(InvalidCommandIdentity)
      else if !SubmissionBounded(c) then Some(ContractViolation) else None
    else if c.RecordValidation? then
      if !IsAuditIdentity(c.principal) || !IsAuditIdentity(c.commandId) then Some(InvalidCommandIdentity)
      else if c.profile == "" || |c.profile| > 160 || !NoNul(c.profile) || c.durationMillis >= TWO63 then Some(CorruptState)
      else if !Bounded(c.commandSet, 0x4_0000, false) || !Bounded(c.log, 0x100_0000, true) then Some(ContractViolation)
      else None
    else if c.AttachCandidateCommit? then
      if !IsAuditIdentity(c.principal) || !IsAuditIdentity(c.commandId) then Some(InvalidCommandIdentity)
      else if !Refs.IsCandidateRef(c.candidateRef) then Some(InvalidCandidateRef) else None
    else if c.SubmitQualityReview? then
      if !IsAuditIdentity(c.principal) || !IsAuditIdentity(c.commandId) then Some(InvalidCommandIdentity)
      else if !ReviewBounded(c) then Some(ContractViolation) else None
    else if c.SponsorTicket? then
      if !Bounded(c.rationale, 0x2_0000, false) then Some(ContractViolation)
      else if !IsArchitectPrincipal(c.principal) || !IsAuditIdentity(c.commandId) then Some(InvalidCommandIdentity)
      else None
    else if c.ReleaseTicketAttempt? then
      if !Bounded(c.rationale, 0x2_0000, false) then Some(ContractViolation)
      else if !IsArchitectPrincipal(c.principal) || !IsAuditIdentity(c.commandId) then Some(InvalidCommandIdentity)
      else if !IsObjectHex(c.headCommit) || !IsObjectHex(c.headTree) then Some(CorruptState)
      else None
    else if c.DecideCandidate? then
      if !Bounded(c.rationale, 0x2_0000, false) then Some(ContractViolation)
      else if c.overrideReview.Some? && !c.choice.Deliver? then Some(ContractViolation)
      else if !IsArchitectPrincipal(c.principal) || !IsAuditIdentity(c.commandId) then Some(InvalidCommandIdentity)
      else None
    else
      if !IsAuditIdentity(c.principal) || !IsAuditIdentity(c.commandId) then Some(InvalidCommandIdentity)
      else if !Bounded(c.receipt, 0x100_0000, false) then Some(ContractViolation) else None
  }

  /** The `SELECT … FOR UPDATE` that precedes the audit lookup. */
  function LockError(db: Db, c: Command): Option<Error> {
    if c.SubmitCandidate? then
      if c.attempt in db.attempts then None else Some(UnknownTicketAttempt)
    else if c.ReleaseTicketAttempt? then
      if c.attempt in db.attempts then None else Some(UnknownTicketAttempt)
    else if c.SponsorTicket? then
      if c.ticketRevision in db.ticketRevisions then None else Some(CorruptState)
    else if c.RecordValidation? then
      if c.candidate in db.candidates then None else Some(UnknownCandidate)
    else if c.AttachCandidateCommit? then
      if c.candidate in db.candidates then None else Some(UnknownCandidate)
    else if c.SubmitQualityReview? then
      if c.candidate in db.candidates then None else Some(UnknownCandidate)
    else if c.DecideCandidate? then
      if c.candidate in db.candidates then None else Some(UnknownCandidate)
    else
      if c.candidate in db.candidates then None else Some(UnknownCandidate)
  }

  function AuditKey(c: Command): (string, string) { (c.principal, c.commandId) }

  // ------------------------------------------------------- shared lookups

  datatype AttemptView = AttemptView(row: AttemptRow, ticketId: int, ticket: TicketRevisionRow, campaign: CampaignRow)

  /** The row pair of a ticket and its revision, unless they disagree. */
  predicate TicketAgrees(db: Db, revisionId: int) {
    && revisionId in db.ticketRevisions
    && var revision := db.ticketRevisions[revisionId];
       && revision.ticket in db.tickets
       && var ticket := db.tickets[revision.ticket];
          ticket.current == revisionId && ticket.lifecycle == revision.lifecycle && ticket.revision == revision.revision
  }

  /** `lock_candidate_attempt`: the four-way join and its corruption check. */
  function LoadAttempt(db: Db, attemptId: int): Result<AttemptView, Error> {
    if attemptId !in db.attempts then Err(UnknownTicketAttempt)
    else
      var row := db.attempts[attemptId];
      if row.campaign !in db.campaigns || row.ticketRevision !in db.ticketRevisions
         || db.ticketRevisions[row.ticketRevision].ticket !in db.tickets then Err(UnknownTicketAttempt)
      else if !TicketAgrees(db, row.ticketRevision) then Err(CorruptState)
      else
        var ticket := db.ticketRevisions[row.ticketRevision];
        Ok(AttemptView(row, ticket.ticket, ticket, db.campaigns[row.campaign]))
  }

  predicate HasArtifact(db: Db, a: F.Artifact) {
    && a.id in db.artifacts
    && db.artifacts[a.id].digest == a.digest && db.artifacts[a.id].byteLength == a.byteLength
  }

  predicate HasJurisdiction(db: Db, session: int, campaign: int, office: Office) {
    session in db.sessions && db.sessions[session].campaign == campaign && db.sessions[session].office == office
  }

  predicate ViableSession(db: Db, session: int, campaign: int, office: Office) {
    HasJurisdiction(db, session, campaign, office) && !db.sessions[session].lifecycle.SessionOther?
  }

  predicate HasScope(db: Db, candidate: int, scope: Scope) {
    exists v :: v in db.validations && db.validations[v].candidate == candidate && db.validations[v].scope == scope
  }

  predicate HasPassed(db: Db, candidate: int, scope: Scope) {
    exists v :: v in db.validations && db.validations[v].candidate == candidate && db.validations[v].scope == scope
                && db.validations[v].outcome == Passed
  }

  predicate HasReview(db: Db, candidate: int) {
    exists r :: r in db.reviews && db.reviews[r].candidate == candidate
  }

  predicate HasDeliverDecision(db: Db, candidate: int) {
    exists d :: d in db.decisions && db.decisions[d].CandidateDecision? && db.decisions[d].candidate == candidate
                && db.decisions[d].choice == Deliver
  }

  predicate HasDelivery(db: Db, candidate: int) {
    exists d :: d in db.deliveries && db.deliveries[d].candidate == candidate
  }

  predicate PaidSessionActive(db: Db) {
    exists s :: s in db.sessions && db.sessions[s].lifecycle == SessionRunning
  }

  function DeliveredAttempts(db: Db, campaign: int): set<int> {
    set a | a in db.attempts && db.attempts[a].campaign == campaign && db.attempts[a].stage == AttemptDelivered
  }

  /** `next()` followed by the `BIGINT` conversion. */
  predicate Exhausted(revision: nat) { revision + 1 >= TWO63 }

  // ---------------------------------------------------------------- guards

  function SubmitGuard(db: Db, c: Command): Option<Error>
    requires c.SubmitCandidate?
  {
    match LoadAttempt(db, c.attempt)
    case Err(e) => Some(e)
    case Ok(a) =>
      if c.expectedAttempt != a.row.revision then Some(RevisionConflict)
      else if c.expectedTicket != a.ticket.revision then Some(RevisionConflict)
      else if a.ticket.lifecycle != InFlight then Some(TicketStateConflict)
      else if a.row.stage != Engineering && a.row.stage != ReworkEngineering then Some(AttemptStageConflict)
      else if c.baseCommit != a.row.claimedCommit || c.baseTree != a.row.claimedTree then Some(CandidateBaseChanged)
      else if !SubmissionArtifacts(db, c) then Some(ArtifactReferenceMismatch)
      else if !ViableSession(db, c.session, a.row.campaign, EngineeringOffice) then Some(SessionJurisdictionMismatch)
      else if a.row.candidateOrdinal + 1 >= 0x8000_0000 || Exhausted(a.row.revision) then Some(IntegerOutOfRange)
      else if CandidateConstraintViolated(db, c) then Some(ConstraintViolation)
      else None
  }

  predicate SubmissionArtifacts(db: Db, c: Command)
    requires c.SubmitCandidate?
  {
    && HasArtifact(db, c.changedPaths) && HasArtifact(db, c.regressionPatch) && HasArtifact(db, c.regressionCommandSet)
    && HasArtifact(db, c.regressionLog) && HasArtifact(db, c.candidatePatch) && HasArtifact(db, c.engineeringReport)
    && HasArtifact(db, c.engineeringRisks)
  }

  /** The unique and check constraints on `factory.candidates`. */
  predicate CandidateConstraintViolated(db: Db, c: Command)
    requires c.SubmitCandidate?
  {
    || c.baseTree == c.candidateTree || c.regressionTree == c.candidateTree
    || exists k :: k in db.candidates
         && (db.candidates[k].session == c.session
             || (db.candidates[k].attempt == c.attempt && db.candidates[k].candidateTree == c.candidateTree))
  }

  function RequiredState(scope: Scope): CandidateState {
    if scope.HardCandidate? then Submitted else Validated
  }

  predicate StageOfScope(stage: Stage, scope: Scope) {
    match scope
    case HardCandidate => stage == HardValidation || stage == ReworkValidation
    case QualityFullSuite => stage == Quality || stage == ReworkQuality
  }

  function OfficeOfScope(scope: Scope): Office {
    if scope.HardCandidate? then EngineeringOffice else QualityOffice
  }

  function ValidationGuard(db: Db, c: Command): Option<Error>
    requires c.RecordValidation? && c.candidate in db.candidates
  {
    var candidate := db.candidates[c.candidate];
    if c.expectedCandidate != candidate.revision then Some(RevisionConflict)
    else match LoadAttempt(db, candidate.attempt)
      case Err(e) => Some(e)
      case Ok(a) =>
        if c.expectedAttempt != a.row.revision then Some(RevisionConflict)
        else if a.ticket.lifecycle != InFlight then Some(TicketStateConflict)
        else if candidate.lifecycle != RequiredState(c.scope) then Some(CandidateStateConflict)
        else if !StageOfScope(a.row.stage, c.scope) then Some(AttemptStageConflict)
        else if c.pristineTree != candidate.candidateTree then Some(ValidationTreeChanged)
        else if c.build !in db.builds || db.builds[c.build] != a.campaign.build then Some(ValidationBuildMismatch)
        else if !ViableSession(db, c.session, a.row.campaign, OfficeOfScope(c.scope)) then Some(SessionJurisdictionMismatch)
        else if !HasArtifact(db, c.commandSet) || !HasArtifact(db, c.log) then Some(ArtifactReferenceMismatch)
        else if HasScope(db, c.candidate, c.scope) then Some(ValidationAlreadyRecorded)
        else if Exhausted(candidate.revision) || Exhausted(a.row.revision) then Some(IntegerOutOfRange)
        else None
  }

  function AttachGuard(db: Db, c: Command): Option<Error>
    requires c.AttachCandidateCommit? && c.candidate in db.candidates
  {
    var candidate := db.candidates[c.candidate];
    if c.expectedCandidate != candidate.revision then Some(RevisionConflict)
    else if candidate.lifecycle != Validated then Some(CandidateStateConflict)
    else if candidate.commit.Some? then Some(CandidateCommitAlreadyAttached)
    else if !HasPassed(db, c.candidate, HardCandidate) then Some(HardValidationMissing)
    else match LoadAttempt(db, candidate.attempt)
      case Err(e) => Some(e)
      case Ok(a) =>
        if a.ticketId < 0 || !Refs.NamesCandidate(c.candidateRef, a.ticketId, c.candidate) then Some(InvalidCandidateRef)
        else if Exhausted(candidate.revision) then Some(IntegerOutOfRange)
        else None
  }

  function ReviewGuard(db: Db, c: Command): Option<Error>
    requires c.SubmitQualityReview? && c.candidate in db.candidates
  {
    var candidate := db.candidates[c.candidate];
    if c.expectedCandidate != candidate.revision then Some(RevisionConflict)
    else if candidate.lifecycle != Validated then Some(CandidateStateConflict)
    else if candidate.commit.None? then Some(CandidateCommitMissing)
    else match LoadAttempt(db, candidate.attempt)
      case Err(e) => Some(e)
      case Ok(a) =>
        if c.expectedAttempt != a.row.revision then Some(RevisionConflict)
        else if a.row.stage != AwaitingArchitect then Some(AttemptStageConflict)
        else match QualityEvidenceError(db, c, candidate, a)
          case Some(e) => Some(e)
          case None =>
            if !ViableSession(db, c.session, a.row.campaign, QualityOffice) then Some(SessionJurisdictionMismatch)
            else if !HasArtifact(db, c.rationale) || !HasArtifact(db, c.risks) || !HasArtifact(db, c.probes)
            then Some(ArtifactReferenceMismatch)
            else if HasReview(db, c.candidate) then Some(ReviewAlreadySubmitted)
            else if ReviewConstraintViolated(db, c) then Some(ConstraintViolation)
            else if Exhausted(candidate.revision) || Exhausted(a.row.revision) then Some(IntegerOutOfRange)
            else None
  }

  /** The checks on the full-suite validation a review cites. */
  function QualityEvidenceError(db: Db, c: Command, candidate: CandidateRow, a: AttemptView): Option<Error>
    requires c.SubmitQualityReview?
  {
    if c.validation !in db.validations || db.validations[c.validation].candidate != c.candidate
       || db.validations[c.validation].scope != QualityFullSuite then Some(UnknownValidation)
    else
      var v := db.validations[c.validation];
      if v.outcome != Passed then Some(QualityValidationNotPassed)
      else if v.pristineTree != candidate.candidateTree then Some(ValidationTreeChanged)
      else if v.build != a.campaign.build then Some(ValidationBuildMismatch)
      else if !HasJurisdiction(db, v.session, a.row.campaign, QualityOffice) then Some(SessionJurisdictionMismatch)
      else None
  }

  predicate ReviewConstraintViolated(db: Db, c: Command)
    requires c.SubmitQualityReview?
  {
    exists r :: r in db.reviews && (db.reviews[r].session == c.session || db.reviews[r].validation == c.validation)
  }

  function SponsorGuard(db: Db, c: Command): Option<Error>
    requires c.SponsorTicket? && c.ticketRevision in db.ticketRevisions
  {
    if !TicketAgrees(db, c.ticketRevision) then Some(CorruptState)
    else
      var ticket := db.ticketRevisions[c.ticketRevision];
      if c.expectedTicket != ticket.revision then Some(RevisionConflict)
      else if ticket.lifecycle != Proposed && ticket.lifecycle != Blocked then Some(TicketStateConflict)
      else if !HasArtifact(db, c.rationale) then Some(ArtifactReferenceMismatch)
      else if Exhausted(ticket.revision) then Some(IntegerOutOfRange)
      else if LiveReproducerTaken(db, c.ticketRevision) then Some(ConstraintViolation)
      else None
  }

  /** The partial unique index over unblocked ticket revisions. */
  predicate LiveReproducerTaken(db: Db, revisionId: int)
    requires revisionId in db.ticketRevisions
  {
    exists r :: r in db.ticketRevisions && r != revisionId && db.ticketRevisions[r].lifecycle != Blocked
      && db.ticketRevisions[r].application == db.ticketRevisions[revisionId].application
      && db.ticketRevisions[r].reproducer == db.ticketRevisions[revisionId].reproducer
  }

  function ReleaseGuard(db: Db, c: Command): Option<Error>
    requires c.ReleaseTicketAttempt?
  {
    match LoadAttempt(db, c.attempt)
    case Err(e) => Some(e)
    case Ok(a) =>
      if c.expectedAttempt != a.row.revision then Some(RevisionConflict)
      else if c.expectedTicket != a.ticket.revision then Some(RevisionConflict)
      else if a.ticket.lifecycle != InFlight then Some(TicketStateConflict)
      else if a.row.released || (a.row.stage != AttemptFailed && a.row.stage != AttemptCancelled) then Some(AttemptNotReleasable)
      else if !HasArtifact(db, c.rationale) then Some(ArtifactReferenceMismatch)
      else if !ObservationsRegistered(db, c, a) then Some(ArtifactReferenceMismatch)
      else if Exhausted(a.row.revision) || Exhausted(a.ticket.revision) then Some(IntegerOutOfRange)
      else None
  }

  predicate ObservationsRegistered(db: Db, c: Command, a: AttemptView)
    requires c.ReleaseTicketAttempt?
  {
    && a.ticket.expectedObservation in db.artifacts && a.ticket.discoveryObservation in db.artifacts
    && c.firstObservation in db.artifacts && c.secondObservation in db.artifacts
  }

  /** `classify_requalification`, followed by the release's own mapping. */
  function Classify(db: Db, c: Command, a: AttemptView): (ReleaseOutcome, TicketState)
    requires c.ReleaseTicketAttempt? && ObservationsRegistered(db, c, a)
  {
    var first := db.artifacts[c.firstObservation].digest;
    if first != db.artifacts[c.secondObservation].digest then (ReleaseBlocked, Blocked)
    else if first == db.artifacts[a.ticket.expectedObservation].digest then (ReleaseResolved, Resolved)
    else if first == db.artifacts[a.ticket.discoveryObservation].digest then (Released, Sponsored)
    else (ReleaseBlocked, Blocked)
  }

  function DecideGuard(db: Db, c: Command): Option<Error>
    requires c.DecideCandidate? && c.candidate in db.candidates
  {
    var candidate := db.candidates[c.candidate];
    if c.expectedCandidate != candidate.revision then Some(RevisionConflict)
    else if candidate.lifecycle != Validated then Some(CandidateStateConflict)
    else if candidate.commit.None? then Some(CandidateCommitMissing)
    else match LoadAttempt(db, candidate.attempt)
      case Err(e) => Some(e)
      case Ok(a) =>
        if c.expectedAttempt != a.row.revision then Some(RevisionConflict)
        else if c.expectedTicket != a.ticket.revision then Some(RevisionConflict)
        else if a.ticket.lifecycle != InFlight then Some(TicketStateConflict)
        else if a.row.stage != AwaitingArchitect then Some(AttemptStageConflict)
        else if !HasPassed(db, c.candidate, HardCandidate) then Some(HardValidationMissing)
        else if !HasPassed(db, c.candidate, QualityFullSuite) then Some(QualityValidationNotPassed)
        else if c.review !in db.reviews then Some(UnknownReview)
        else if db.reviews[c.review].candidate != c.candidate then Some(ReviewCandidateMismatch)
        else if !HasArtifact(db, c.rationale) then Some(ArtifactReferenceMismatch)
        else ChoiceError(db, c, candidate, a)
  }

  /** The override, rework and schema checks on the choice itself. The last one is
      the table constraint that only a Deliver row may carry the override flag. */
  function ChoiceError(db: Db, c: Command, candidate: CandidateRow, a: AttemptView): Option<Error>
    requires c.DecideCandidate? && c.review in db.reviews
  {
    var rejected := db.reviews[c.review].verdict == RejectReview;
    if c.choice == Deliver && rejected != (c.overrideReview == Some(c.review)) then Some(QualityRejectionOverrideRequired)
    else if c.choice != Deliver && c.overrideReview.Some? then Some(QualityRejectionOverrideForbidden)
    else if c.choice == Rework && a.row.reworkOrdinal != 0 then Some(ReworkLimitReached)
    else if rejected && c.choice != Deliver then Some(ConstraintViolation)
    else if Exhausted(candidate.revision) || Exhausted(a.row.revision) then Some(IntegerOutOfRange)
    else if c.choice == Reject && Exhausted(a.ticket.revision) then Some(IntegerOutOfRange)
    else None
  }

  function DeliveryGuard(db: Db, c: Command): Option<Error>
    requires c.RecordDelivery? && c.candidate in db.candidates
  {
    var candidate := db.candidates[c.candidate];
    if c.expectedCandidate != candidate.revision then Some(RevisionConflict)
    else if candidate.lifecycle != Accepted then Some(CandidateStateConflict)
    else if candidate.commit.None? then Some(CandidateCommitMissing)
    else if candidate.commit.value != c.candidateCommit || candidate.baseCommit != c.expectedOldCommit
            || candidate.candidateTree != c.resultingTree then Some(DeliveryReceiptMismatch)
    else match LoadAttempt(db, candidate.attempt)
      case Err(e) => Some(e)
      case Ok(a) =>
        if c.expectedAttempt != a.row.revision then Some(RevisionConflict)
        else if c.expectedTicket != a.ticket.revision then Some(RevisionConflict)
        else if a.ticket.lifecycle != InFlight then Some(TicketStateConflict)
        else if a.row.stage != AwaitingArchitect then Some(AttemptStageConflict)
        else if !HasDeliverDecision(db, c.candidate) then Some(ArchitectDeliveryDecisionMissing)
        else if !HasArtifact(db, c.receipt) then Some(ArtifactReferenceMismatch)
        else CampaignError(db, c, candidate, a)
  }

  function CampaignError(db: Db, c: Command, candidate: CandidateRow, a: AttemptView): Option<Error>
    requires c.RecordDelivery?
  {
    if c.expectedCampaign != a.campaign.revision then Some(RevisionConflict)
    else if a.campaign.lifecycle != CampaignRunning then Some(CampaignNotRunning)
    else if a.campaign.costState != CostKnown then Some(CampaignCostNotKnown)
    else if c.factoryCost != a.campaign.cost then Some(DeliveryFactoryCostMismatch)
    else if PaidSessionActive(db) then Some(PaidSessionStillRunning)
    else if Exhausted(candidate.revision) || Exhausted(a.row.revision) || Exhausted(a.ticket.revision)
            || (Completes(db, a) && Exhausted(a.campaign.revision)) || c.factoryCost >= TWO63 then Some(IntegerOutOfRange)
    else if HasDelivery(db, c.candidate) then Some(ConstraintViolation)
    else None
  }

  predicate Completes(db: Db, a: AttemptView) {
    |DeliveredAttempts(db, a.row.campaign)| + 1 >= a.campaign.target
  }

  function Guard(db: Db, c: Command): Option<Error>
    requires LockError(db, c).None?
  {
    if c.SubmitCandidate? then SubmitGuard(db, c)
    else if c.RecordValidation? then ValidationGuard(db, c)
    else if c.AttachCandidateCommit? then AttachGuard(db, c)
    else if c.SubmitQualityReview? then ReviewGuard(db, c)
    else if c.SponsorTicket? then SponsorGuard(db, c)
    else if c.ReleaseTicketAttempt? then ReleaseGuard(db, c)
    else if c.DecideCandidate? then DecideGuard(db, c)
    else DeliveryGuard(db, c)
  }

  // --------------------------------------------------------------- effects

  function Receipted(db: Db, c: Command, subject: Subject, subjectId: int, revision: nat)
    : map<(string, string), AuditRow>
  {
    db.audit[AuditKey(c) := AuditRow(db.nextId + 1, Operation(c), Fingerprint(c), subject, subjectId, revision)]
  }

  function SubmitEffect(db: Db, c: Command): (Db, Receipt)
    requires c.SubmitCandidate? && c.attempt in db.attempts
  {
    var id := db.nextId;
    var a := db.attempts[c.attempt];
    var stage := if a.stage == Engineering then HardValidation else ReworkValidation;
    var row := CandidateRow(c.attempt, c.baseCommit, c.baseTree, c.regressionTree, c.candidateTree, c.session,
                            None, None, Submitted, 0);
    (db.(candidates := db.candidates[id := row],
         attempts := db.attempts[c.attempt := a.(candidateOrdinal := a.candidateOrdinal + 1, stage := stage,
                                                 revision := a.revision + 1)],
         audit := Receipted(db, c, CandidateSubject, id, 0),
         nextId := id + 2),
     CandidateReceipt(id, Submitted, 0, id + 1, false))
  }

  function StageAfterValidation(stage: Stage, scope: Scope, outcome: Outcome): Stage {
    if outcome != Passed then AttemptFailed
    else if scope == QualityFullSuite then AwaitingArchitect
    else if stage == HardValidation then Quality
    else ReworkQuality
  }

  function ValidationEffect(db: Db, c: Command): (Db, Receipt)
    requires c.RecordValidation? && c.candidate in db.candidates && db.candidates[c.candidate].attempt in db.attempts
    requires c.build in db.builds
  {
    var id := db.nextId;
    var k := db.candidates[c.candidate];
    var a := db.attempts[k.attempt];
    var state := if c.outcome == Passed then Validated else Rejected;
    (db.(validations := db.validations[id := ValidationRow(c.candidate, db.builds[c.build], c.session, c.scope,
                                                           c.pristineTree, c.outcome)],
         candidates := db.candidates[c.candidate := k.(lifecycle := state, revision := k.revision + 1)],
         attempts := db.attempts[k.attempt := a.(stage := StageAfterValidation(a.stage, c.scope, c.outcome),
                                                 revision := a.revision + 1)],
         audit := Receipted(db, c, ValidationSubject, id, k.revision + 1),
         nextId := id + 2),
     ValidationReceipt(id, c.candidate, c.outcome, state, k.revision + 1, a.revision + 1, id + 1, false))
  }

  function AttachEffect(db: Db, c: Command): (Db, Receipt)
    requires c.AttachCandidateCommit? && c.candidate in db.candidates
  {
    var k := db.candidates[c.candidate];
    (db.(candidates := db.candidates[c.candidate := k.(commit := Some(c.candidateCommit), ref := Some(c.candidateRef),
                                                       revision := k.revision + 1)],
         audit := Receipted(db, c, CandidateSubject, c.candidate, k.revision + 1),
         nextId := db.nextId + 2),
     CandidateReceipt(c.candidate, Validated, k.revision + 1, db.nextId + 1, false))
  }

  function ReviewEffect(db: Db, c: Command): (Db, Receipt)
    requires c.SubmitQualityReview? && c.candidate in db.candidates && db.candidates[c.candidate].attempt in db.attempts
  {
    var id := db.nextId;
    var k := db.candidates[c.candidate];
    var a := db.attempts[k.attempt];
    (db.(reviews := db.reviews[id := ReviewRow(c.candidate, c.session, c.validation, c.verdict)],
         candidates := db.candidates[c.candidate := k.(revision := k.revision + 1)],
         attempts := db.attempts[k.attempt := a.(stage := AwaitingArchitect, revision := a.revision + 1)],
         audit := Receipted(db, c, ReviewSubject, id, k.revision + 1),
         nextId := id + 2),
     ReviewReceipt(id, c.candidate, c.verdict, k.revision + 1, a.revision + 1, id + 1, false))
  }

  /** `update_ticket_state_parts`: the revision row and its ticket move together. */
  function WithTicket(db: Db, revisionId: int, state: TicketState): Db
    requires revisionId in db.ticketRevisions && db.ticketRevisions[revisionId].ticket in db.tickets
  {
    var r := db.ticketRevisions[revisionId];
    var t := db.tickets[r.ticket];
    db.(ticketRevisions := db.ticketRevisions[revisionId := r.(lifecycle := state, revision := r.revision + 1)],
        tickets := db.tickets[r.ticket := t.(lifecycle := state, revision := r.revision + 1)])
  }

  function SponsorEffect(db: Db, c: Command): (Db, Receipt)
    requires c.SponsorTicket? && c.ticketRevision in db.ticketRevisions
    requires db.ticketRevisions[c.ticketRevision].ticket in db.tickets
  {
    var id := db.nextId;
    var next := db.ticketRevisions[c.ticketRevision].revision + 1;
    (WithTicket(db, c.ticketRevision, Sponsored)
       .(decisions := db.decisions[id := SponsorDecision(c.ticketRevision)],
         audit := Receipted(db, c, DecisionSubject, id, next),
         nextId := id + 2),
     SponsorReceipt(id, c.ticketRevision, next, id + 1, false))
  }

  function ReleaseEffect(db: Db, c: Command): (Db, Receipt)
    requires c.ReleaseTicketAttempt? && LoadAttempt(db, c.attempt).Ok?
    requires ObservationsRegistered(db, c, LoadAttempt(db, c.attempt).value)
  {
    var id := db.nextId;
    var a := LoadAttempt(db, c.attempt).value;
    var (outcome, state) := Classify(db, c, a);
    (WithTicket(db, a.row.ticketRevision, state)
       .(decisions := db.decisions[id := ReleaseDecision(c.attempt)],
         attempts := db.attempts[c.attempt := a.row.(released := true, revision := a.row.revision + 1)],
         audit := Receipted(db, c, DecisionSubject, id, a.row.revision + 1),
         nextId := id + 2),
     ReleaseReceipt(id, c.attempt, outcome, a.row.revision + 1, a.ticket.revision + 1, id + 1, false))
  }

  function StateAfterChoice(choice: Choice): CandidateState {
    if choice == Deliver then Accepted else Rejected
  }

  function StageAfterChoice(choice: Choice): Stage {
    match choice case Deliver => AwaitingArchitect case Rework => ReworkEngineering case Reject => AttemptFailed
  }

  function DecideEffect(db: Db, c: Command): (Db, Receipt)
    requires c.DecideCandidate? && c.candidate in db.candidates && c.review in db.reviews
    requires LoadAttempt(db, db.candidates[c.candidate].attempt).Ok?
  {
    var id := db.nextId;
    var k := db.candidates[c.candidate];
    var a := LoadAttempt(db, k.attempt).value;
    var rework := if c.choice == Rework then 1 else 0;
    var ticketed := if c.choice == Reject then WithTicket(db, a.row.ticketRevision, TicketRejected) else db;
    (ticketed
       .(decisions := db.decisions[id := CandidateDecision(c.choice, c.candidate, c.review,
                                                           db.reviews[c.review].verdict == RejectReview)],
         candidates := db.candidates[c.candidate := k.(lifecycle := StateAfterChoice(c.choice),
                                                       revision := k.revision + 1)],
         attempts := db.attempts[k.attempt := a.row.(stage := StageAfterChoice(c.choice),
                                                     reworkOrdinal := a.row.reworkOrdinal + rework,
                                                     revision := a.row.revision + 1)],
         audit := Receipted(db, c, DecisionSubject, id, k.revision + 1),
         nextId := id + 2),
     DecisionReceipt(id, c.choice, c.candidate, StateAfterChoice(c.choice), k.revision + 1, a.row.revision + 1,
                     a.ticket.revision + (if c.choice == Reject then 1 else 0), id + 1, false))
  }

  function DeliveryEffect(db: Db, c: Command): (Db, Receipt)
    requires c.RecordDelivery? && c.candidate in db.candidates
    requires LoadAttempt(db, db.candidates[c.candidate].attempt).Ok?
  {
    var id := db.nextId;
    var k := db.candidates[c.candidate];
    var a := LoadAttempt(db, k.attempt).value;
    var completed := Completes(db, a);
    var campaigns := if completed
      then db.campaigns[a.row.campaign := a.campaign.(lifecycle := CampaignCompleted,
                                                      revision := a.campaign.revision + 1)]
      else db.campaigns;
    (WithTicket(db, a.row.ticketRevision, TicketDelivered)
       .(deliveries := db.deliveries[id := DeliveryRow(c.candidate, c.candidateCommit, c.expectedOldCommit,
                                                       c.resultingCommit,
                                                       c.resultingTree, c.factoryCost)],
         candidates := db.candidates[c.candidate := k.(lifecycle := Delivered, revision := k.revision + 1)],
         attempts := db.attempts[k.attempt := a.row.(stage := AttemptDelivered, revision := a.row.revision + 1)],
         campaigns := campaigns,
         audit := Receipted(db, c, DeliverySubject, id, k.revision + 1),
         nextId := id + 2),
     DeliveryReceipt(id, c.candidate, c.factoryCost, k.revision + 1, a.row.revision + 1, a.ticket.revision + 1,
                     a.campaign.revision + (if completed then 1 else 0), completed, id + 1, false))
  }

  function Effect(db: Db, c: Command): (Db, Receipt)
    requires LockError(db, c).None? && Guard(db, c).None?
  {
    if c.SubmitCandidate? then SubmitEffect(db, c)
    else if c.RecordValidation? then ValidationEffect(db, c)
    else if c.AttachCandidateCommit? then AttachEffect(db, c)
    else if c.SubmitQualityReview? then ReviewEffect(db, c)
    else if c.SponsorTicket? then SponsorEffect(db, c)
    else if c.ReleaseTicketAttempt? then ReleaseEffect(db, c)
    else if c.DecideCandidate? then DecideEffect(db, c)
    else DeliveryEffect(db, c)
  }

  // ------------------------------------------------------------- idempotency

  datatype AuditLookup = Unseen | Conflicting | Seen(row: AuditRow)

  /** `find_audit` */
  function FindAudit(db: Db, c: Command): AuditLookup {
    if AuditKey(c) !in db.audit then Unseen
    else
      var row := db.audit[AuditKey(c)];
      if row.operation != Operation(c) || row.fingerprint != Fingerprint(c) then Conflicting else Seen(row)
  }

  function SubjectOf(c: Command): Subject {
    if c.SubmitCandidate? then CandidateSubject
    else if c.RecordValidation? then ValidationSubject
    else if c.AttachCandidateCommit? then CandidateSubject
    else if c.SubmitQualityReview? then ReviewSubject
    else if c.SponsorTicket? then DecisionSubject
    else if c.ReleaseTicketAttempt? then DecisionSubject
    else if c.DecideCandidate? then DecisionSubject
    else DeliverySubject
  }

  /** What a repeated command reads back. Only `submit` reports the revision it
      recorded; the others report the rows as they are now. */
  function Replay(db: Db, c: Command, row: AuditRow): Answer {
    if row.subject != SubjectOf(c) then Err(CorruptState)
    else
      if c.SubmitCandidate? then
        if row.subjectId !in db.candidates then Err(UnknownCandidate)
        else Ok(CandidateReceipt(row.subjectId, db.candidates[row.subjectId].lifecycle, row.resultingRevision, row.id, true))
      else if c.AttachCandidateCommit? then
        if row.subjectId !in db.candidates then Err(UnknownCandidate)
        else
          var k := db.candidates[row.subjectId];
          Ok(CandidateReceipt(row.subjectId, k.lifecycle, k.revision, row.id, true))
      else if c.RecordValidation? then ReplayValidation(db, row)
      else if c.SubmitQualityReview? then ReplayReview(db, row)
      else if c.SponsorTicket? then ReplaySponsor(db, row)
      else if c.ReleaseTicketAttempt? then ReplayRelease(db, row)
      else if c.DecideCandidate? then ReplayDecision(db, c.choice, row)
      else ReplayDelivery(db, row)
  }

  function ReplayValidation(db: Db, row: AuditRow): Answer {
    if row.subjectId !in db.validations then Err(UnknownValidation)
    else
      var v := db.validations[row.subjectId];
      if v.candidate !in db.candidates then Err(UnknownCandidate)
      else
        var k := db.candidates[v.candidate];
        match LoadAttempt(db, k.attempt)
        case Err(e) => Err(e)
        case Ok(a) => Ok(ValidationReceipt(row.subjectId, v.candidate, v.outcome, k.lifecycle, k.revision, a.row.revision, row.id, true))
  }

  function ReplayReview(db: Db, row: AuditRow): Answer {
    if row.subjectId !in db.reviews then Err(UnknownReview)
    else
      var r := db.reviews[row.subjectId];
      if r.candidate !in db.candidates then Err(UnknownCandidate)
      else
        var k := db.candidates[r.candidate];
        match LoadAttempt(db, k.attempt)
        case Err(e) => Err(e)
        case Ok(a) => Ok(ReviewReceipt(row.subjectId, r.candidate, r.verdict, k.revision, a.row.revision, row.id, true))
  }

  function ReplaySponsor(db: Db, row: AuditRow): Answer {
    if row.subjectId !in db.decisions || !db.decisions[row.subjectId].SponsorDecision? then Err(CorruptDecision)
    else
      var r := db.decisions[row.subjectId].ticketRevision;
      if !TicketAgrees(db, r) then Err(CorruptState)
      else Ok(SponsorReceipt(row.subjectId, r, db.ticketRevisions[r].revision, row.id, true))
  }

  /** A release retried after the ticket moved on has no outcome to report. */
  function ReplayRelease(db: Db, row: AuditRow): Answer {
    if row.subjectId !in db.decisions || !db.decisions[row.subjectId].ReleaseDecision? then Err(CorruptDecision)
    else
      var attempt := db.decisions[row.subjectId].attempt;
      match LoadAttempt(db, attempt)
      case Err(e) => Err(e)
      case Ok(a) =>
        match a.ticket.lifecycle
        case Sponsored => Ok(ReleaseReceipt(row.subjectId, attempt, Released, a.row.revision, a.ticket.revision, row.id, true))
        case Resolved => Ok(ReleaseReceipt(row.subjectId, attempt, ReleaseResolved, a.row.revision, a.ticket.revision, row.id, true))
        case Blocked => Ok(ReleaseReceipt(row.subjectId, attempt, ReleaseBlocked, a.row.revision, a.ticket.revision, row.id, true))
        case _ => Err(CorruptState)
  }

  function ReplayDecision(db: Db, choice: Choice, row: AuditRow): Answer {
    if row.subjectId !in db.decisions || !db.decisions[row.subjectId].CandidateDecision? then Err(CorruptDecision)
    else
      var candidate := db.decisions[row.subjectId].candidate;
      if candidate !in db.candidates then Err(UnknownCandidate)
      else
        var k := db.candidates[candidate];
        match LoadAttempt(db, k.attempt)
        case Err(e) => Err(e)
        case Ok(a) => Ok(DecisionReceipt(row.subjectId, choice, candidate, k.lifecycle, k.revision, a.row.revision,
                                         a.ticket.revision, row.id, true))
  }

  function ReplayDelivery(db: Db, row: AuditRow): Answer {
    if row.subjectId !in db.deliveries then Err(CorruptState)
    else
      var d := db.deliveries[row.subjectId];
      if d.candidate !in db.candidates then Err(UnknownCandidate)
      else
        var k := db.candidates[d.candidate];
        match LoadAttempt(db, k.attempt)
        case Err(e) => Err(e)
        case Ok(a) => Ok(DeliveryReceipt(row.subjectId, d.candidate, d.cost, k.revision, a.row.revision, a.ticket.revision,
                                         a.campaign.revision, a.campaign.lifecycle == CampaignCompleted, row.id, true))
  }

  // ------------------------------------------------------------------- step

  /** Accepted for the first time: not a repeat, and every guard passed. */
  predicate Accepts(db: Db, c: Command) {
    StaticError(c).None? && LockError(db, c).None? && FindAudit(db, c).Unseen? && Guard(db, c).None?
  }

  function Step(db: Db, c: Command): (Db, Answer) {
    if StaticError(c).Some? then (db, Err(StaticError(c).value))
    else if LockError(db, c).Some? then (db, Err(LockError(db, c).value))
    else match FindAudit(db, c)
      case Conflicting => (db, Err(IdempotencyConflict))
      case Seen(row) => (db, Replay(db, c, row))
      case Unseen =>
        match Guard(db, c)
        case Some(e) => (db, Err(e))
        case None => var (after, receipt) := Effect(db, c); (after, Ok(receipt))
  }
}
