/** What every reachable state of the decision store satisfies.

    The store's guards are local: a candidate's state, an attempt's stage, one
    `EXISTS` query. The facts below are global. */
module DecisionInvariant {
  import opened Basics
  import opened Commands
  import opened Decision
  import Refs

  // -------------------------------------------------------------- the facts

  ghost predicate FreshIds(db: Db) {
    && db.nextId > 0
    && (forall i :: i in db.campaigns ==> 0 < i < db.nextId)
    && (forall i :: i in db.tickets ==> 0 < i < db.nextId)
    && (forall i :: i in db.ticketRevisions ==> 0 < i < db.nextId)
    && (forall i :: i in db.attempts ==> 0 < i < db.nextId)
    && (forall i :: i in db.candidates ==> 0 < i < db.nextId)
    && (forall i :: i in db.validations ==> 0 < i < db.nextId)
    && (forall i :: i in db.reviews ==> 0 < i < db.nextId)
    && (forall i :: i in db.decisions ==> 0 < i < db.nextId)
    && (forall i :: i in db.deliveries ==> 0 < i < db.nextId)
  }

  ghost predicate Linked(db: Db) {
    && (forall a :: a in db.attempts ==>
          db.attempts[a].campaign in db.campaigns && db.attempts[a].ticketRevision in db.ticketRevisions)
    && (forall k :: k in db.candidates ==> db.candidates[k].attempt in db.attempts)
    && (forall v :: v in db.validations ==> db.validations[v].candidate in db.candidates)
    && (forall r :: r in db.reviews ==>
          db.reviews[r].candidate in db.candidates && db.reviews[r].validation in db.validations)
    && (forall d :: d in db.decisions && db.decisions[d].CandidateDecision? ==>
          db.decisions[d].candidate in db.candidates && db.decisions[d].review in db.reviews)
    && (forall d :: d in db.deliveries ==> db.deliveries[d].candidate in db.candidates)
  }

  /** A ticket and its revision never disagree, and a ticket has one revision. */
  ghost predicate TicketsAgree(db: Db) {
    forall r :: r in db.ticketRevisions ==> TicketAgrees(db, r)
  }

  predicate IsLive(state: CandidateState) { state != Rejected }

  /** The stage an attempt is in while a live candidate of it is in `state`. */
  predicate Fits(stage: Stage, state: CandidateState) {
    match stage
    case HardValidation => state == Submitted
    case ReworkValidation => state == Submitted
    case Quality => state == Validated
    case ReworkQuality => state == Validated
    case AwaitingArchitect => state == Validated || state == Accepted
    case AttemptDelivered => state == Delivered
    case _ => false
  }

  predicate NeedsLive(stage: Stage) {
    stage != Engineering && stage != ReworkEngineering && stage != AttemptFailed && stage != AttemptCancelled
  }

  predicate Rivals(k: CandidateRow, m: CandidateRow) {
    k.attempt == m.attempt && IsLive(k.lifecycle) && IsLive(m.lifecycle)
  }

  ghost predicate OneLive(db: Db) {
    forall k, m :: k in db.candidates && m in db.candidates && Rivals(db.candidates[k], db.candidates[m]) ==> k == m
  }

  ghost predicate LiveFits(db: Db)
    requires Linked(db)
  {
    forall k :: k in db.candidates && IsLive(db.candidates[k].lifecycle) ==>
      Fits(db.attempts[db.candidates[k].attempt].stage, db.candidates[k].lifecycle)
  }

  ghost predicate HasLive(db: Db, a: int) {
    exists k :: k in db.candidates && db.candidates[k].attempt == a && IsLive(db.candidates[k].lifecycle)
  }

  ghost predicate StagesFilled(db: Db) {
    forall a :: a in db.attempts && NeedsLive(db.attempts[a].stage) ==> HasLive(db, a)
  }

  ghost predicate HasDecision(db: Db, k: int) {
    exists d :: d in db.decisions && db.decisions[d].CandidateDecision? && db.decisions[d].candidate == k
  }

  /** The evidence a candidate has, given its state and its attempt's stage. */
  ghost predicate Evidence(db: Db, k: int)
    requires k in db.candidates && db.candidates[k].attempt in db.attempts
  {
    var row := db.candidates[k];
    var judged := db.attempts[row.attempt].stage == AwaitingArchitect;
    match row.lifecycle
    case Submitted =>
      && !HasScope(db, k, HardCandidate) && !HasScope(db, k, QualityFullSuite) && row.commit.None?
      && !HasReview(db, k) && !HasDecision(db, k) && !HasDelivery(db, k)
    case Validated =>
      && HasPassed(db, k, HardCandidate)
      && (if judged then HasPassed(db, k, QualityFullSuite) else !HasScope(db, k, QualityFullSuite))
      && (HasReview(db, k) ==> judged && row.commit.Some?)
      && !HasDecision(db, k) && !HasDelivery(db, k)
    case Accepted => Approved(db, k) && !HasDelivery(db, k)
    case Delivered => Approved(db, k) && HasDelivery(db, k)
    case Rejected => !HasDeliverDecision(db, k) && !HasDelivery(db, k)
  }

  ghost predicate Approved(db: Db, k: int)
    requires k in db.candidates
  {
    && HasPassed(db, k, HardCandidate) && HasPassed(db, k, QualityFullSuite)
    && db.candidates[k].commit.Some? && HasReview(db, k) && HasDeliverDecision(db, k)
  }

  ghost predicate EvidenceClosed(db: Db)
    requires Linked(db)
  {
    forall k :: k in db.candidates ==> Evidence(db, k)
  }

  predicate SameScope(v: ValidationRow, w: ValidationRow) {
    v.candidate == w.candidate && v.scope == w.scope
  }

  predicate SameCandidate(d: DecisionRow, e: DecisionRow) {
    d.CandidateDecision? && e.CandidateDecision? && d.candidate == e.candidate
  }

  ghost predicate OneOfEach(db: Db) {
    && (forall v, w :: v in db.validations && w in db.validations && SameScope(db.validations[v], db.validations[w]) ==> v == w)
    && (forall r, s :: r in db.reviews && s in db.reviews && db.reviews[r].candidate == db.reviews[s].candidate ==>
          r == s)
    && (forall d, e :: d in db.decisions && e in db.decisions && SameCandidate(db.decisions[d], db.decisions[e]) ==>
          d == e)
    && (forall d, e :: d in db.deliveries && e in db.deliveries && db.deliveries[d].candidate == db.deliveries[e].candidate ==> d == e)
  }

  /** Each evidence row is about exactly its candidate's tree, build and commit. */
  ghost predicate ValidationsExact(db: Db)
    requires Linked(db)
  {
    forall v :: v in db.validations ==>
      var k := db.candidates[db.validations[v].candidate];
      db.validations[v].pristineTree == k.candidateTree
      && db.validations[v].build == db.campaigns[db.attempts[k.attempt].campaign].build
  }

  ghost predicate ReviewsExact(db: Db)
    requires Linked(db)
  {
    forall r :: r in db.reviews ==>
      var v := db.validations[db.reviews[r].validation];
      v.candidate == db.reviews[r].candidate && v.scope == QualityFullSuite && v.outcome == Passed
  }

  ghost predicate DecisionsExact(db: Db)
    requires Linked(db)
  {
    forall d :: d in db.decisions && db.decisions[d].CandidateDecision? ==>
      var r := db.reviews[db.decisions[d].review];
      && r.candidate == db.decisions[d].candidate
      && db.decisions[d].overrides == (r.verdict == RejectReview)
      && (db.decisions[d].overrides ==> db.decisions[d].choice == Deliver)
  }

  ghost predicate DeliveriesExact(db: Db)
    requires Linked(db)
  {
    forall d :: d in db.deliveries ==>
      var k := db.candidates[db.deliveries[d].candidate];
      && k.commit == Some(db.deliveries[d].candidateCommit)
      && db.deliveries[d].oldCommit == k.baseCommit && db.deliveries[d].resultingTree == k.candidateTree
  }

  /** A candidate starts from its attempt's claimed snapshot; an attached ref names it. */
  ghost predicate CandidateExact(db: Db, k: int)
    requires Linked(db) && k in db.candidates
  {
    var row := db.candidates[k];
    var a := db.attempts[row.attempt];
    && row.baseCommit == a.claimedCommit && row.baseTree == a.claimedTree && row.baseTree != row.candidateTree
    && (row.commit.Some? <==> row.ref.Some?)
    && (row.ref.Some? ==> RefExact(row.ref.value, db.ticketRevisions[a.ticketRevision].ticket, k))
  }

  ghost predicate CandidatesExact(db: Db)
    requires Linked(db)
  {
    forall k :: k in db.candidates ==> CandidateExact(db, k)
  }

  predicate RefExact(ref: string, ticket: int, k: int) {
    ticket > 0 && k > 0 && Refs.IsCandidateRef(ref) && Refs.NamesCandidate(ref, ticket, k)
  }

  function CandidatesOf(db: Db, a: int): set<int> {
    set k | k in db.candidates && db.candidates[k].attempt == a
  }

  /** At most one rework, and one candidate per engineering round. */
  predicate OrdinalsFit(row: AttemptRow) {
    && row.reworkOrdinal <= 1 && row.stage != AttemptCancelled
    && (row.stage == Engineering || row.stage == HardValidation || row.stage == Quality ==> row.reworkOrdinal == 0)
    && (row.stage == ReworkEngineering || row.stage == ReworkValidation || row.stage == ReworkQuality ==>
          row.reworkOrdinal == 1)
    && row.candidateOrdinal == row.reworkOrdinal + (if row.stage == Engineering || row.stage == ReworkEngineering then 0 else 1)
  }

  ghost predicate Counted(db: Db, a: int)
    requires a in db.attempts
  {
    OrdinalsFit(db.attempts[a]) && |CandidatesOf(db, a)| == db.attempts[a].candidateOrdinal
  }

  ghost predicate RoundsCounted(db: Db) {
    forall a :: a in db.attempts ==> Counted(db, a)
  }

  predicate Unfinished(stage: Stage) {
    stage != AttemptFailed && stage != AttemptCancelled && stage != AttemptDelivered
  }

  predicate BothHold(a: AttemptRow, b: AttemptRow) {
    a.ticketRevision == b.ticketRevision && !a.released && !b.released
  }

  ghost predicate TicketsOwned(db: Db)
    requires Linked(db)
  {
    && (forall a, b :: a in db.attempts && b in db.attempts && BothHold(db.attempts[a], db.attempts[b]) ==> a == b)
    && (forall a :: a in db.attempts && db.attempts[a].released ==> db.attempts[a].stage == AttemptFailed)
    && (forall a :: a in db.attempts && Unfinished(db.attempts[a].stage) ==>
          db.ticketRevisions[db.attempts[a].ticketRevision].lifecycle == InFlight)
  }

  ghost predicate TargetKept(db: Db, campaign: int)
    requires campaign in db.campaigns
  {
    var row := db.campaigns[campaign];
    var count := |DeliveredAttempts(db, campaign)|;
    && count <= row.target && row.target >= 1
    && (row.lifecycle == CampaignRunning ==> count < row.target)
    && (row.lifecycle == CampaignCompleted ==> count == row.target)
  }

  ghost predicate TargetsKept(db: Db) {
    forall c :: c in db.campaigns ==> TargetKept(db, c)
  }

  /** Every receipt of one of the eight commands names a row of its own table. */
  ghost predicate SubjectExists(db: Db, row: AuditRow) {
    && (row.operation == "candidate.submit" || row.operation == "candidate.commit.attach" ==>
          row.subject == CandidateSubject && row.subjectId in db.candidates)
    && (row.operation == "validation.record" ==> row.subject == ValidationSubject && row.subjectId in db.validations)
    && (row.operation == "quality.review.submit" ==> row.subject == ReviewSubject && row.subjectId in db.reviews)
    && (row.operation == "architect.ticket.sponsor" ==>
          row.subject == DecisionSubject && row.subjectId in db.decisions && db.decisions[row.subjectId].SponsorDecision?
          && db.decisions[row.subjectId].ticketRevision in db.ticketRevisions)
    && (row.operation == "architect.ticket.release" ==>
          row.subject == DecisionSubject && row.subjectId in db.decisions && db.decisions[row.subjectId].ReleaseDecision?
          && db.decisions[row.subjectId].attempt in db.attempts)
    && (row.operation == "architect.candidate.decide" ==>
          row.subject == DecisionSubject && row.subjectId in db.decisions && db.decisions[row.subjectId].CandidateDecision?)
    && (row.operation == "delivery.record" ==> row.subject == DeliverySubject && row.subjectId in db.deliveries)
  }

  ghost predicate ReceiptsSound(db: Db) {
    forall key :: key in db.audit ==> SubjectExists(db, db.audit[key])
  }

  ghost predicate Inv(db: Db) {
    && FreshIds(db) && Linked(db) && TicketsAgree(db)
    && OneLive(db) && LiveFits(db) && StagesFilled(db)
    && EvidenceClosed(db) && OneOfEach(db)
    && ValidationsExact(db) && ReviewsExact(db) && DecisionsExact(db) && DeliveriesExact(db) && CandidatesExact(db)
    && RoundsCounted(db) && TicketsOwned(db) && TargetsKept(db) && ReceiptsSound(db)
  }
}
