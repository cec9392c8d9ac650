/** Every command of the decision store keeps the invariant. */
module DecisionSafety {
  import opened Basics
  import opened Commands
  import opened Decision
  import opened DecisionInvariant
  import opened DecisionFrames
  import Refs

  /** The corruption check on a ticket and its revision never fires. */
  lemma LoadSucceeds(db: Db, a: int)
    requires Linked(db) && TicketsAgree(db) && a in db.attempts
    ensures LoadAttempt(db, a) == Ok(AttemptView(db.attempts[a],
                                                 db.ticketRevisions[db.attempts[a].ticketRevision].ticket,
                                                 db.ticketRevisions[db.attempts[a].ticketRevision],
                                                 db.campaigns[db.attempts[a].campaign]))
  {
    assert TicketAgrees(db, db.attempts[a].ticketRevision);
  }

  // ------------------------------------------------------------------ submit

  ghost predicate SubmitPasses(db: Db, c: Command) {
    && c.SubmitCandidate? && c.attempt in db.attempts && SubmitGuard(db, c).None?
    && FreshIds(db) && Linked(db) && TicketsAgree(db)
  }

  lemma SubmitLinks(db: Db, c: Command)
    requires SubmitPasses(db, c)
    ensures var after := SubmitEffect(db, c).0;
            FreshIds(after) && Linked(after) && TicketsAgree(after)
  {
    hide SubmitGuard;
    var after := SubmitEffect(db, c).0;
    TicketsAgreeFramed(db, after);
  }

  lemma SubmitMoves(db: Db, c: Command)
    requires SubmitPasses(db, c)
    ensures var after := SubmitEffect(db, c).0;
            Moves(db, after, c.attempt, db.nextId) && OnlyAbout(db, after, db.nextId)
  {
    LoadSucceeds(db, c.attempt);
  }

  lemma NoEvidenceYet(db: Db, k: int)
    requires Linked(db) && k !in db.candidates
    ensures forall s :: !HasScope(db, k, s)
    ensures !HasReview(db, k) && !HasDecision(db, k) && !HasDelivery(db, k)
  {
  }

  lemma SubmitEvidence(db: Db, c: Command)
    requires SubmitPasses(db, c)
    ensures var after := SubmitEffect(db, c).0;
            Evidence(after, db.nextId)
  {
    NoEvidenceYet(db, db.nextId);
  }

  lemma SubmitCounts(db: Db, c: Command)
    requires SubmitPasses(db, c) && RoundsCounted(db)
    ensures RoundsCounted(SubmitEffect(db, c).0)
  {
    var after := SubmitEffect(db, c).0;
    LoadSucceeds(db, c.attempt);
    forall a | a in after.attempts
      ensures Counted(after, a)
    {
      assert Counted(db, a);
      if a == c.attempt {
        assert CandidatesOf(after, a) == CandidatesOf(db, a) + {db.nextId};
      } else {
        assert CandidatesOf(after, a) == CandidatesOf(db, a);
      }
    }
  }

  lemma SubmitSettles(db: Db, c: Command)
    requires SubmitPasses(db, c)
    ensures var after := SubmitEffect(db, c).0;
            && Settled(after, c.attempt, db.nextId) && NewRowsExact(db, after, c.attempt, db.nextId)
            && CandidateExact(after, db.nextId)
  {
    LoadSucceeds(db, c.attempt);
    SubmitLinks(db, c);
    hide FreshIds, TicketsAgree, LoadAttempt;
  }

  lemma SubmitReceipts(db: Db, c: Command)
    requires SubmitPasses(db, c)
    ensures Receipts(db, SubmitEffect(db, c).0, AuditKey(c))
  {
    hide SubmitGuard, TicketsAgree, Linked;
  }

  lemma SubmitOwns(db: Db, c: Command)
    requires SubmitPasses(db, c) && TicketsOwned(db) && TargetsKept(db)
    ensures var after := SubmitEffect(db, c).0;
            StaysOwned(db, after, c.attempt) && TargetsKept(after)
  {
    LoadSucceeds(db, c.attempt);
    SubmitLinks(db, c);
    MoveKeepsTargets(db, SubmitEffect(db, c).0, c.attempt);
  }

  lemma SubmitUnique(db: Db, c: Command)
    requires SubmitPasses(db, c) && OneOfEach(db)
    ensures OneOfEach(SubmitEffect(db, c).0)
  {
  }

  lemma SubmitKeepsInv(db: Db, c: Command)
    requires SubmitPasses(db, c) && Inv(db)
    ensures Inv(SubmitEffect(db, c).0)
  {
    var after := SubmitEffect(db, c).0;
    hide *;
    Parts(db);
    SubmitLinks(db, c);
    SubmitMoves(db, c);
    SubmitEvidence(db, c);
    SubmitSettles(db, c);
    SubmitReceipts(db, c);
    SubmitOwns(db, c);
    SubmitCounts(db, c);
    SubmitUnique(db, c);
    MoveKeepsInv(db, after, c.attempt, db.nextId, AuditKey(c));
  }

  // -------------------------------------------------------------- validation

  ghost predicate ValidationPasses(db: Db, c: Command) {
    && c.RecordValidation? && c.candidate in db.candidates && ValidationGuard(db, c).None?
    && FreshIds(db) && Linked(db) && TicketsAgree(db)
  }

  lemma ValidationLinks(db: Db, c: Command)
    requires ValidationPasses(db, c)
    ensures c.build in db.builds
    ensures var after := ValidationEffect(db, c).0;
            FreshIds(after) && Linked(after) && TicketsAgree(after)
  {
    var after := ValidationEffect(db, c).0;
    hide ValidationGuard;
    TicketsAgreeFramed(db, after);
  }

  lemma ValidationMoves(db: Db, c: Command)
    requires ValidationPasses(db, c)
    ensures var after := ValidationEffect(db, c).0;
            Moves(db, after, db.candidates[c.candidate].attempt, c.candidate) && OnlyAbout(db, after, c.candidate)
  {
    hide TicketsAgree, HasPassed, Fingerprint;
    LoadSucceeds(db, db.candidates[c.candidate].attempt);
  }

  lemma ValidatedEvidence(db: Db, after: Db, a: int, k: int, id: int)
    requires Linked(db) && EvidenceClosed(db) && Moves(db, after, a, k) && OnlyAbout(db, after, k)
    requires k in db.candidates && id in after.validations && after.validations[id].candidate == k
             && after.validations[id].outcome == Passed
    requires after.validations == db.validations[id := after.validations[id]]
    requires after.reviews == db.reviews && after.decisions == db.decisions && after.deliveries == db.deliveries
    requires after.candidates[k].lifecycle == Validated
    requires if after.validations[id].scope == HardCandidate
             then db.candidates[k].lifecycle == Submitted && after.attempts[a].stage != AwaitingArchitect
             else db.candidates[k].lifecycle == Validated && db.attempts[a].stage != AwaitingArchitect && after.attempts[a].stage == AwaitingArchitect
    ensures Evidence(after, k)
  {
    EvidenceGrows(db, after, k);
    assert Evidence(db, k);
    hide OnlyAbout, SameOwners, EvidenceClosed;
  }

  lemma FailedEvidence(db: Db, after: Db, a: int, k: int)
    requires Linked(db) && EvidenceClosed(db) && Moves(db, after, a, k) && k in db.candidates
    requires db.candidates[k].lifecycle == Submitted || db.candidates[k].lifecycle == Validated
    requires after.decisions == db.decisions && after.deliveries == db.deliveries
             && after.candidates[k].lifecycle == Rejected
    ensures Evidence(after, k)
  {
    assert Evidence(db, k);
    hide SameOwners, EvidenceClosed;
  }

  lemma ValidationGuarded(db: Db, c: Command)
    requires ValidationPasses(db, c)
    ensures var k := db.candidates[c.candidate];
            && k.attempt in db.attempts && k.lifecycle == RequiredState(c.scope)
            && StageOfScope(db.attempts[k.attempt].stage, c.scope)
            && c.build in db.builds
  {
    LoadSucceeds(db, db.candidates[c.candidate].attempt);
    hide FreshIds, TicketsAgree, LoadAttempt;
  }

  lemma ValidationEvidence(db: Db, c: Command)
    requires ValidationPasses(db, c) && EvidenceClosed(db)
    ensures Evidence(ValidationEffect(db, c).0, c.candidate)
  {
    hide ValidationGuard, FreshIds, TicketsAgree, EvidenceClosed, Evidence, Moves, OnlyAbout;
    ValidationGuarded(db, c);
    ValidationMoves(db, c);
    var after, k := ValidationEffect(db, c).0, c.candidate;
    if c.outcome == Passed {
      ValidatedEvidence(db, after, db.candidates[k].attempt, k, db.nextId);
    } else {
      FailedEvidence(db, after, db.candidates[k].attempt, k);
    }
  }

  lemma ValidationRows(db: Db, c: Command)
    requires ValidationPasses(db, c)
    ensures var after, a := ValidationEffect(db, c).0, db.candidates[c.candidate].attempt;
            Settled(after, a, c.candidate) && NewRowsExact(db, after, a, c.candidate)
            && Quiet(db, after, a, c.candidate)
  {
    hide LoadAttempt, TicketAgrees, ViableSession, HasArtifact, HasScope, FreshIds, TicketsAgree;
    LoadSucceeds(db, db.candidates[c.candidate].attempt);
    ValidationLinks(db, c);
  }

  lemma ValidationReceipts(db: Db, c: Command)
    requires ValidationPasses(db, c)
    ensures Receipts(db, ValidationEffect(db, c).0, AuditKey(c))
  {
    hide ValidationGuard;
    ValidationLinks(db, c);
  }

  lemma ValidationIsNew(db: Db, c: Command)
    requires ValidationPasses(db, c)
    ensures !HasScope(db, c.candidate, c.scope)
  {
    LoadSucceeds(db, db.candidates[c.candidate].attempt);
    hide FreshIds, Linked, TicketsAgree, LoadAttempt, HasScope;
  }

  lemma ValidationUnique(db: Db, c: Command)
    requires ValidationPasses(db, c) && OneOfEach(db) && CandidatesExact(db)
    ensures var after := ValidationEffect(db, c).0;
            Linked(after) && OneOfEach(after) && CandidateExact(after, c.candidate)
  {
    hide FreshIds, TicketsAgree, ValidationGuard, HasScope, OneOfEach, Moves, OnlyAbout, CandidateExact,
         CandidatesExact, StageAfterValidation;
    ValidationLinks(db, c);
    var after, id := ValidationEffect(db, c).0, db.nextId;
    ValidationIsNew(db, c);
    ValidationMoves(db, c);
    FreshRow(db);
    NewValidationUnique(db, after, id, after.validations[id]);
    MoveKeepsExact(db, after, db.candidates[c.candidate].attempt, c.candidate);
  }

  lemma ValidationKeepsInv(db: Db, c: Command)
    requires ValidationPasses(db, c) && Inv(db)
    ensures c.build in db.builds && Inv(ValidationEffect(db, c).0)
  {
    ValidationLinks(db, c);
    var after, a := ValidationEffect(db, c).0, db.candidates[c.candidate].attempt;
    hide *;
    Parts(db);
    ValidationMoves(db, c);
    ValidationEvidence(db, c);
    ValidationRows(db, c);
    QuietMove(db, after, a, c.candidate);
    ValidationReceipts(db, c);
    ValidationUnique(db, c);
    MoveKeepsInv(db, after, a, c.candidate, AuditKey(c));
  }

  // ------------------------------------------------------------------ attach

  ghost predicate AttachPasses(db: Db, c: Command) {
    && c.AttachCandidateCommit? && c.candidate in db.candidates && Refs.IsCandidateRef(c.candidateRef)
    && AttachGuard(db, c).None?
    && FreshIds(db) && Linked(db) && TicketsAgree(db)
  }

  lemma AttachLinks(db: Db, c: Command)
    requires AttachPasses(db, c)
    ensures var after := AttachEffect(db, c).0;
            FreshIds(after) && Linked(after) && TicketsAgree(after)
  {
    hide AttachGuard;
    var after := AttachEffect(db, c).0;
    TicketsAgreeFramed(db, after);
  }

  lemma AttachMoves(db: Db, c: Command)
    requires AttachPasses(db, c)
    ensures var after, a := AttachEffect(db, c).0, db.candidates[c.candidate].attempt;
            Moves(db, after, a, c.candidate) && OnlyAbout(db, after, c.candidate)
  {
    hide FreshIds, TicketsAgree, LoadAttempt;
    var after, a := AttachEffect(db, c).0, db.candidates[c.candidate].attempt;
    assert db.attempts == db.attempts[a := db.attempts[a]];
  }

  lemma AttachReceipts(db: Db, c: Command)
    requires AttachPasses(db, c)
    ensures Receipts(db, AttachEffect(db, c).0, AuditKey(c))
  {
    hide FreshIds, TicketsAgree, AttachGuard, Linked, LoadAttempt, HasPassed, Fingerprint, Refs.IsCandidateRef,
         Refs.NamesCandidate;
  }

  lemma AttachEvidence(db: Db, c: Command)
    requires AttachPasses(db, c) && EvidenceClosed(db)
    ensures Evidence(AttachEffect(db, c).0, c.candidate)
  {
    hide Moves;
    hide LoadAttempt, FreshIds, TicketsAgree;
    AttachMoves(db, c);
    EvidenceGrows(db, AttachEffect(db, c).0, c.candidate);
    assert Evidence(db, c.candidate);
  }

  lemma AttachRows(db: Db, c: Command)
    requires AttachPasses(db, c) && LiveFits(db)
    ensures var after, a := AttachEffect(db, c).0, db.candidates[c.candidate].attempt;
            Linked(after) && Settled(after, a, c.candidate) && NewRowsExact(db, after, a, c.candidate)
            && Quiet(db, after, a, c.candidate)
  {
    hide FreshIds, TicketsAgree, LoadAttempt, HasPassed;
    AttachLinks(db, c);
    assert Fits(db.attempts[db.candidates[c.candidate].attempt].stage, Validated);
  }

  lemma AttachNames(db: Db, c: Command)
    requires AttachPasses(db, c)
    ensures Linked(db) && db.candidates[c.candidate].attempt in db.attempts
    ensures RefExact(c.candidateRef, db.ticketRevisions[db.attempts[db.candidates[c.candidate].attempt].ticketRevision].ticket, c.candidate)
  {
    LoadSucceeds(db, db.candidates[c.candidate].attempt);
    assert TicketAgrees(db, db.attempts[db.candidates[c.candidate].attempt].ticketRevision);
    hide LoadAttempt, HasPassed, Refs.IsCandidateRef, Refs.NamesCandidate, TicketsAgree;
  }

  lemma AttachUnique(db: Db, c: Command)
    requires AttachPasses(db, c) && OneOfEach(db) && CandidatesExact(db)
    ensures var after := AttachEffect(db, c).0;
            Linked(after) && OneOfEach(after) && CandidateExact(after, c.candidate)
  {
    hide AttachGuard, FreshIds, TicketsAgree, OneOfEach, RefExact, Refs.IsCandidateRef;
    AttachLinks(db, c);
    AttachNames(db, c);
    SameRowsUnique(db, AttachEffect(db, c).0);
    assert CandidateExact(db, c.candidate);
  }

  lemma AttachKeepsInv(db: Db, c: Command)
    requires AttachPasses(db, c) && Inv(db)
    ensures Inv(AttachEffect(db, c).0)
  {
    AttachLinks(db, c);
    var after, a := AttachEffect(db, c).0, db.candidates[c.candidate].attempt;
    hide *;
    Parts(db);
    AttachMoves(db, c);
    AttachReceipts(db, c);
    AttachEvidence(db, c);
    AttachRows(db, c);
    QuietMove(db, after, a, c.candidate);
    AttachUnique(db, c);
    MoveKeepsInv(db, after, a, c.candidate, AuditKey(c));
  }

  // ------------------------------------------------------------------ review

  ghost predicate ReviewPasses(db: Db, c: Command) {
    && c.SubmitQualityReview? && c.candidate in db.candidates && ReviewGuard(db, c).None?
    && FreshIds(db) && Linked(db) && TicketsAgree(db)
  }

  lemma ReviewGuarded(db: Db, c: Command)
    requires ReviewPasses(db, c)
    ensures var k := db.candidates[c.candidate];
            && k.lifecycle == Validated && k.commit.Some? && db.attempts[k.attempt].stage == AwaitingArchitect
            && c.validation in db.validations && db.validations[c.validation].candidate == c.candidate
            && db.validations[c.validation].scope == QualityFullSuite && db.validations[c.validation].outcome == Passed
            && !HasReview(db, c.candidate)
  {
    LoadSucceeds(db, db.candidates[c.candidate].attempt);
  }

  lemma ReviewLinks(db: Db, c: Command)
    requires ReviewPasses(db, c)
    ensures var after := ReviewEffect(db, c).0;
            FreshIds(after) && Linked(after) && TicketsAgree(after)
  {
    hide ReviewGuard, HasReview;
    var after := ReviewEffect(db, c).0;
    ReviewGuarded(db, c);
    TicketsAgreeFramed(db, after);
  }

  lemma ReviewMoves(db: Db, c: Command)
    requires ReviewPasses(db, c)
    ensures var after, a := ReviewEffect(db, c).0, db.candidates[c.candidate].attempt;
            Moves(db, after, a, c.candidate) && OnlyAbout(db, after, c.candidate)
  {
    hide ReviewGuard, HasReview;
    ReviewGuarded(db, c);
  }

  lemma ReviewReceipts(db: Db, c: Command)
    requires ReviewPasses(db, c)
    ensures Receipts(db, ReviewEffect(db, c).0, AuditKey(c))
  {
    hide ReviewGuard, TicketsAgree, HasReview;
    ReviewGuarded(db, c);
  }

  lemma ReviewEvidence(db: Db, c: Command)
    requires ReviewPasses(db, c) && EvidenceClosed(db)
    ensures Evidence(ReviewEffect(db, c).0, c.candidate)
  {
    hide ReviewGuard, FreshIds, TicketsAgree, Moves, OnlyAbout;
    ReviewGuarded(db, c);
    ReviewMoves(db, c);
    EvidenceGrows(db, ReviewEffect(db, c).0, c.candidate);
    assert Evidence(db, c.candidate);
  }

  lemma ReviewRows(db: Db, c: Command)
    requires ReviewPasses(db, c)
    ensures var after, a := ReviewEffect(db, c).0, db.candidates[c.candidate].attempt;
            Linked(after) && Settled(after, a, c.candidate) && NewRowsExact(db, after, a, c.candidate)
            && Quiet(db, after, a, c.candidate)
  {
    hide ReviewGuard, TicketsAgree, HasReview;
    ReviewGuarded(db, c);
    ReviewLinks(db, c);
  }

  lemma ReviewUnique(db: Db, c: Command)
    requires ReviewPasses(db, c) && OneOfEach(db) && CandidatesExact(db)
    ensures var after := ReviewEffect(db, c).0;
            Linked(after) && OneOfEach(after) && CandidateExact(after, c.candidate)
  {
    hide FreshIds, TicketsAgree, ReviewGuard, HasReview, OneOfEach, Moves, OnlyAbout, CandidateExact, CandidatesExact;
    var after, id := ReviewEffect(db, c).0, db.nextId;
    ReviewGuarded(db, c);
    ReviewLinks(db, c);
    ReviewMoves(db, c);
    FreshRow(db);
    NewReviewUnique(db, after, id, after.reviews[id]);
    MoveKeepsExact(db, after, db.candidates[c.candidate].attempt, c.candidate);
  }

  lemma ReviewKeepsInv(db: Db, c: Command)
    requires ReviewPasses(db, c) && Inv(db)
    ensures Inv(ReviewEffect(db, c).0)
  {
    var after, a := ReviewEffect(db, c).0, db.candidates[c.candidate].attempt;
    hide *;
    Parts(db);
    ReviewLinks(db, c);
    ReviewMoves(db, c);
    ReviewReceipts(db, c);
    ReviewEvidence(db, c);
    ReviewRows(db, c);
    QuietMove(db, after, a, c.candidate);
    ReviewUnique(db, c);
    MoveKeepsInv(db, after, a, c.candidate, AuditKey(c));
  }

  // ---------------------------------------------------------------- decision

  ghost predicate DecidePasses(db: Db, c: Command) {
    && c.DecideCandidate? && c.candidate in db.candidates && DecideGuard(db, c).None?
    && FreshIds(db) && Linked(db) && TicketsAgree(db)
  }

  lemma DecideGuarded(db: Db, c: Command)
    requires DecidePasses(db, c)
    ensures var k := db.candidates[c.candidate];
            && k.lifecycle == Validated && k.commit.Some? && db.attempts[k.attempt].stage == AwaitingArchitect
            && LoadAttempt(db, k.attempt).Ok? && LoadAttempt(db, k.attempt).value.row == db.attempts[k.attempt]
            && db.ticketRevisions[db.attempts[k.attempt].ticketRevision].lifecycle == InFlight
            && HasPassed(db, c.candidate, HardCandidate) && HasPassed(db, c.candidate, QualityFullSuite)
            && c.review in db.reviews && db.reviews[c.review].candidate == c.candidate
            && (c.choice != Deliver ==> db.reviews[c.review].verdict == AcceptReview)
            && (c.choice == Rework ==> db.attempts[k.attempt].reworkOrdinal == 0)
  {
    LoadSucceeds(db, db.candidates[c.candidate].attempt);
  }

  /** The tables after a decision, read off its effect. */
  ghost predicate Decided(db: Db, after: Db, c: Command)
    requires c.DecideCandidate? && c.candidate in db.candidates && c.review in db.reviews
    requires db.candidates[c.candidate].attempt in db.attempts
  {
    var k := db.candidates[c.candidate];
    var a := db.attempts[k.attempt];
    && after.candidates == db.candidates[c.candidate := k.(lifecycle := StateAfterChoice(c.choice),
                                                           revision := k.revision + 1)]
    && after.attempts == db.attempts[k.attempt := a.(stage := StageAfterChoice(c.choice),
                           reworkOrdinal := a.reworkOrdinal + (if c.choice == Rework then 1 else 0), revision := a.revision + 1)]
    && after.decisions == db.decisions[db.nextId := CandidateDecision(c.choice, c.candidate, c.review, db.reviews[c.review].verdict == RejectReview)]
    && after.audit == Receipted(db, c, DecisionSubject, db.nextId, k.revision + 1) && after.nextId == db.nextId + 2
    && after.validations == db.validations && after.reviews == db.reviews && after.deliveries == db.deliveries
    && after.campaigns == db.campaigns && SameOwners(db, after)
    && (forall r :: r in db.ticketRevisions && (r != a.ticketRevision || c.choice != Reject) ==>
          after.ticketRevisions[r].lifecycle == db.ticketRevisions[r].lifecycle)
  }

  lemma DecideLinks(db: Db, c: Command)
    requires DecidePasses(db, c)
    ensures LoadAttempt(db, db.candidates[c.candidate].attempt).Ok? && c.review in db.reviews
    ensures Decided(db, DecideEffect(db, c).0, c)
  {
    hide DecideGuard, HasPassed, FreshIds, TicketsAgree, StateAfterChoice, StageAfterChoice;
    DecideGuarded(db, c);
  }

  lemma DecideTickets(db: Db, c: Command)
    requires DecidePasses(db, c) && LoadAttempt(db, db.candidates[c.candidate].attempt).Ok? && c.review in db.reviews
    ensures TicketsAgree(DecideEffect(db, c).0)
  {
    hide DecideGuard, HasPassed, FreshIds, TicketsAgree;
    DecideGuarded(db, c);
    var after, r := DecideEffect(db, c).0, db.attempts[db.candidates[c.candidate].attempt].ticketRevision;
    assert TicketAgrees(db, r);
    if c.choice == Reject {
      WithTicketAgrees(db, r, TicketRejected);
      TicketsAgreeFramed(WithTicket(db, r, TicketRejected), after);
    } else {
      TicketsAgreeFramed(db, after);
    }
  }

  lemma DecideMoves(db: Db, after: Db, c: Command)
    requires DecidePasses(db, c) && c.review in db.reviews && Decided(db, after, c)
    ensures Moves(db, after, db.candidates[c.candidate].attempt, c.candidate) && OnlyAbout(db, after, c.candidate)
  {
    hide DecideGuard, HasPassed, LoadAttempt, TicketsAgree, SameOwners;
    DecideGuarded(db, c);
  }

  lemma DecideFresh(db: Db, after: Db, c: Command)
    requires DecidePasses(db, c) && c.review in db.reviews && Decided(db, after, c)
    ensures FreshIds(after)
  {
    hide DecideGuard, TicketsAgree, Fingerprint;
  }

  lemma DecideIds(db: Db, after: Db, c: Command)
    requires DecidePasses(db, c) && c.review in db.reviews && Decided(db, after, c)
    ensures FreshIds(after) && Linked(after)
  {
    hide DecideGuard, TicketsAgree, FreshIds, Fingerprint;
    DecideFresh(db, after, c);
  }

  lemma AcceptedEvidence(db: Db, after: Db, a: int, k: int, d: int)
    requires Linked(db) && EvidenceClosed(db) && Moves(db, after, a, k) && OnlyAbout(db, after, k)
    requires k in db.candidates && db.candidates[k].lifecycle == Validated && db.candidates[k].commit.Some?
    requires HasReview(db, k) && HasPassed(db, k, HardCandidate) && HasPassed(db, k, QualityFullSuite)
    requires after.candidates[k].lifecycle == Accepted && after.deliveries == db.deliveries
    requires d in after.decisions && after.decisions[d].CandidateDecision? && after.decisions[d].candidate == k
    requires after.decisions[d].choice == Deliver
    ensures Evidence(after, k)
  {
    EvidenceGrows(db, after, k);
    assert Evidence(db, k);
  }

  lemma RefusedEvidence(db: Db, after: Db, a: int, k: int, d: int)
    requires Linked(db) && EvidenceClosed(db) && Moves(db, after, a, k)
    requires k in db.candidates && db.candidates[k].lifecycle == Validated
    requires after.candidates[k].lifecycle == Rejected && after.deliveries == db.deliveries
    requires d in after.decisions && after.decisions == db.decisions[d := after.decisions[d]]
    requires after.decisions[d].CandidateDecision? && after.decisions[d].choice != Deliver
    ensures Evidence(after, k)
  {
    assert Evidence(db, k);
  }

  lemma DecideEvidence(db: Db, after: Db, c: Command)
    requires DecidePasses(db, c) && c.review in db.reviews && Decided(db, after, c)
    requires EvidenceClosed(db)
    ensures Evidence(after, c.candidate)
  {
    hide DecideGuard, FreshIds, TicketsAgree, LoadAttempt, SameOwners, Linked, Moves, OnlyAbout, EvidenceClosed,
         Evidence, HasPassed;
    var k := c.candidate;
    var a := db.candidates[k].attempt;
    DecideGuarded(db, c);
    DecideMoves(db, after, c);
    assert HasReview(db, k);
    if c.choice == Deliver {
      AcceptedEvidence(db, after, a, k, db.nextId);
    } else {
      RefusedEvidence(db, after, a, k, db.nextId);
    }
  }

  lemma DecideReceipts(db: Db, after: Db, c: Command)
    requires DecidePasses(db, c) && c.review in db.reviews && Decided(db, after, c)
    ensures Receipts(db, after, AuditKey(c))
  {
    hide DecideGuard, TicketsAgree;
  }

  lemma DecideRows(db: Db, after: Db, c: Command)
    requires DecidePasses(db, c) && c.review in db.reviews && Decided(db, after, c) && Linked(after)
    ensures var a := db.candidates[c.candidate].attempt;
            Settled(after, a, c.candidate) && Quiet(db, after, a, c.candidate)
  {
    hide DecideGuard, TicketsAgree, FreshIds, HasPassed, LoadAttempt, Linked;
    DecideGuarded(db, c);
  }

  lemma DecideExact(db: Db, after: Db, c: Command)
    requires DecidePasses(db, c) && c.review in db.reviews && Decided(db, after, c) && Linked(after)
    ensures NewRowsExact(db, after, db.candidates[c.candidate].attempt, c.candidate)
  {
    hide DecideGuard, TicketsAgree, FreshIds, HasPassed, LoadAttempt, SameOwners;
    DecideGuarded(db, c);
  }

  lemma DecideUnique(db: Db, after: Db, c: Command)
    requires DecidePasses(db, c) && c.review in db.reviews && Decided(db, after, c) && Linked(after)
    requires !HasDecision(db, c.candidate) && OneOfEach(db) && CandidatesExact(db)
    requires Moves(db, after, db.candidates[c.candidate].attempt, c.candidate)
    ensures OneOfEach(after) && CandidateExact(after, c.candidate)
  {
    hide DecideGuard, TicketsAgree, HasPassed, LoadAttempt, OneOfEach, CandidatesExact, CandidateExact, Moves,
         HasDecision, FreshIds, HasScope, HasReview, HasDelivery, SameOwners;
    DecideGuarded(db, c);
    FreshRow(db);
    NewDecisionUnique(db, after, db.nextId, after.decisions[db.nextId]);
    MoveKeepsExact(db, after, db.candidates[c.candidate].attempt, c.candidate);
  }

  lemma Undecided(db: Db, c: Command)
    requires DecidePasses(db, c) && EvidenceClosed(db)
    ensures !HasDecision(db, c.candidate)
  {
    hide DecideGuard, FreshIds, TicketsAgree, LoadAttempt, HasDecision, HasPassed, HasReview, HasDelivery, HasScope;
    DecideGuarded(db, c);
    assert Evidence(db, c.candidate);
  }

  lemma DecideKeepsInv(db: Db, c: Command)
    requires DecidePasses(db, c) && Inv(db)
    ensures LoadAttempt(db, db.candidates[c.candidate].attempt).Ok? && c.review in db.reviews
    ensures Inv(DecideEffect(db, c).0)
  {
    DecideLinks(db, c);
    var after, a := DecideEffect(db, c).0, db.candidates[c.candidate].attempt;
    hide *;
    Parts(db);
    DecideTickets(db, c);
    DecideMoves(db, after, c);
    DecideIds(db, after, c);
    DecideReceipts(db, after, c);
    DecideEvidence(db, after, c);
    DecideRows(db, after, c);
    DecideExact(db, after, c);
    QuietMove(db, after, a, c.candidate);
    Undecided(db, c);
    DecideUnique(db, after, c);
    MoveKeepsInv(db, after, a, c.candidate, AuditKey(c));
  }

  // ---------------------------------------------------------------- delivery

  ghost predicate DeliveryPasses(db: Db, c: Command) {
    && c.RecordDelivery? && c.candidate in db.candidates && DeliveryGuard(db, c).None?
    && FreshIds(db) && Linked(db) && TicketsAgree(db)
  }

  lemma DeliveryGuarded(db: Db, c: Command)
    requires DeliveryPasses(db, c)
    ensures var k := db.candidates[c.candidate];
            var a := db.attempts[k.attempt];
            && k.lifecycle == Accepted && k.commit == Some(c.candidateCommit) && k.baseCommit == c.expectedOldCommit
            && k.candidateTree == c.resultingTree && a.stage == AwaitingArchitect
            && LoadAttempt(db, k.attempt) == Ok(AttemptView(a, db.ticketRevisions[a.ticketRevision].ticket,
                                                            db.ticketRevisions[a.ticketRevision], db.campaigns[a.campaign]))
            && db.campaigns[a.campaign].lifecycle == CampaignRunning
  {
    LoadSucceeds(db, db.candidates[c.candidate].attempt);
  }

  lemma DeliveryTickets(db: Db, c: Command)
    requires DeliveryPasses(db, c)
    ensures LoadAttempt(db, db.candidates[c.candidate].attempt).Ok?
    ensures TicketsAgree(DeliveryEffect(db, c).0)
  {
    hide DeliveryGuard, FreshIds, TicketsAgree, Completes;
    DeliveryGuarded(db, c);
    var after, r := DeliveryEffect(db, c).0, db.attempts[db.candidates[c.candidate].attempt].ticketRevision;
    assert TicketAgrees(db, r) by { RevisionAgrees(db, r); }
    WithTicketAgrees(db, r, TicketDelivered);
    TicketsAgreeFramed(WithTicket(db, r, TicketDelivered), after);
  }

  lemma RevisionAgrees(db: Db, r: int)
    requires TicketsAgree(db) && r in db.ticketRevisions
    ensures TicketAgrees(db, r)
  {
  }

  lemma DeliveryIds(db: Db, c: Command)
    requires DeliveryPasses(db, c) && LoadAttempt(db, db.candidates[c.candidate].attempt).Ok?
    ensures FreshIds(DeliveryEffect(db, c).0)
  {
    hide DeliveryGuard, TicketsAgree, Completes, Linked;
    DeliveryFound(db, c);
  }

  lemma DeliveryFound(db: Db, c: Command)
    requires DeliveryPasses(db, c)
    ensures var k := db.candidates[c.candidate];
            && k.attempt in db.attempts && LoadAttempt(db, k.attempt).Ok?
            && LoadAttempt(db, k.attempt).value.row == db.attempts[k.attempt]
            && db.attempts[k.attempt].campaign in db.campaigns
            && db.attempts[k.attempt].ticketRevision in db.ticketRevisions
            && db.ticketRevisions[db.attempts[k.attempt].ticketRevision].ticket in db.tickets
  {
    hide DeliveryGuard, FreshIds;
    LoadSucceeds(db, db.candidates[c.candidate].attempt);
    assert TicketAgrees(db, db.attempts[db.candidates[c.candidate].attempt].ticketRevision);
  }

  lemma DeliveryLinks(db: Db, c: Command)
    requires DeliveryPasses(db, c)
    ensures LoadAttempt(db, db.candidates[c.candidate].attempt).Ok?
    ensures var after := DeliveryEffect(db, c).0;
            FreshIds(after) && Linked(after) && TicketsAgree(after)
  {
    hide DeliveryGuard, TicketsAgree, FreshIds, Completes;
    DeliveryFound(db, c);
    DeliveryTickets(db, c);
    DeliveryIds(db, c);
  }

  lemma DeliveryMoves(db: Db, c: Command)
    requires DeliveryPasses(db, c) && LoadAttempt(db, db.candidates[c.candidate].attempt).Ok?
    ensures var after, a := DeliveryEffect(db, c).0, db.candidates[c.candidate].attempt;
            Moves(db, after, a, c.candidate) && OnlyAbout(db, after, c.candidate)
  {
    hide DeliveryGuard, TicketsAgree, Completes;
    DeliveryGuarded(db, c);
  }

  lemma DeliveredEvidence(db: Db, after: Db, a: int, k: int, d: int)
    requires Linked(db) && EvidenceClosed(db) && Moves(db, after, a, k) && OnlyAbout(db, after, k)
    requires k in db.candidates && db.candidates[k].lifecycle == Accepted && after.candidates[k].lifecycle == Delivered
    requires d in after.deliveries && after.deliveries[d].candidate == k
    ensures Evidence(after, k)
  {
    EvidenceGrows(db, after, k);
    assert Evidence(db, k);
  }

  lemma DeliveryEvidence(db: Db, c: Command)
    requires DeliveryPasses(db, c) && LoadAttempt(db, db.candidates[c.candidate].attempt).Ok? && EvidenceClosed(db)
    ensures Evidence(DeliveryEffect(db, c).0, c.candidate)
  {
    DeliveryGuarded(db, c);
    DeliveryMoves(db, c);
    hide DeliveryGuard, FreshIds, TicketsAgree, Moves, WithTicket, Completes, OnlyAbout;
    DeliveredEvidence(db, DeliveryEffect(db, c).0, db.candidates[c.candidate].attempt, c.candidate, db.nextId);
  }

  lemma DeliveryReceipts(db: Db, c: Command)
    requires DeliveryPasses(db, c) && LoadAttempt(db, db.candidates[c.candidate].attempt).Ok?
    ensures Receipts(db, DeliveryEffect(db, c).0, AuditKey(c))
  {
    hide DeliveryGuard, TicketsAgree;
  }

  lemma DeliveryRows(db: Db, c: Command)
    requires DeliveryPasses(db, c) && LoadAttempt(db, db.candidates[c.candidate].attempt).Ok?
    ensures var after, a := DeliveryEffect(db, c).0, db.candidates[c.candidate].attempt;
            Linked(after) && Settled(after, a, c.candidate) && NewRowsExact(db, after, a, c.candidate)
  {
    hide DeliveryGuard, TicketsAgree, FreshIds, Completes, Fingerprint;
    DeliveryGuarded(db, c);
    DeliveryLinks(db, c);
  }

  lemma DeliveryOwns(db: Db, c: Command)
    requires DeliveryPasses(db, c) && LoadAttempt(db, db.candidates[c.candidate].attempt).Ok? && TicketsOwned(db)
    ensures var after, a := DeliveryEffect(db, c).0, db.candidates[c.candidate].attempt;
            Linked(after) && SameOwners(db, after) && StaysOwned(db, after, a)
  {
    hide DeliveryGuard, TicketsAgree, FreshIds, Completes, OnlyAbout;
    DeliveryGuarded(db, c);
    DeliveryLinks(db, c);
    DeliveryMoves(db, c);
  }

  lemma DeliveryRounds(db: Db, c: Command)
    requires DeliveryPasses(db, c) && LoadAttempt(db, db.candidates[c.candidate].attempt).Ok? && RoundsCounted(db)
    ensures RoundsCounted(DeliveryEffect(db, c).0)
  {
    hide DeliveryGuard, TicketsAgree, OnlyAbout;
    var after, a := DeliveryEffect(db, c).0, db.candidates[c.candidate].attempt;
    DeliveryGuarded(db, c);
    DeliveryMoves(db, c);
    assert Counted(db, a);
    MoveKeepsRounds(db, after, a, c.candidate);
  }

  /** One more delivered attempt, and completion exactly when that reaches the target. */
  lemma DeliveryTargets(db: Db, c: Command)
    requires DeliveryPasses(db, c) && LoadAttempt(db, db.candidates[c.candidate].attempt).Ok? && TargetsKept(db)
    ensures TargetsKept(DeliveryEffect(db, c).0)
  {
    hide DeliveryGuard;
    var after, a := DeliveryEffect(db, c).0, db.candidates[c.candidate].attempt;
    DeliveryGuarded(db, c);
    forall campaign | campaign in after.campaigns
      ensures TargetKept(after, campaign)
    {
      assert TargetKept(db, campaign);
      if campaign == db.attempts[a].campaign {
        assert DeliveredAttempts(after, campaign) == DeliveredAttempts(db, campaign) + {a};
      } else {
        assert DeliveredAttempts(after, campaign) == DeliveredAttempts(db, campaign);
      }
    }
  }

  lemma DeliveryUnique(db: Db, c: Command)
    requires DeliveryPasses(db, c) && LoadAttempt(db, db.candidates[c.candidate].attempt).Ok?
    requires !HasDelivery(db, c.candidate) && OneOfEach(db) && CandidatesExact(db)
    ensures var after := DeliveryEffect(db, c).0;
            Linked(after) && OneOfEach(after) && CandidateExact(after, c.candidate)
  {
    hide DeliveryGuard, TicketsAgree, FreshIds, OneOfEach, Moves, OnlyAbout, CandidatesExact, CandidateExact, Completes,
         HasDelivery, HasPassed, HasScope, HasReview, HasDecision, HasDeliverDecision;
    var after, id := DeliveryEffect(db, c).0, db.nextId;
    DeliveryGuarded(db, c);
    DeliveryLinks(db, c);
    DeliveryMoves(db, c);
    FreshRow(db);
    NewDeliveryUnique(db, after, id, after.deliveries[id]);
    MoveKeepsExact(db, after, db.candidates[c.candidate].attempt, c.candidate);
  }

  lemma Undelivered(db: Db, c: Command)
    requires DeliveryPasses(db, c)
    ensures !HasDelivery(db, c.candidate)
  {
    hide TicketsAgree, FreshIds, Completes, HasDelivery, HasDeliverDecision, HasArtifact;
    DeliveryGuarded(db, c);
  }

  lemma DeliveryKeepsInv(db: Db, c: Command)
    requires DeliveryPasses(db, c) && Inv(db)
    ensures LoadAttempt(db, db.candidates[c.candidate].attempt).Ok? && Inv(DeliveryEffect(db, c).0)
  {
    DeliveryLinks(db, c);
    var after, a := DeliveryEffect(db, c).0, db.candidates[c.candidate].attempt;
    hide *;
    Parts(db);
    DeliveryMoves(db, c);
    DeliveryReceipts(db, c);
    DeliveryEvidence(db, c);
    DeliveryRows(db, c);
    DeliveryOwns(db, c);
    DeliveryRounds(db, c);
    DeliveryTargets(db, c);
    Undelivered(db, c);
    DeliveryUnique(db, c);
    MoveKeepsInv(db, after, a, c.candidate, AuditKey(c));
  }
}
