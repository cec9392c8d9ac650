/** Runs in which the ticket store's own moves take part. A setback breaks what ties a
    candidate and its evidence to its attempt's stage; the facts below are what it leaves,
    and every command, event and move keeps them. */
module DecisionEnduring {
  import opened Basics
  import opened Commands
  import opened Decision
  import opened DecisionInvariant
  import opened DecisionFrames
  import opened DecisionSafety
  import opened DecisionEvents
  import opened DecisionSetbacks

  // -------------------------------------------------------------- the facts

  /** Failing an attempt leaves its candidate as it was. */
  predicate FitsOrFailed(stage: Stage, state: CandidateState) {
    Fits(stage, state) || stage == AttemptFailed
  }

  ghost predicate LooselyFits(db: Db)
    requires Linked(db)
  {
    forall k :: k in db.candidates && IsLive(db.candidates[k].lifecycle) ==>
      FitsOrFailed(db.attempts[db.candidates[k].attempt].stage, db.candidates[k].lifecycle)
  }

  /** The evidence a candidate has, given its state alone. */
  ghost predicate OnRecord(db: Db, k: int)
    requires k in db.candidates
  {
    var row := db.candidates[k];
    match row.lifecycle
    case Submitted =>
      && !HasScope(db, k, HardCandidate) && !HasScope(db, k, QualityFullSuite) && row.commit.None?
      && !HasReview(db, k) && !HasDecision(db, k) && !HasDelivery(db, k)
    case Validated =>
      && HasPassed(db, k, HardCandidate)
      && (HasReview(db, k) ==> HasPassed(db, k, QualityFullSuite) && row.commit.Some?)
      && !HasDecision(db, k) && !HasDelivery(db, k)
    case Accepted => Approved(db, k) && !HasDelivery(db, k)
    case Delivered => Approved(db, k) && HasDelivery(db, k)
    case Rejected => !HasDeliverDecision(db, k) && !HasDelivery(db, k)
  }

  ghost predicate AllOnRecord(db: Db) {
    forall k :: k in db.candidates ==> OnRecord(db, k)
  }

  /** At most one rework, and at most one candidate a round. */
  predicate RoundsFit(row: AttemptRow) {
    && row.reworkOrdinal <= 1 && row.stage != AttemptCancelled
    && row.reworkOrdinal <= row.candidateOrdinal <= row.reworkOrdinal + 1
    && (row.stage == Engineering ==> row.candidateOrdinal == 0)
    && (row.stage == ReworkEngineering ==> row.reworkOrdinal == 1 && row.candidateOrdinal == 1)
  }

  ghost predicate Numbered(db: Db, a: int)
    requires a in db.attempts
  {
    RoundsFit(db.attempts[a]) && |CandidatesOf(db, a)| == db.attempts[a].candidateOrdinal
  }

  ghost predicate AllNumbered(db: Db) {
    forall a :: a in db.attempts ==> Numbered(db, a)
  }

  predicate BothDelivered(a: AttemptRow, b: AttemptRow) {
    a.ticketRevision == b.ticketRevision && a.stage == AttemptDelivered && b.stage == AttemptDelivered
  }

  /** A ticket is delivered by one attempt, and is then done. */
  ghost predicate DeliveredOnce(db: Db)
    requires Linked(db)
  {
    && (forall a :: a in db.attempts && db.attempts[a].stage == AttemptDelivered ==>
          db.ticketRevisions[db.attempts[a].ticketRevision].lifecycle == TicketDelivered)
    && (forall a, b :: a in db.attempts && b in db.attempts && BothDelivered(db.attempts[a], db.attempts[b]) ==> a == b)
  }

  ghost predicate Enduring(db: Db) {
    && FreshIds(db) && Linked(db) && TicketsAgree(db)
    && OneLive(db) && LooselyFits(db) && StagesFilled(db) && AllOnRecord(db) && OneOfEach(db)
    && ValidationsExact(db) && ReviewsExact(db) && DecisionsExact(db) && DeliveriesExact(db) && CandidatesExact(db)
    && AllNumbered(db) && HoldersUnique(db) && DeliveredOnce(db) && TargetsKept(db) && ReceiptsSound(db)
  }

  lemma Facts(db: Db)
    requires Enduring(db)
    ensures FreshIds(db) && Linked(db) && TicketsAgree(db) && OneLive(db) && LooselyFits(db) && StagesFilled(db)
    ensures AllOnRecord(db) && OneOfEach(db) && ValidationsExact(db) && ReviewsExact(db) && DecisionsExact(db)
    ensures DeliveriesExact(db) && CandidatesExact(db) && AllNumbered(db) && HoldersUnique(db) && DeliveredOnce(db)
    ensures TargetsKept(db) && ReceiptsSound(db)
  {
  }

  lemma EvidenceIsOnRecord(db: Db, k: int)
    requires k in db.candidates && db.candidates[k].attempt in db.attempts && Evidence(db, k)
    ensures OnRecord(db, k)
  {
  }

  // ---------------------------------------------------- one candidate moves

  /** The moved candidate and its attempt's stage agree again, or the attempt has failed. */
  ghost predicate Placed(after: Db, a: int, k: int)
    requires a in after.attempts && k in after.candidates
  {
    if IsLive(after.candidates[k].lifecycle) then FitsOrFailed(after.attempts[a].stage, after.candidates[k].lifecycle)
    else !NeedsLive(after.attempts[a].stage)
  }

  predicate AtEngineering(stage: Stage) { stage == Engineering || stage == ReworkEngineering }

  /** No other candidate of the moved attempt is live. */
  lemma OthersAreDead(db: Db, after: Db, a: int, k: int, m: int)
    requires Linked(db) && OneLive(db) && LooselyFits(db) && Moves(db, after, a, k)
    requires k !in db.candidates ==> AtEngineering(db.attempts[a].stage)
    requires m in db.candidates && m != k && db.candidates[m].attempt == a
    ensures db.candidates[m].lifecycle == Rejected
  {
    if k in db.candidates {
      assert Rivals(db.candidates[k], db.candidates[m]) ==> k == m;
    }
  }

  lemma MoveKeepsPlaces(db: Db, after: Db, a: int, k: int)
    requires Linked(db) && Linked(after) && OneLive(db) && LooselyFits(db) && StagesFilled(db) && Moves(db, after, a, k)
    requires k !in db.candidates ==> AtEngineering(db.attempts[a].stage)
    requires Placed(after, a, k)
    ensures OneLive(after) && LooselyFits(after) && StagesFilled(after)
  {
    forall m | m in db.candidates && m != k && db.candidates[m].attempt == a
      ensures !IsLive(db.candidates[m].lifecycle)
    {
      OthersAreDead(db, after, a, k, m);
    }
    forall b | b in after.attempts && NeedsLive(after.attempts[b].stage)
      ensures HasLive(after, b)
    {
      if b == a {
        assert k in after.candidates && after.candidates[k].attempt == b && IsLive(after.candidates[k].lifecycle);
      } else {
        assert HasLive(db, b);
        var m :| m in db.candidates && db.candidates[m].attempt == b && IsLive(db.candidates[m].lifecycle);
        assert m in after.candidates && after.candidates[m] == db.candidates[m];
      }
    }
  }

  lemma MoveKeepsRecords(db: Db, after: Db, a: int, k: int)
    requires AllOnRecord(db) && Moves(db, after, a, k) && OnlyAbout(db, after, k) && OnRecord(after, k)
    ensures AllOnRecord(after)
  {
    hide SameOwners;
    forall m | m in after.candidates && m != k
      ensures OnRecord(after, m)
    {
      EvidenceFramed(db, after, k, m);
      assert OnRecord(db, m);
    }
  }

  /** Nothing is delivered, released or taken back from being delivered. */
  ghost predicate Gentle(db: Db, after: Db, a: int)
    requires a in db.attempts && a in after.attempts
  {
    && after.campaigns == db.campaigns && after.attempts[a].released == db.attempts[a].released
    && db.attempts[a].stage != AttemptDelivered && after.attempts[a].stage != AttemptDelivered
    && StaysDelivered(db, after)
  }

  ghost predicate StaysDelivered(db: Db, after: Db) {
    forall r :: r in db.ticketRevisions && db.ticketRevisions[r].lifecycle == TicketDelivered ==>
      r in after.ticketRevisions && after.ticketRevisions[r].lifecycle == TicketDelivered
  }

  lemma GentleMove(db: Db, after: Db, a: int, k: int)
    requires Linked(db) && Linked(after) && HoldersUnique(db) && DeliveredOnce(db) && TargetsKept(db)
    requires Moves(db, after, a, k) && Gentle(db, after, a)
    ensures HoldersUnique(after) && DeliveredOnce(after) && TargetsKept(after)
  {
    MoveKeepsTargets(db, after, a);
    forall b, c | b in after.attempts && c in after.attempts && BothHold(after.attempts[b], after.attempts[c])
      ensures b == c
    {
      assert BothHold(db.attempts[b], db.attempts[c]);
    }
    forall b, c | b in after.attempts && c in after.attempts && BothDelivered(after.attempts[b], after.attempts[c])
      ensures b == c
    {
      assert BothDelivered(db.attempts[b], db.attempts[c]);
    }
  }

  lemma MoveKeepsNumbers(db: Db, after: Db, a: int, k: int)
    requires AllNumbered(db) && Moves(db, after, a, k) && k in db.candidates
    requires after.attempts[a].candidateOrdinal == db.attempts[a].candidateOrdinal && RoundsFit(after.attempts[a])
    ensures AllNumbered(after)
  {
    forall b | b in after.attempts
      ensures Numbered(after, b)
    {
      SameMembers(db, after, b);
      assert Numbered(db, b);
    }
  }

  /** All parts together: what one candidate move has to establish. */
  lemma MoveEndures(db: Db, after: Db, a: int, k: int, key: (string, string))
    requires Enduring(db) && FreshIds(after) && Linked(after) && TicketsAgree(after)
    requires Moves(db, after, a, k) && OnlyAbout(db, after, k) && Placed(after, a, k)
    requires k !in db.candidates ==> AtEngineering(db.attempts[a].stage)
    requires OnRecord(after, k) && NewRowsExact(db, after, a, k) && CandidateExact(after, k) && Receipts(db, after, key)
    requires OneOfEach(after) && AllNumbered(after) && HoldersUnique(after) && DeliveredOnce(after)
             && TargetsKept(after)
    ensures Enduring(after)
  {
    hide FreshIds, Linked, TicketsAgree, OneLive, LooselyFits, StagesFilled, AllOnRecord, OneOfEach, ValidationsExact,
         ReviewsExact, DecisionsExact, DeliveriesExact, CandidatesExact, AllNumbered, HoldersUnique, DeliveredOnce,
         TargetsKept, ReceiptsSound, OnRecord, OnlyAbout, Placed, NewRowsExact, CandidateExact, Receipts, Moves;
    MoveKeepsPlaces(db, after, a, k);
    MoveKeepsRecords(db, after, a, k);
    MoveKeepsRows(db, after, a, k);
    MoveKeepsDeliveries(db, after, a, k);
    MoveKeepsCandidates(db, after, a, k);
    NewReceipt(db, after, key);
  }

  lemma SettledIsPlaced(after: Db, a: int, k: int)
    requires a in after.attempts && k in after.candidates && Settled(after, a, k)
    ensures Placed(after, a, k)
  {
  }

  // ------------------------------------------------------------------ submit

  lemma SubmitStarts(db: Db, c: Command)
    requires SubmitPasses(db, c)
    ensures AtEngineering(db.attempts[c.attempt].stage)
  {
    LoadSucceeds(db, c.attempt);
    hide TicketsAgree, LoadAttempt, FreshIds, Linked;
  }

  lemma NewcomerCounts(db: Db, after: Db, a: int, k: int)
    requires k !in db.candidates && k in after.candidates && after.candidates == db.candidates[k := after.candidates[k]]
    ensures CandidatesOf(after, a) == CandidatesOf(db, a) + (if after.candidates[k].attempt == a then {k} else {})
    ensures k !in CandidatesOf(db, a)
  {
  }

  lemma SubmitNumbers(db: Db, c: Command)
    requires SubmitPasses(db, c) && AllNumbered(db)
    ensures AllNumbered(SubmitEffect(db, c).0)
  {
    hide SubmitGuard, TicketsAgree, Linked, CandidatesOf, FreshIds, Fingerprint;
    var after := SubmitEffect(db, c).0;
    SubmitStarts(db, c);
    FreshRow(db);
    forall a | a in after.attempts
      ensures Numbered(after, a)
    {
      assert Numbered(db, a);
      NewcomerCounts(db, after, a, db.nextId);
    }
  }

  lemma SubmitIsGentle(db: Db, c: Command)
    requires SubmitPasses(db, c)
    ensures Gentle(db, SubmitEffect(db, c).0, c.attempt)
  {
    LoadSucceeds(db, c.attempt);
    hide TicketsAgree, LoadAttempt, Fingerprint, FreshIds, Linked;
  }

  lemma SubmitEndures(db: Db, c: Command)
    requires SubmitPasses(db, c) && Enduring(db)
    ensures Enduring(SubmitEffect(db, c).0)
  {
    var after := SubmitEffect(db, c).0;
    hide *;
    Facts(db);
    SubmitLinks(db, c);
    SubmitMoves(db, c);
    SubmitEvidence(db, c);
    EvidenceIsOnRecord(after, db.nextId);
    SubmitSettles(db, c);
    SettledIsPlaced(after, c.attempt, db.nextId);
    SubmitReceipts(db, c);
    SubmitStarts(db, c);
    SubmitIsGentle(db, c);
    GentleMove(db, after, c.attempt, db.nextId);
    SubmitNumbers(db, c);
    SubmitUnique(db, c);
    MoveEndures(db, after, c.attempt, db.nextId, AuditKey(c));
  }

  // -------------------------------------------------------------- validation

  lemma PassIsOnRecord(db: Db, after: Db, a: int, k: int, id: int)
    requires k in db.candidates && OnRecord(db, k) && Moves(db, after, a, k) && OnlyAbout(db, after, k)
    requires id in after.validations && after.validations[id].candidate == k && after.validations[id].outcome == Passed
    requires after.reviews == db.reviews && after.decisions == db.decisions && after.deliveries == db.deliveries
    requires after.candidates[k].lifecycle == Validated
    requires if after.validations[id].scope == HardCandidate then db.candidates[k].lifecycle == Submitted
             else db.candidates[k].lifecycle == Validated
    ensures OnRecord(after, k)
  {
    EvidenceGrows(db, after, k);
    hide OnlyAbout, SameOwners;
  }

  lemma FailureIsOnRecord(db: Db, after: Db, a: int, k: int)
    requires k in db.candidates && OnRecord(db, k) && Moves(db, after, a, k)
    requires db.candidates[k].lifecycle == Submitted || db.candidates[k].lifecycle == Validated
    requires after.decisions == db.decisions && after.deliveries == db.deliveries
             && after.candidates[k].lifecycle == Rejected
    ensures OnRecord(after, k)
  {
    hide SameOwners;
  }

  lemma ValidationIsOnRecord(db: Db, c: Command)
    requires ValidationPasses(db, c) && AllOnRecord(db)
    ensures c.build in db.builds && OnRecord(ValidationEffect(db, c).0, c.candidate)
  {
    hide ValidationGuard, FreshIds, TicketsAgree, OnRecord, Moves, OnlyAbout;
    ValidationGuarded(db, c);
    ValidationMoves(db, c);
    var after, k := ValidationEffect(db, c).0, c.candidate;
    assert OnRecord(db, k);
    if c.outcome == Passed {
      PassIsOnRecord(db, after, db.candidates[k].attempt, k, db.nextId);
    } else {
      FailureIsOnRecord(db, after, db.candidates[k].attempt, k);
    }
  }

  lemma ValidationIsGentle(db: Db, c: Command)
    requires ValidationPasses(db, c) && AllNumbered(db)
    ensures c.build in db.builds
    ensures var after, a := ValidationEffect(db, c).0, db.candidates[c.candidate].attempt;
            && a in after.attempts && Gentle(db, after, a) && RoundsFit(after.attempts[a])
            && after.attempts[a].candidateOrdinal == db.attempts[a].candidateOrdinal
  {
    hide ValidationGuard, FreshIds, TicketsAgree, Fingerprint;
    ValidationGuarded(db, c);
    assert Numbered(db, db.candidates[c.candidate].attempt);
  }

  lemma ValidationEndures(db: Db, c: Command)
    requires ValidationPasses(db, c) && Enduring(db)
    ensures c.build in db.builds && Enduring(ValidationEffect(db, c).0)
  {
    ValidationLinks(db, c);
    var after, a := ValidationEffect(db, c).0, db.candidates[c.candidate].attempt;
    hide *;
    Facts(db);
    ValidationMoves(db, c);
    ValidationIsOnRecord(db, c);
    ValidationRows(db, c);
    SettledIsPlaced(after, a, c.candidate);
    ValidationIsGentle(db, c);
    GentleMove(db, after, a, c.candidate);
    MoveKeepsNumbers(db, after, a, c.candidate);
    ValidationReceipts(db, c);
    ValidationUnique(db, c);
    MoveEndures(db, after, a, c.candidate, AuditKey(c));
  }

  // ------------------------------------------------------------------ attach

  lemma AttachIsOnRecord(db: Db, c: Command)
    requires AttachPasses(db, c) && AllOnRecord(db)
    ensures OnRecord(AttachEffect(db, c).0, c.candidate)
  {
    hide Moves;
    hide LoadAttempt, FreshIds, TicketsAgree;
    AttachMoves(db, c);
    EvidenceGrows(db, AttachEffect(db, c).0, c.candidate);
    assert OnRecord(db, c.candidate);
  }

  /** Attaching asks for no stage; a failed attempt's candidate can still be given its commit. */
  lemma AttachIsPlaced(db: Db, c: Command)
    requires AttachPasses(db, c) && LooselyFits(db) && AllNumbered(db)
    ensures var after, a := AttachEffect(db, c).0, db.candidates[c.candidate].attempt;
            && a in db.attempts && after.attempts == db.attempts && Gentle(db, after, a)
            && Placed(after, a, c.candidate) && RoundsFit(after.attempts[a]) && Linked(after)
            && NewRowsExact(db, after, a, c.candidate)
  {
    hide FreshIds, TicketsAgree, LoadAttempt, HasPassed;
    AttachLinks(db, c);
    var a := db.candidates[c.candidate].attempt;
    assert FitsOrFailed(db.attempts[a].stage, Validated);
    assert Numbered(db, a);
  }

  lemma AttachEndures(db: Db, c: Command)
    requires AttachPasses(db, c) && Enduring(db)
    ensures Enduring(AttachEffect(db, c).0)
  {
    AttachLinks(db, c);
    var after, a := AttachEffect(db, c).0, db.candidates[c.candidate].attempt;
    hide *;
    Facts(db);
    AttachMoves(db, c);
    AttachReceipts(db, c);
    AttachIsOnRecord(db, c);
    AttachIsPlaced(db, c);
    GentleMove(db, after, a, c.candidate);
    MoveKeepsNumbers(db, after, a, c.candidate);
    AttachUnique(db, c);
    MoveEndures(db, after, a, c.candidate, AuditKey(c));
  }

  // ------------------------------------------------------------------ review

  lemma ReviewIsOnRecord(db: Db, c: Command)
    requires ReviewPasses(db, c) && AllOnRecord(db)
    ensures OnRecord(ReviewEffect(db, c).0, c.candidate)
  {
    hide ReviewGuard, FreshIds, TicketsAgree, Moves, OnlyAbout;
    ReviewGuarded(db, c);
    ReviewMoves(db, c);
    EvidenceGrows(db, ReviewEffect(db, c).0, c.candidate);
    assert OnRecord(db, c.candidate);
    assert HasPassed(db, c.candidate, QualityFullSuite);
  }

  lemma ReviewIsGentle(db: Db, c: Command)
    requires ReviewPasses(db, c) && AllNumbered(db)
    ensures var after, a := ReviewEffect(db, c).0, db.candidates[c.candidate].attempt;
            && a in after.attempts && Gentle(db, after, a) && RoundsFit(after.attempts[a])
            && after.attempts[a].candidateOrdinal == db.attempts[a].candidateOrdinal
  {
    hide ReviewGuard, FreshIds, TicketsAgree, HasReview, Fingerprint;
    ReviewGuarded(db, c);
    assert Numbered(db, db.candidates[c.candidate].attempt);
  }

  lemma ReviewEndures(db: Db, c: Command)
    requires ReviewPasses(db, c) && Enduring(db)
    ensures Enduring(ReviewEffect(db, c).0)
  {
    var after, a := ReviewEffect(db, c).0, db.candidates[c.candidate].attempt;
    hide *;
    Facts(db);
    ReviewLinks(db, c);
    ReviewMoves(db, c);
    ReviewReceipts(db, c);
    ReviewIsOnRecord(db, c);
    ReviewRows(db, c);
    SettledIsPlaced(after, a, c.candidate);
    ReviewIsGentle(db, c);
    GentleMove(db, after, a, c.candidate);
    MoveKeepsNumbers(db, after, a, c.candidate);
    ReviewUnique(db, c);
    MoveEndures(db, after, a, c.candidate, AuditKey(c));
  }

  // ---------------------------------------------------------------- decision

  lemma NoDecisionYet(db: Db, k: int)
    requires AllOnRecord(db) && k in db.candidates && db.candidates[k].lifecycle == Validated
    ensures !HasDecision(db, k) && !HasDelivery(db, k)
  {
    assert OnRecord(db, k);
    hide HasDecision, HasDelivery, HasPassed, HasReview, HasScope;
  }

  lemma DecideIsOnRecord(db: Db, after: Db, c: Command)
    requires DecidePasses(db, c) && c.review in db.reviews && Decided(db, after, c) && AllOnRecord(db)
    ensures OnRecord(after, c.candidate)
  {
    hide DecideGuard, FreshIds, TicketsAgree, LoadAttempt, SameOwners, Linked, Moves, HasPassed;
    var k := c.candidate;
    DecideGuarded(db, c);
    DecideMoves(db, after, c);
    NoDecisionYet(db, k);
    EvidenceGrows(db, after, k);
    hide OnlyAbout, AllOnRecord;
    assert HasReview(db, k);
    if c.choice == Deliver {
      assert HasDeliverDecision(after, k) by { assert db.nextId in after.decisions; }
    }
  }

  lemma DecideIsGentle(db: Db, after: Db, c: Command)
    requires DecidePasses(db, c) && c.review in db.reviews && Decided(db, after, c) && AllNumbered(db)
    ensures var a := db.candidates[c.candidate].attempt;
            && a in after.attempts && Gentle(db, after, a) && RoundsFit(after.attempts[a])
            && after.attempts[a].candidateOrdinal == db.attempts[a].candidateOrdinal
  {
    hide DecideGuard, FreshIds, TicketsAgree, LoadAttempt, HasPassed;
    DecideGuarded(db, c);
    var a := db.candidates[c.candidate].attempt;
    assert Numbered(db, a);
    assert c.candidate in CandidatesOf(db, a);
    assert SameOwners(db, after);
  }

  lemma DecideEndures(db: Db, c: Command)
    requires DecidePasses(db, c) && Enduring(db)
    ensures LoadAttempt(db, db.candidates[c.candidate].attempt).Ok? && c.review in db.reviews
    ensures Enduring(DecideEffect(db, c).0)
  {
    DecideLinks(db, c);
    var after, a := DecideEffect(db, c).0, db.candidates[c.candidate].attempt;
    hide *;
    Facts(db);
    DecideGuarded(db, c);
    DecideTickets(db, c);
    DecideMoves(db, after, c);
    DecideIds(db, after, c);
    DecideReceipts(db, after, c);
    DecideIsOnRecord(db, after, c);
    DecideRows(db, after, c);
    SettledIsPlaced(after, a, c.candidate);
    DecideExact(db, after, c);
    DecideIsGentle(db, after, c);
    GentleMove(db, after, a, c.candidate);
    MoveKeepsNumbers(db, after, a, c.candidate);
    NoDecisionYet(db, c.candidate);
    DecideUnique(db, after, c);
    MoveEndures(db, after, a, c.candidate, AuditKey(c));
  }

  // ---------------------------------------------------------------- delivery

  lemma DeliveredIsOnRecord(db: Db, after: Db, a: int, k: int, d: int)
    requires k in db.candidates && OnRecord(db, k) && Moves(db, after, a, k) && OnlyAbout(db, after, k)
    requires db.candidates[k].lifecycle == Accepted && after.candidates[k].lifecycle == Delivered
    requires d in after.deliveries && after.deliveries[d].candidate == k
    ensures OnRecord(after, k)
  {
    EvidenceGrows(db, after, k);
  }

  lemma DeliveryIsOnRecord(db: Db, c: Command)
    requires DeliveryPasses(db, c) && LoadAttempt(db, db.candidates[c.candidate].attempt).Ok? && AllOnRecord(db)
    ensures OnRecord(DeliveryEffect(db, c).0, c.candidate)
  {
    DeliveryGuarded(db, c);
    DeliveryMoves(db, c);
    assert OnRecord(db, c.candidate);
    hide DeliveryGuard, FreshIds, TicketsAgree, Moves, WithTicket, Completes, OnlyAbout, OnRecord, LoadAttempt,
         Fingerprint;
    DeliveredIsOnRecord(db, DeliveryEffect(db, c).0, db.candidates[c.candidate].attempt, c.candidate, db.nextId);
  }

  lemma TicketInFlight(db: Db, c: Command)
    requires DeliveryPasses(db, c)
    ensures db.ticketRevisions[db.attempts[db.candidates[c.candidate].attempt].ticketRevision].lifecycle == InFlight
  {
    LoadSucceeds(db, db.candidates[c.candidate].attempt);
  }

  /** The attempt and its ticket in flight become delivered. */
  ghost predicate Delivers(db: Db, after: Db, a: int)
    requires a in db.attempts
  {
    var r := db.attempts[a].ticketRevision;
    && a in after.attempts && after.attempts == db.attempts[a := after.attempts[a]]
    && after.attempts[a] == db.attempts[a].(stage := AttemptDelivered, revision := db.attempts[a].revision + 1)
    && r in db.ticketRevisions && db.ticketRevisions[r].lifecycle == InFlight
    && r in after.ticketRevisions && after.ticketRevisions[r].lifecycle == TicketDelivered
    && db.attempts[a].stage == AwaitingArchitect && StaysDelivered(db, after)
  }

  lemma DeliveryDelivers(db: Db, c: Command)
    requires DeliveryPasses(db, c) && LoadAttempt(db, db.candidates[c.candidate].attempt).Ok?
    ensures Delivers(db, DeliveryEffect(db, c).0, db.candidates[c.candidate].attempt)
  {
    hide DeliveryGuard, TicketsAgree, FreshIds, Completes, Fingerprint;
    DeliveryGuarded(db, c);
    TicketInFlight(db, c);
  }

  /** The ticket was in flight, so no attempt had delivered it. */
  lemma DeliversOnce(db: Db, after: Db, a: int)
    requires Linked(db) && Linked(after) && DeliveredOnce(db) && HoldersUnique(db) && AllNumbered(db)
    requires a in db.attempts && Delivers(db, after, a)
    ensures DeliveredOnce(after) && HoldersUnique(after) && RoundsFit(after.attempts[a])
  {
    assert Numbered(db, a);
    forall b, c | b in after.attempts && c in after.attempts && BothHold(after.attempts[b], after.attempts[c])
      ensures b == c
    {
      assert BothHold(db.attempts[b], db.attempts[c]);
    }
    forall b, c | b in after.attempts && c in after.attempts && BothDelivered(after.attempts[b], after.attempts[c])
      ensures b == c
    {
      assert b != a && c != a ==> BothDelivered(db.attempts[b], db.attempts[c]);
    }
  }

  lemma DeliverySettles(db: Db, c: Command)
    requires DeliveryPasses(db, c) && Enduring(db)
    ensures LoadAttempt(db, db.candidates[c.candidate].attempt).Ok?
    ensures var after := DeliveryEffect(db, c).0;
            && Linked(after) && DeliveredOnce(after) && HoldersUnique(after)
            && RoundsFit(after.attempts[db.candidates[c.candidate].attempt])
  {
    DeliveryLinks(db, c);
    var after, a := DeliveryEffect(db, c).0, db.candidates[c.candidate].attempt;
    hide *;
    Facts(db);
    DeliveryDelivers(db, c);
    DeliversOnce(db, after, a);
  }

  lemma DeliveryNumbers(db: Db, c: Command)
    requires DeliveryPasses(db, c) && Enduring(db)
    ensures LoadAttempt(db, db.candidates[c.candidate].attempt).Ok? && AllNumbered(DeliveryEffect(db, c).0)
  {
    DeliveryLinks(db, c);
    var after, a := DeliveryEffect(db, c).0, db.candidates[c.candidate].attempt;
    hide Enduring, DeliveryGuard, DeliveryEffect, FreshIds, TicketsAgree, HoldersUnique, DeliveredOnce, AllNumbered,
         LoadAttempt, StaysDelivered, RoundsFit, Fingerprint, Moves, Linked;
    Facts(db);
    DeliveryMoves(db, c);
    DeliveryDelivers(db, c);
    DeliverySettles(db, c);
    MoveKeepsNumbers(db, after, a, c.candidate);
  }

  lemma DeliveryEndures(db: Db, c: Command)
    requires DeliveryPasses(db, c) && Enduring(db)
    ensures LoadAttempt(db, db.candidates[c.candidate].attempt).Ok? && Enduring(DeliveryEffect(db, c).0)
  {
    DeliveryLinks(db, c);
    var after, a := DeliveryEffect(db, c).0, db.candidates[c.candidate].attempt;
    hide *;
    Facts(db);
    DeliveryMoves(db, c);
    DeliveryReceipts(db, c);
    DeliveryIsOnRecord(db, c);
    DeliveryRows(db, c);
    SettledIsPlaced(after, a, c.candidate);
    DeliverySettles(db, c);
    DeliveryNumbers(db, c);
    DeliveryTargets(db, c);
    Undelivered(db, c);
    DeliveryUnique(db, c);
    MoveEndures(db, after, a, c.candidate, AuditKey(c));
  }
}
