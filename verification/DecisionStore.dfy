/** The decision store itself: one object over its tables, one method per command.

    A method is one transaction. It returns early on the first failed check, and
    only then starts to write. Each is proved equal to `Step`, so everything proved
    about runs of `Step` holds of this object. */
module DecisionStores {
  import opened Basics
  import opened Commands
  import opened Decision
  import opened DecisionInvariant
  import opened DecisionEvents
  import DecisionRuns

  predicate Reads(db: Db, a: int) {
    && LoadAttempt(db, a).Ok?
    && var view := LoadAttempt(db, a).value;
       && a in db.attempts && view.row == db.attempts[a]
       && view.row.campaign in db.campaigns && view.campaign == db.campaigns[view.row.campaign]
       && view.row.ticketRevision in db.ticketRevisions && view.ticket == db.ticketRevisions[view.row.ticketRevision]
       && view.ticket.ticket in db.tickets
  }

  lemma LoadReads(db: Db, a: int)
    ensures LoadAttempt(db, a).Ok? ==> Reads(db, a)
  {
  }

  lemma StepMayKeepInv(db: Db, c: Command)
    ensures Inv(db) ==> Inv(Step(db, c).0)
  {
    hide Inv, Step;
    if Inv(db) {
      StepKeepsInv(db, c);
    }
  }

  lemma AcceptedStep(db: Db, c: Command)
    ensures Accepts(db, c) ==>
              LockError(db, c).None? && Guard(db, c).None? && Step(db, c) == (Effect(db, c).0, Ok(Effect(db, c).1))
  {
    hide Guard, Effect, StaticError, Accepts, Step, LockError;
    if Accepts(db, c) {
      DecisionRuns.AcceptedEffect(db, c);
    }
  }

  /** The rows an accepted command is about have been found, and agree. */
  lemma Found(db: Db, c: Command)
    ensures Accepts(db, c) && c.SponsorTicket? ==>
              c.ticketRevision in db.ticketRevisions && db.ticketRevisions[c.ticketRevision].ticket in db.tickets
    ensures Accepts(db, c) && c.RecordValidation? ==> c.build in db.builds
    ensures Accepts(db, c) && c.DecideCandidate? ==> c.review in db.reviews
    ensures Accepts(db, c) && c.ReleaseTicketAttempt? ==>
              Reads(db, c.attempt) && ObservationsRegistered(db, c, LoadAttempt(db, c.attempt).value)
    ensures Accepts(db, c)
            && (c.RecordValidation? || c.SubmitQualityReview? || c.DecideCandidate? || c.RecordDelivery?) ==>
              c.candidate in db.candidates && Reads(db, db.candidates[c.candidate].attempt)
  {
    if Accepts(db, c) && (c.RecordValidation? || c.SubmitQualityReview? || c.DecideCandidate? || c.RecordDelivery?) {
      LoadReads(db, db.candidates[c.candidate].attempt);
    } else if Accepts(db, c) && c.ReleaseTicketAttempt? {
      LoadReads(db, c.attempt);
    }
    hide LoadAttempt, Fingerprint;
  }

  class DecisionStore {
    var campaigns: map<int, CampaignRow>
    var tickets: map<int, TicketRow>
    var ticketRevisions: map<int, TicketRevisionRow>
    var attempts: map<int, AttemptRow>
    var candidates: map<int, CandidateRow>
    var validations: map<int, ValidationRow>
    var reviews: map<int, ReviewRow>
    var decisions: map<int, DecisionRow>
    var deliveries: map<int, DeliveryRow>
    var sessions: map<int, SessionRow>
    var artifacts: map<int, ArtifactRow>
    var builds: map<string, int>
    var audit: map<(string, string), AuditRow>
    var nextId: int

    constructor ()
      ensures Tables() == EMPTY && Inv(Tables())
    {
      campaigns, tickets, ticketRevisions, attempts, candidates := map[], map[], map[], map[], map[];
      validations, reviews, decisions, deliveries, sessions := map[], map[], map[], map[], map[];
      artifacts, builds, audit, nextId := map[], map[], map[], 1;
      new;
      EmptyIsInv();
    }

    function Tables(): Db
      reads this
    {
      Db(campaigns, tickets, ticketRevisions, attempts, candidates, validations, reviews, decisions, deliveries,
         sessions, artifacts, builds, audit, nextId)
    }

    method InsertAudit(c: Command, subject: Subject, subjectId: int, revision: nat) returns (id: int)
      modifies this`audit, this`nextId
      ensures Tables() == old(Tables()).(audit := old(audit)[AuditKey(c) := AuditRow(old(nextId), Operation(c), Fingerprint(c), subject, subjectId, revision)],
                                         nextId := old(nextId) + 1)
      ensures id == old(nextId)
    {
      id := nextId;
      audit := audit[AuditKey(c) := AuditRow(id, Operation(c), Fingerprint(c), subject, subjectId, revision)];
      nextId := nextId + 1;
    }

    /** What every command does before it writes: its static checks, its row lock, the
        audit lookup, and its guards. An answer given here leaves every table alone. */
    method Enter(c: Command) returns (answer: Option<Answer>)
      ensures answer.Some? ==> Step(Tables(), c) == (Tables(), answer.value)
      ensures answer.None? <==> Accepts(Tables(), c)
    {
      var malformed := StaticError(c);
      if malformed.Some? { return Some(Err(malformed.value)); }
      var unlocked := LockError(Tables(), c);
      if unlocked.Some? { return Some(Err(unlocked.value)); }
      match FindAudit(Tables(), c) {
        case Conflicting => return Some(Err(IdempotencyConflict));
        case Seen(row) => return Some(Replay(Tables(), c, row));
        case Unseen =>
      }
      var refused := Guard(Tables(), c);
      if refused.Some? { return Some(Err(refused.value)); }
      answer := None;
    }

    /** `update_ticket_state_parts`: the revision row first, then its ticket. */
    method UpdateTicketState(revisionId: int, state: TicketState)
      requires revisionId in ticketRevisions && ticketRevisions[revisionId].ticket in tickets
      modifies this`tickets, this`ticketRevisions
      ensures Tables() == WithTicket(old(Tables()), revisionId, state)
    {
      var row := ticketRevisions[revisionId];
      ticketRevisions := ticketRevisions[revisionId := row.(lifecycle := state, revision := row.revision + 1)];
      tickets := tickets[row.ticket := tickets[row.ticket].(lifecycle := state, revision := row.revision + 1)];
    }

    // The writes of each transaction, in the order the store makes them.

    method WriteSubmission(c: Command) returns (receipt: Receipt)
      requires c.SubmitCandidate? && c.attempt in attempts
      modifies this
      ensures (Tables(), receipt) == SubmitEffect(old(Tables()), c)
    {
      hide Operation, Fingerprint;
      var id, attempt := nextId, attempts[c.attempt];
      nextId := nextId + 1;
      candidates := candidates[id := CandidateRow(c.attempt, c.baseCommit, c.baseTree, c.regressionTree,
                                                  c.candidateTree, c.session,
                                                  None, None, Submitted, 0)];
      var stage := if attempt.stage == Engineering then HardValidation else ReworkValidation;
      attempts := attempts[c.attempt := attempt.(candidateOrdinal := attempt.candidateOrdinal + 1, stage := stage,
                                                 revision := attempt.revision + 1)];
      var auditId := InsertAudit(c, CandidateSubject, id, 0);
      receipt := CandidateReceipt(id, Submitted, 0, auditId, false);
    }

    method WriteValidation(c: Command) returns (receipt: Receipt)
      requires c.RecordValidation? && c.candidate in candidates && candidates[c.candidate].attempt in attempts
               && c.build in builds
      modifies this
      ensures (Tables(), receipt) == ValidationEffect(old(Tables()), c)
    {
      hide Operation, Fingerprint, StageAfterValidation;
      var id, candidate := nextId, candidates[c.candidate];
      var attempt := attempts[candidate.attempt];
      nextId := nextId + 1;
      validations := validations[id := ValidationRow(c.candidate, builds[c.build], c.session, c.scope, c.pristineTree,
                                                     c.outcome)];
      var state := if c.outcome == Passed then Validated else Rejected;
      var stage := StageAfterValidation(attempt.stage, c.scope, c.outcome);
      candidates := candidates[c.candidate := candidate.(lifecycle := state, revision := candidate.revision + 1)];
      attempts := attempts[candidate.attempt := attempt.(stage := stage, revision := attempt.revision + 1)];
      var auditId := InsertAudit(c, ValidationSubject, id, candidate.revision + 1);
      receipt := ValidationReceipt(id, c.candidate, c.outcome, state, candidate.revision + 1, attempt.revision + 1,
                                   auditId, false);
    }

    method WriteAttachment(c: Command) returns (receipt: Receipt)
      requires c.AttachCandidateCommit? && c.candidate in candidates
      modifies this
      ensures (Tables(), receipt) == AttachEffect(old(Tables()), c)
    {
      hide Operation, Fingerprint;
      var candidate := candidates[c.candidate];
      nextId := nextId + 1;
      candidates := candidates[c.candidate := candidate.(commit := Some(c.candidateCommit), ref := Some(c.candidateRef),
                                                         revision := candidate.revision + 1)];
      var auditId := InsertAudit(c, CandidateSubject, c.candidate, candidate.revision + 1);
      receipt := CandidateReceipt(c.candidate, Validated, candidate.revision + 1, auditId, false);
    }

    method WriteReview(c: Command) returns (receipt: Receipt)
      requires c.SubmitQualityReview? && c.candidate in candidates && candidates[c.candidate].attempt in attempts
      modifies this
      ensures (Tables(), receipt) == ReviewEffect(old(Tables()), c)
    {
      hide Operation, Fingerprint;
      var id, candidate := nextId, candidates[c.candidate];
      var attempt := attempts[candidate.attempt];
      nextId := nextId + 1;
      reviews := reviews[id := ReviewRow(c.candidate, c.session, c.validation, c.verdict)];
      candidates := candidates[c.candidate := candidate.(revision := candidate.revision + 1)];
      attempts := attempts[candidate.attempt := attempt.(stage := AwaitingArchitect, revision := attempt.revision + 1)];
      var auditId := InsertAudit(c, ReviewSubject, id, candidate.revision + 1);
      receipt := ReviewReceipt(id, c.candidate, c.verdict, candidate.revision + 1, attempt.revision + 1, auditId,
                               false);
    }

    method WriteSponsorship(c: Command) returns (receipt: Receipt)
      requires c.SponsorTicket? && c.ticketRevision in ticketRevisions
               && ticketRevisions[c.ticketRevision].ticket in tickets
      modifies this
      ensures (Tables(), receipt) == SponsorEffect(old(Tables()), c)
    {
      hide Operation, Fingerprint;
      var id, next := nextId, ticketRevisions[c.ticketRevision].revision + 1;
      nextId := nextId + 1;
      decisions := decisions[id := SponsorDecision(c.ticketRevision)];
      UpdateTicketState(c.ticketRevision, Sponsored);
      var auditId := InsertAudit(c, DecisionSubject, id, next);
      receipt := SponsorReceipt(id, c.ticketRevision, next, auditId, false);
    }

    method WriteRelease(c: Command) returns (receipt: Receipt)
      requires c.ReleaseTicketAttempt? && Reads(Tables(), c.attempt)
               && ObservationsRegistered(Tables(), c, LoadAttempt(Tables(), c.attempt).value)
      modifies this
      ensures (Tables(), receipt) == ReleaseEffect(old(Tables()), c)
    {
      hide Operation, LoadAttempt, Classify, ObservationsRegistered, Fingerprint;
      var a := LoadAttempt(Tables(), c.attempt).value;
      var (outcome, state) := Classify(Tables(), c, a);
      var id := nextId;
      nextId := nextId + 1;
      decisions := decisions[id := ReleaseDecision(c.attempt)];
      attempts := attempts[c.attempt := a.row.(released := true, revision := a.row.revision + 1)];
      UpdateTicketState(a.row.ticketRevision, state);
      var auditId := InsertAudit(c, DecisionSubject, id, a.row.revision + 1);
      receipt := ReleaseReceipt(id, c.attempt, outcome, a.row.revision + 1, a.ticket.revision + 1, auditId, false);
    }

    method WriteDecision(c: Command) returns (receipt: Receipt)
      requires c.DecideCandidate? && c.candidate in candidates && c.review in reviews
               && Reads(Tables(), candidates[c.candidate].attempt)
      modifies this
      ensures (Tables(), receipt) == DecideEffect(old(Tables()), c)
    {
      hide Operation, LoadAttempt, Fingerprint, StateAfterChoice, StageAfterChoice;
      var candidate := candidates[c.candidate];
      var a := LoadAttempt(Tables(), candidate.attempt).value;
      var id := nextId;
      nextId := nextId + 1;
      decisions := decisions[id := CandidateDecision(c.choice, c.candidate, c.review,
                                                     reviews[c.review].verdict == RejectReview)];
      var state, stage := StateAfterChoice(c.choice), StageAfterChoice(c.choice);
      var rework := if c.choice == Rework then 1 else 0;
      var nextTicket := if c.choice == Reject then a.ticket.revision + 1 else a.ticket.revision;
      candidates := candidates[c.candidate := candidate.(lifecycle := state, revision := candidate.revision + 1)];
      attempts := attempts[candidate.attempt := a.row.(stage := stage, reworkOrdinal := a.row.reworkOrdinal + rework,
                                                       revision := a.row.revision + 1)];
      if c.choice == Reject {
        UpdateTicketState(a.row.ticketRevision, TicketRejected);
      }
      var auditId := InsertAudit(c, DecisionSubject, id, candidate.revision + 1);
      receipt := DecisionReceipt(id, c.choice, c.candidate, state, candidate.revision + 1, a.row.revision + 1,
                                 nextTicket, auditId, false);
    }

    method WriteDelivery(c: Command) returns (receipt: Receipt)
      requires c.RecordDelivery? && c.candidate in candidates && Reads(Tables(), candidates[c.candidate].attempt)
      modifies this
      ensures (Tables(), receipt) == DeliveryEffect(old(Tables()), c)
    {
      hide Operation, LoadAttempt, Fingerprint, Completes;
      var candidate := candidates[c.candidate];
      var a := LoadAttempt(Tables(), candidate.attempt).value;
      var completed := Completes(Tables(), a);
      var nextCampaign := a.campaign.revision;
      var id := nextId;
      nextId := nextId + 1;
      deliveries := deliveries[id := DeliveryRow(c.candidate, c.candidateCommit, c.expectedOldCommit, c.resultingCommit,
                                                 c.resultingTree, c.factoryCost)];
      candidates := candidates[c.candidate := candidate.(lifecycle := Delivered, revision := candidate.revision + 1)];
      attempts := attempts[candidate.attempt := a.row.(stage := AttemptDelivered, revision := a.row.revision + 1)];
      UpdateTicketState(a.row.ticketRevision, TicketDelivered);
      if completed {
        nextCampaign := nextCampaign + 1;
        campaigns := campaigns[a.row.campaign := a.campaign.(lifecycle := CampaignCompleted, revision := nextCampaign)];
      }
      var auditId := InsertAudit(c, DeliverySubject, id, candidate.revision + 1);
      receipt := DeliveryReceipt(id, c.candidate, c.factoryCost, candidate.revision + 1, a.row.revision + 1,
                                 a.ticket.revision + 1,
                                   nextCampaign, completed, auditId, false);
    }

    // The eight commands.

    method SubmitCandidate(c: Command) returns (answer: Answer)
      requires c.SubmitCandidate?
      modifies this
      ensures (Tables(), answer) == Step(old(Tables()), c)
    {
      hide Guard, StaticError, FindAudit, Step, Accepts, SubmitEffect, LoadAttempt, ObservationsRegistered;
      AcceptedStep(Tables(), c);
      var early := Enter(c);
      if early.Some? { return early.value; }
      var receipt := WriteSubmission(c);
      answer := Ok(receipt);
    }

    method RecordValidation(c: Command) returns (answer: Answer)
      requires c.RecordValidation?
      modifies this
      ensures (Tables(), answer) == Step(old(Tables()), c)
    {
      hide Guard, StaticError, FindAudit, Step, Accepts, ValidationEffect, LoadAttempt, ObservationsRegistered;
      AcceptedStep(Tables(), c);
      Found(Tables(), c);
      var early := Enter(c);
      if early.Some? { return early.value; }
      var receipt := WriteValidation(c);
      answer := Ok(receipt);
    }

    method AttachCandidateCommit(c: Command) returns (answer: Answer)
      requires c.AttachCandidateCommit?
      modifies this
      ensures (Tables(), answer) == Step(old(Tables()), c)
    {
      hide Guard, StaticError, FindAudit, Step, Accepts, AttachEffect, LoadAttempt, ObservationsRegistered;
      AcceptedStep(Tables(), c);
      var early := Enter(c);
      if early.Some? { return early.value; }
      var receipt := WriteAttachment(c);
      answer := Ok(receipt);
    }

    method SubmitQualityReview(c: Command) returns (answer: Answer)
      requires c.SubmitQualityReview?
      modifies this
      ensures (Tables(), answer) == Step(old(Tables()), c)
    {
      hide Guard, StaticError, FindAudit, Step, Accepts, ReviewEffect, LoadAttempt, ObservationsRegistered;
      AcceptedStep(Tables(), c);
      Found(Tables(), c);
      var early := Enter(c);
      if early.Some? { return early.value; }
      var receipt := WriteReview(c);
      answer := Ok(receipt);
    }

    method SponsorTicket(c: Command) returns (answer: Answer)
      requires c.SponsorTicket?
      modifies this
      ensures (Tables(), answer) == Step(old(Tables()), c)
    {
      hide Guard, StaticError, FindAudit, Step, Accepts, SponsorEffect, LoadAttempt, ObservationsRegistered;
      AcceptedStep(Tables(), c);
      Found(Tables(), c);
      var early := Enter(c);
      if early.Some? { return early.value; }
      var receipt := WriteSponsorship(c);
      answer := Ok(receipt);
    }

    method ReleaseTicketAttempt(c: Command) returns (answer: Answer)
      requires c.ReleaseTicketAttempt?
      modifies this
      ensures (Tables(), answer) == Step(old(Tables()), c)
    {
      hide Guard, StaticError, FindAudit, Step, Accepts, ReleaseEffect, LoadAttempt, ObservationsRegistered;
      AcceptedStep(Tables(), c);
      Found(Tables(), c);
      var early := Enter(c);
      if early.Some? { return early.value; }
      var receipt := WriteRelease(c);
      answer := Ok(receipt);
    }

    method DecideCandidate(c: Command) returns (answer: Answer)
      requires c.DecideCandidate?
      modifies this
      ensures (Tables(), answer) == Step(old(Tables()), c)
    {
      hide Guard, StaticError, FindAudit, Step, Accepts, DecideEffect, LoadAttempt, ObservationsRegistered;
      AcceptedStep(Tables(), c);
      Found(Tables(), c);
      var early := Enter(c);
      if early.Some? { return early.value; }
      var receipt := WriteDecision(c);
      answer := Ok(receipt);
    }

    method RecordDelivery(c: Command) returns (answer: Answer)
      requires c.RecordDelivery?
      modifies this
      ensures (Tables(), answer) == Step(old(Tables()), c)
    {
      hide Guard, StaticError, FindAudit, Step, Accepts, DeliveryEffect, LoadAttempt, ObservationsRegistered;
      AcceptedStep(Tables(), c);
      Found(Tables(), c);
      var early := Enter(c);
      if early.Some? { return early.value; }
      var receipt := WriteDelivery(c);
      answer := Ok(receipt);
    }

    /** Any command, by any method, keeps what every reachable state satisfies. */
    method Execute(c: Command) returns (answer: Answer)
      modifies this
      ensures (Tables(), answer) == Step(old(Tables()), c)
      ensures old(Inv(Tables())) ==> Inv(Tables())
    {
      hide Step, Inv;
      StepMayKeepInv(Tables(), c);
      if c.SubmitCandidate? { answer := SubmitCandidate(c); }
      else if c.RecordValidation? { answer := RecordValidation(c); }
      else if c.AttachCandidateCommit? { answer := AttachCandidateCommit(c); }
      else if c.SubmitQualityReview? { answer := SubmitQualityReview(c); }
      else if c.SponsorTicket? { answer := SponsorTicket(c); }
      else if c.ReleaseTicketAttempt? { answer := ReleaseTicketAttempt(c); }
      else if c.DecideCandidate? { answer := DecideCandidate(c); }
      else { answer := RecordDelivery(c); }
    }
  }
}
