/** The rest of the system as the decision store sees it: other stores publish and
    claim tickets, run sessions, register artifacts and open, fund and close
    campaigns. Interleaving those with the eight commands gives every run. */
module DecisionEvents {
  import opened Basics
  import opened Commands
  import opened Decision
  import opened DecisionInvariant
  import opened DecisionFrames
  import opened DecisionSafety

  datatype Event =
    | Ask(command: Command)
    | NewTicket(application: int, reproducer: int, expected: int, discovery: int)
    | Claim(ticketRevision: int, campaign: int, commit: string, tree: string)
    | SettleClaim(ticketRevision: int, state: TicketState)
    | SetSession(session: int, sessionRow: SessionRow)
    | RegisterArtifact(artifact: int, artifactRow: ArtifactRow)
    | RegisterBuild(digest: string, build: int)
    | StartCampaign(campaignBuild: int, target: int)
    | StopCampaign(campaign: int, lifecycle: CampaignState)
    | CompleteCampaign(campaign: int)
    | Measure(campaign: int, costState: CostState, cost: nat, revision: nat)
    | OtherReceipt(key: (string, string), row: AuditRow)

  predicate IsDecisionOperation(operation: string) {
    || operation == "candidate.submit" || operation == "validation.record" || operation == "candidate.commit.attach"
    || operation == "quality.review.submit" || operation == "architect.ticket.sponsor"
    || operation == "architect.ticket.release" || operation == "architect.candidate.decide" || operation == "delivery.record"
  }

  /** What the other stores check before they write. */
  ghost predicate Enabled(db: Db, e: Event) {
    match e
    case Ask(_) => true
    case NewTicket(_, _, _, _) => true
    case Claim(r, campaign, _, _) =>
      && r in db.ticketRevisions && db.ticketRevisions[r].lifecycle == Sponsored
      && db.ticketRevisions[r].ticket in db.tickets
      && campaign in db.campaigns && db.campaigns[campaign].lifecycle == CampaignRunning
      && (forall a :: a in db.attempts && db.attempts[a].ticketRevision == r ==> db.attempts[a].released)
    case SettleClaim(r, state) =>
      && r in db.ticketRevisions && db.ticketRevisions[r].lifecycle == Sponsored
      && db.ticketRevisions[r].ticket in db.tickets
      && (state == Resolved || state == Blocked)
    case SetSession(s, row) =>
      s in db.sessions ==> db.sessions[s].campaign == row.campaign && db.sessions[s].office == row.office
    case RegisterArtifact(a, _) => a !in db.artifacts
    case RegisterBuild(digest, _) => digest !in db.builds
    case StartCampaign(_, target) =>
      target >= 1 && forall c :: c in db.campaigns ==> db.campaigns[c].lifecycle != CampaignRunning
    case StopCampaign(c, state) =>
      && c in db.campaigns && db.campaigns[c].lifecycle == CampaignRunning
      && (state == CampaignFailed || state == CampaignCancelled)
    case CompleteCampaign(c) =>
      && c in db.campaigns && db.campaigns[c].lifecycle == CampaignRunning
      && |DeliveredAttempts(db, c)| >= db.campaigns[c].target
    case Measure(c, _, _, revision) => c in db.campaigns && db.campaigns[c].revision <= revision
    case OtherReceipt(key, row) => key !in db.audit && !IsDecisionOperation(row.operation)
  }

  function Apply(db: Db, e: Event): Db
    requires Enabled(db, e)
  {
    match e
    case Ask(c) => Step(db, c).0
    case NewTicket(application, reproducer, expected, discovery) =>
      db.(tickets := db.tickets[db.nextId := TicketRow(Proposed, 0, db.nextId + 1)],
          ticketRevisions := db.ticketRevisions[db.nextId + 1 :=
            TicketRevisionRow(db.nextId, application, reproducer, Proposed, 0, expected, discovery)],
          nextId := db.nextId + 2)
    case Claim(r, campaign, commit, tree) =>
      WithTicket(db, r, InFlight)
        .(attempts := db.attempts[db.nextId := AttemptRow(r, campaign, commit, tree, Engineering, 0, 0, false, 0)],
          nextId := db.nextId + 1)
    case SettleClaim(r, state) => WithTicket(db, r, state)
    case SetSession(s, row) => db.(sessions := db.sessions[s := row])
    case RegisterArtifact(a, row) => db.(artifacts := db.artifacts[a := row])
    case RegisterBuild(digest, id) => db.(builds := db.builds[digest := id])
    case StartCampaign(build, target) =>
      db.(campaigns := db.campaigns[db.nextId := CampaignRow(build, CampaignRunning, 0, target, CostKnown, 0)],
          nextId := db.nextId + 1)
    case StopCampaign(c, state) =>
      db.(campaigns := db.campaigns[c := db.campaigns[c].(lifecycle := state,
                                                          revision := db.campaigns[c].revision + 1)])
    case CompleteCampaign(c) =>
      db.(campaigns := db.campaigns[c := db.campaigns[c].(lifecycle := CampaignCompleted,
                                                          revision := db.campaigns[c].revision + 1)])
    case Measure(c, costState, cost, revision) =>
      db.(campaigns := db.campaigns[c := db.campaigns[c].(costState := costState, cost := cost, revision := revision)])
    case OtherReceipt(key, row) => db.(audit := db.audit[key := row])
  }

  // ---------------------------------------------------- no candidate moves

  /** No candidate or evidence changes, no stage changes, and every new attempt is
      an untouched claim. */
  ghost predicate Rests(db: Db, after: Db) {
    && after.candidates == db.candidates && after.validations == db.validations
    && after.reviews == db.reviews && after.deliveries == db.deliveries
    && (forall d :: d in db.decisions ==> d in after.decisions && after.decisions[d] == db.decisions[d])
    && (forall d :: d in after.decisions && d !in db.decisions ==> !after.decisions[d].CandidateDecision?)
    && (forall a :: a in db.attempts ==> a in after.attempts && SameRound(db.attempts[a], after.attempts[a]))
    && (forall a :: a in after.attempts && a !in db.attempts ==> Untouched(after.attempts[a]))
    && (forall r :: r in db.ticketRevisions ==>
          r in after.ticketRevisions && after.ticketRevisions[r].ticket == db.ticketRevisions[r].ticket)
    && (forall c :: c in db.campaigns ==> c in after.campaigns && after.campaigns[c].build == db.campaigns[c].build)
  }

  predicate SameRound(a: AttemptRow, b: AttemptRow) {
    SameAttempt(a, b) && a.stage == b.stage && a.reworkOrdinal == b.reworkOrdinal
    && a.candidateOrdinal == b.candidateOrdinal
  }

  predicate Untouched(a: AttemptRow) {
    a.stage == Engineering && a.candidateOrdinal == 0 && a.reworkOrdinal == 0 && !a.released
  }

  lemma RestKeepsLiveness(db: Db, after: Db)
    requires Linked(db) && Linked(after) && OneLive(db) && LiveFits(db) && StagesFilled(db) && Rests(db, after)
    ensures OneLive(after) && LiveFits(after) && StagesFilled(after)
  {
    forall a | a in after.attempts && NeedsLive(after.attempts[a].stage)
      ensures HasLive(after, a)
    {
      assert HasLive(db, a);
      var m :| m in db.candidates && db.candidates[m].attempt == a && IsLive(db.candidates[m].lifecycle);
      assert m in after.candidates;
    }
  }

  /** What is on record about each candidate. */
  ghost predicate SameFacts(db: Db, after: Db) {
    && (forall k :: HasDecision(after, k) == HasDecision(db, k) && HasDeliverDecision(after, k) == HasDeliverDecision(db, k))
    && (forall k :: HasReview(after, k) == HasReview(db, k) && HasDelivery(after, k) == HasDelivery(db, k))
    && (forall k, s :: HasScope(after, k, s) == HasScope(db, k, s) && HasPassed(after, k, s) == HasPassed(db, k, s))
  }

  lemma RestKeepsFacts(db: Db, after: Db)
    requires Rests(db, after)
    ensures SameFacts(db, after)
  {
  }

  lemma RestKeepsCandidateEvidence(db: Db, after: Db, k: int)
    requires Linked(db) && EvidenceClosed(db) && Rests(db, after) && SameFacts(db, after) && k in after.candidates
    ensures Evidence(after, k)
  {
    hide HasDecision, HasDeliverDecision, HasReview, HasDelivery, HasScope, HasPassed;
    assert Evidence(db, k);
  }

  lemma RestKeepsEvidence(db: Db, after: Db)
    requires Linked(db) && Linked(after) && EvidenceClosed(db) && OneOfEach(db) && Rests(db, after)
    ensures EvidenceClosed(after) && OneOfEach(after)
  {
    hide Evidence;
    RestKeepsFacts(db, after);
    forall k | k in after.candidates
      ensures Evidence(after, k)
    {
      RestKeepsCandidateEvidence(db, after, k);
    }
  }

  lemma RestKeepsRows(db: Db, after: Db)
    requires Linked(db) && Linked(after) && Rests(db, after)
    requires ValidationsExact(db) && ReviewsExact(db) && DecisionsExact(db)
    ensures ValidationsExact(after) && ReviewsExact(after) && DecisionsExact(after)
  {
  }

  lemma RestKeepsCandidates(db: Db, after: Db)
    requires Linked(db) && Linked(after) && Rests(db, after) && DeliveriesExact(db) && CandidatesExact(db)
    ensures DeliveriesExact(after) && CandidatesExact(after)
  {
    forall k | k in after.candidates
      ensures CandidateExact(after, k)
    {
      assert CandidateExact(db, k);
    }
  }

  lemma RestKeepsRounds(db: Db, after: Db)
    requires Linked(db) && RoundsCounted(db) && Rests(db, after)
    ensures RoundsCounted(after)
  {
    forall a | a in after.attempts
      ensures Counted(after, a)
    {
      assert CandidatesOf(after, a) == CandidatesOf(db, a);
      if a in db.attempts {
        assert Counted(db, a);
      } else {
        assert forall k :: k in db.candidates ==> db.candidates[k].attempt != a;
        assert CandidatesOf(db, a) == {};
      }
    }
  }

  ghost predicate ReceiptsKept(db: Db, after: Db) {
    forall key :: key in after.audit ==> (key in db.audit && after.audit[key] == db.audit[key]) || SubjectExists(after, after.audit[key])
  }

  lemma RestKeepsReceipts(db: Db, after: Db)
    requires ReceiptsSound(db) && Rests(db, after) && ReceiptsKept(db, after)
    ensures ReceiptsSound(after)
  {
    forall key | key in after.audit
      ensures SubjectExists(after, after.audit[key])
    {
      if key in db.audit && after.audit[key] == db.audit[key] {
        assert SubjectExists(db, db.audit[key]);
      }
    }
  }

  lemma RestKeepsInv(db: Db, after: Db)
    requires Inv(db) && FreshIds(after) && Linked(after) && TicketsAgree(after) && Rests(db, after)
    requires TicketsOwned(after) && TargetsKept(after)
    requires ReceiptsKept(db, after)
    ensures Inv(after)
  {
    hide FreshIds, Linked, TicketsAgree, OneLive, LiveFits, StagesFilled, EvidenceClosed, OneOfEach, ValidationsExact,
         ReviewsExact, DecisionsExact, DeliveriesExact, CandidatesExact, RoundsCounted, TargetsKept, ReceiptsSound,
         TicketsOwned, Rests, SubjectExists;
    RestKeepsLiveness(db, after);
    RestKeepsEvidence(db, after);
    RestKeepsRows(db, after);
    RestKeepsCandidates(db, after);
    RestKeepsRounds(db, after);
    RestKeepsReceipts(db, after);
  }

  // ------------------------------------------------- sponsorship and release

  lemma TicketRests(db: Db, r: int, state: TicketState)
    requires FreshIds(db) && Linked(db) && TicketsAgree(db) && r in db.ticketRevisions
    ensures db.ticketRevisions[r].ticket in db.tickets
    ensures var after := WithTicket(db, r, state);
            FreshIds(after) && Linked(after) && TicketsAgree(after) && Rests(db, after)
  {
    assert TicketAgrees(db, r);
    WithTicketAgrees(db, r, state);
    hide TicketsAgree;
  }

  lemma TargetsFramed(db: Db, after: Db)
    requires TargetsKept(db) && after.campaigns == db.campaigns
    requires forall a :: a in db.attempts ==> a in after.attempts && SameRound(db.attempts[a], after.attempts[a])
    requires forall a :: a in after.attempts && a !in db.attempts ==> Untouched(after.attempts[a])
    ensures TargetsKept(after)
  {
    forall c | c in after.campaigns
      ensures TargetKept(after, c)
    {
      forall a
        ensures a in DeliveredAttempts(after, c) <==> a in DeliveredAttempts(db, c)
      {
        assert a in db.attempts ==> SameRound(db.attempts[a], after.attempts[a]);
      }
      assert DeliveredAttempts(after, c) == DeliveredAttempts(db, c);
      assert TargetKept(db, c);
    }
  }

  predicate Idle(db: Db, r: int) {
    forall a :: a in db.attempts && db.attempts[a].ticketRevision == r ==> !Unfinished(db.attempts[a].stage)
  }

  lemma TicketMoveOwned(db: Db, after: Db, r: int)
    requires Linked(db) && Linked(after) && TicketsOwned(db) && after.attempts == db.attempts && Idle(db, r)
    requires forall q :: q in db.ticketRevisions && q != r ==>
               q in after.ticketRevisions && after.ticketRevisions[q].lifecycle == db.ticketRevisions[q].lifecycle
    ensures TicketsOwned(after)
  {
  }

  /** Moving a ticket that no unfinished attempt is working on. */
  lemma TicketMoveKeepsInv(db: Db, r: int, state: TicketState)
    requires Inv(db) && r in db.ticketRevisions && Idle(db, r)
    ensures db.ticketRevisions[r].ticket in db.tickets && Inv(WithTicket(db, r, state))
  {
    hide Inv, OneLive, LiveFits, StagesFilled, EvidenceClosed, OneOfEach, ValidationsExact, TicketsOwned, Linked, Idle,
         ReviewsExact, DecisionsExact, DeliveriesExact, CandidatesExact, RoundsCounted, TargetsKept, ReceiptsSound,
         FreshIds, TicketsAgree, SubjectExists, Rests;
    Parts(db);
    TicketRests(db, r, state);
    var after := WithTicket(db, r, state);
    TicketMoveOwned(db, after, r);
    TargetsFramed(db, after);
    RestKeepsInv(db, after);
  }

  /** A decision about a ticket or an attempt, with its receipt. */
  function Noted(db: Db, c: Command, row: DecisionRow, revision: nat): Db {
    db.(decisions := db.decisions[db.nextId := row], audit := Receipted(db, c, DecisionSubject, db.nextId, revision),
        nextId := db.nextId + 2)
  }

  predicate Notes(db: Db, c: Command, row: DecisionRow) {
    || (c.SponsorTicket? && row == SponsorDecision(c.ticketRevision) && c.ticketRevision in db.ticketRevisions)
    || (c.ReleaseTicketAttempt? && row == ReleaseDecision(c.attempt) && c.attempt in db.attempts)
  }

  lemma NoteIds(db: Db, c: Command, row: DecisionRow, revision: nat)
    requires FreshIds(db) && Notes(db, c, row)
    ensures FreshIds(Noted(db, c, row, revision))
  {
    hide Linked, Fingerprint;
  }

  lemma NoteLinks(db: Db, c: Command, row: DecisionRow, revision: nat)
    requires Linked(db) && Notes(db, c, row)
    ensures Linked(Noted(db, c, row, revision))
  {
    hide FreshIds, Fingerprint;
  }

  lemma NoteRests(db: Db, c: Command, row: DecisionRow, revision: nat)
    requires FreshIds(db) && Linked(db) && Notes(db, c, row)
    ensures var after := Noted(db, c, row, revision);
            FreshIds(after) && Linked(after) && SubjectExists(after, after.audit[AuditKey(c)])
  {
    hide FreshIds, Linked;
    NoteIds(db, c, row, revision);
    NoteLinks(db, c, row, revision);
  }

  lemma NotingRests(db: Db, c: Command, row: DecisionRow, revision: nat)
    requires FreshIds(db) && Linked(db) && Notes(db, c, row)
    ensures Rests(db, Noted(db, c, row, revision))
  {
  }

  lemma NoteOwned(db: Db, after: Db)
    requires Linked(db) && Linked(after) && TicketsOwned(db)
    requires after.attempts == db.attempts && after.ticketRevisions == db.ticketRevisions
    ensures TicketsOwned(after)
  {
  }

  lemma NoteKeepsInv(db: Db, c: Command, row: DecisionRow, revision: nat)
    requires Inv(db) && Notes(db, c, row)
    ensures Inv(Noted(db, c, row, revision))
  {
    var after := Noted(db, c, row, revision);
    hide Inv, OneLive, LiveFits, StagesFilled, EvidenceClosed, OneOfEach, ValidationsExact, TicketsOwned, Linked,
         ReviewsExact, DecisionsExact, DeliveriesExact, CandidatesExact, RoundsCounted, TargetsKept, ReceiptsSound,
         FreshIds, TicketsAgree, SubjectExists, Rests;
    Parts(db);
    NoteRests(db, c, row, revision);
    NotingRests(db, c, row, revision);
    NoteOwned(db, after);
    TicketsAgreeFramed(db, after);
    TargetsFramed(db, after);
    RestKeepsInv(db, after);
  }

  lemma SponsorIdle(db: Db, c: Command)
    requires c.SponsorTicket? && c.ticketRevision in db.ticketRevisions && SponsorGuard(db, c).None?
    requires Linked(db) && TicketsOwned(db)
    ensures Idle(db, c.ticketRevision)
  {
  }

  lemma SponsorShape(db: Db, c: Command)
    requires c.SponsorTicket? && c.ticketRevision in db.ticketRevisions
             && db.ticketRevisions[c.ticketRevision].ticket in db.tickets
    ensures var middle, row := WithTicket(db, c.ticketRevision, Sponsored), SponsorDecision(c.ticketRevision);
            Notes(middle, c, row)
            && SponsorEffect(db, c).0 == Noted(middle, c, row, db.ticketRevisions[c.ticketRevision].revision + 1)
  {
  }

  lemma SponsorKeepsInv(db: Db, c: Command)
    requires c.SponsorTicket? && c.ticketRevision in db.ticketRevisions && SponsorGuard(db, c).None? && Inv(db)
    ensures db.ticketRevisions[c.ticketRevision].ticket in db.tickets && Inv(SponsorEffect(db, c).0)
  {
    hide *;
    var r := c.ticketRevision;
    Parts(db);
    SponsorIdle(db, c);
    TicketMoveKeepsInv(db, r, Sponsored);
    SponsorShape(db, c);
    NoteKeepsInv(WithTicket(db, r, Sponsored), c, SponsorDecision(r), db.ticketRevisions[r].revision + 1);
  }

  ghost predicate ReleasePasses(db: Db, c: Command) {
    c.ReleaseTicketAttempt? && c.attempt in db.attempts && ReleaseGuard(db, c).None?
  }

  lemma ReleaseGuarded(db: Db, c: Command)
    requires ReleasePasses(db, c) && Linked(db) && TicketsAgree(db)
    ensures LoadAttempt(db, c.attempt) == Ok(AttemptView(db.attempts[c.attempt],
              db.ticketRevisions[db.attempts[c.attempt].ticketRevision].ticket,
              db.ticketRevisions[db.attempts[c.attempt].ticketRevision], db.campaigns[db.attempts[c.attempt].campaign]))
    ensures ObservationsRegistered(db, c, LoadAttempt(db, c.attempt).value)
    ensures !db.attempts[c.attempt].released
    ensures db.attempts[c.attempt].stage == AttemptFailed || db.attempts[c.attempt].stage == AttemptCancelled
  {
    LoadSucceeds(db, c.attempt);
  }

  /** The attempt is given up for good; its ticket has already been moved. */
  function Freed(db: Db, a: int): Db
    requires a in db.attempts
  {
    db.(attempts := db.attempts[a := db.attempts[a].(released := true, revision := db.attempts[a].revision + 1)])
  }

  lemma FreeRests(db: Db, a: int)
    requires FreshIds(db) && Linked(db) && a in db.attempts
    ensures FreshIds(Freed(db, a)) && Linked(Freed(db, a)) && Rests(db, Freed(db, a))
  {
  }

  lemma FreeOwned(db: Db, a: int)
    requires a in db.attempts && db.attempts[a].stage == AttemptFailed
    requires Linked(db) && Linked(Freed(db, a)) && TicketsOwned(db)
    ensures TicketsOwned(Freed(db, a))
  {
    var after := Freed(db, a);
    forall b, c | b in after.attempts && c in after.attempts && BothHold(after.attempts[b], after.attempts[c])
      ensures b == c
    {
      assert BothHold(db.attempts[b], db.attempts[c]);
    }
  }

  lemma FreeKeepsInv(db: Db, a: int)
    requires Inv(db) && a in db.attempts && db.attempts[a].stage == AttemptFailed
    ensures Inv(Freed(db, a))
  {
    var after := Freed(db, a);
    assert after.tickets == db.tickets && after.ticketRevisions == db.ticketRevisions
           && after.campaigns == db.campaigns && after.audit == db.audit;
    hide Inv, OneLive, LiveFits, StagesFilled, EvidenceClosed, OneOfEach, ValidationsExact, TicketsOwned, Linked,
         ReviewsExact, DecisionsExact, DeliveriesExact, CandidatesExact, RoundsCounted, TargetsKept, ReceiptsSound,
         FreshIds, TicketsAgree, SubjectExists, Rests;
    Parts(db);
    FreeRests(db, a);
    FreeOwned(db, a);
    TicketsAgreeFramed(db, after);
    TargetsFramed(db, after);
    RestKeepsInv(db, after);
  }

  lemma ReleaseIdle(db: Db, c: Command)
    requires ReleasePasses(db, c) && Linked(db) && TicketsAgree(db) && TicketsOwned(db) && RoundsCounted(db)
    ensures Idle(db, db.attempts[c.attempt].ticketRevision) && db.attempts[c.attempt].stage == AttemptFailed
  {
    ReleaseGuarded(db, c);
    assert Counted(db, c.attempt);
    forall b | b in db.attempts && db.attempts[b].ticketRevision == db.attempts[c.attempt].ticketRevision
      ensures !Unfinished(db.attempts[b].stage)
    {
      assert BothHold(db.attempts[b], db.attempts[c.attempt]) ==> b == c.attempt;
    }
  }

  lemma ReleaseShape(db: Db, c: Command)
    requires ReleasePasses(db, c) && Linked(db) && TicketsAgree(db)
    requires db.ticketRevisions[db.attempts[c.attempt].ticketRevision].ticket in db.tickets
    ensures LoadAttempt(db, c.attempt).Ok? && ObservationsRegistered(db, c, LoadAttempt(db, c.attempt).value)
    ensures var moved := WithTicket(db, db.attempts[c.attempt].ticketRevision,
                                    Classify(db, c, LoadAttempt(db, c.attempt).value).1);
            && c.attempt in moved.attempts && moved.attempts[c.attempt] == db.attempts[c.attempt]
            && Notes(Freed(moved, c.attempt), c, ReleaseDecision(c.attempt))
            && ReleaseEffect(db, c).0 == Noted(Freed(moved, c.attempt), c, ReleaseDecision(c.attempt),
                                               db.attempts[c.attempt].revision + 1)
  {
    ReleaseGuarded(db, c);
    hide ReleaseGuard;
  }

  lemma ReleaseKeepsInv(db: Db, c: Command)
    requires c.ReleaseTicketAttempt? && c.attempt in db.attempts && ReleasePasses(db, c) && Inv(db)
    ensures LoadAttempt(db, c.attempt).Ok? && ObservationsRegistered(db, c, LoadAttempt(db, c.attempt).value)
    ensures Inv(ReleaseEffect(db, c).0)
  {
    hide *;
    var r, a := db.attempts[c.attempt].ticketRevision, c.attempt;
    Parts(db);
    ReleaseIdle(db, c);
    ReleaseGuarded(db, c);
    var state := Classify(db, c, LoadAttempt(db, a).value).1;
    TicketMoveKeepsInv(db, r, state);
    ReleaseShape(db, c);
    FreeKeepsInv(WithTicket(db, r, state), a);
    NoteKeepsInv(Freed(WithTicket(db, r, state), a), c, ReleaseDecision(a), db.attempts[a].revision + 1);
  }

  // ----------------------------------------------------------------- events

  lemma AcceptKeepsInv(db: Db, c: Command)
    requires Inv(db) && Accepts(db, c)
    ensures Inv(Effect(db, c).0)
  {
    hide Inv, FreshIds, Linked, TicketsAgree, OneLive, LiveFits, StagesFilled, EvidenceClosed, OneOfEach,
         ValidationsExact, TicketsOwned, ReviewsExact, DecisionsExact, DeliveriesExact, CandidatesExact, RoundsCounted,
         TargetsKept, ReceiptsSound, FindAudit, SubmitGuard, ValidationGuard, AttachGuard, ReviewGuard, SponsorGuard,
         ReleaseGuard, DecideGuard, DeliveryGuard, SubmitEffect, ValidationEffect, AttachEffect, ReviewEffect,
         SponsorEffect, ReleaseEffect, DecideEffect, DeliveryEffect;
    Parts(db);
    if c.SubmitCandidate? { SubmitKeepsInv(db, c); }
    else if c.RecordValidation? { ValidationKeepsInv(db, c); }
    else if c.AttachCandidateCommit? { AttachKeepsInv(db, c); }
    else if c.SubmitQualityReview? { ReviewKeepsInv(db, c); }
    else if c.SponsorTicket? { SponsorKeepsInv(db, c); }
    else if c.ReleaseTicketAttempt? { ReleaseKeepsInv(db, c); }
    else if c.DecideCandidate? { DecideKeepsInv(db, c); }
    else { DeliveryKeepsInv(db, c); }
  }

  /** Every command, accepted, refused or repeated, keeps the invariant. */
  lemma StepKeepsInv(db: Db, c: Command)
    requires Inv(db)
    ensures Inv(Step(db, c).0)
  {
    hide Inv, Guard, Effect, StaticError, LockError, FindAudit, Replay;
    if Accepts(db, c) {
      AcceptKeepsInv(db, c);
    }
  }

  /** What an event that is neither a command nor a ticket move leaves to check. */
  lemma RestEventKeepsInv(db: Db, e: Event)
    requires Inv(db) && Enabled(db, e) && !e.Ask? && !e.Claim? && !e.SettleClaim?
    ensures Inv(Apply(db, e))
  {
    hide *;
    Parts(db);
    EventRests(db, e);
    EventIds(db, e);
    EventAgrees(db, e);
    EventOwned(db, e);
    EventTargets(db, e);
    EventReceipts(db, e);
    RestKeepsInv(db, Apply(db, e));
  }

  predicate OfCampaign(e: Event) {
    e.StartCampaign? || e.StopCampaign? || e.CompleteCampaign? || e.Measure?
  }

  lemma CampaignEventRests(db: Db, e: Event)
    requires Enabled(db, e) && OfCampaign(e) && FreshIds(db)
    ensures Rests(db, Apply(db, e))
  {
    hide Linked, Step, WithTicket, DeliveredAttempts, IsDecisionOperation;
  }

  lemma CampaignEventLinks(db: Db, e: Event)
    requires Enabled(db, e) && OfCampaign(e) && FreshIds(db) && Linked(db)
    ensures Linked(Apply(db, e))
  {
    hide Step, WithTicket, DeliveredAttempts, IsDecisionOperation, FreshIds;
  }

  lemma PlainEventRests(db: Db, e: Event)
    requires Enabled(db, e) && !e.Ask? && !e.Claim? && !e.SettleClaim? && !OfCampaign(e) && FreshIds(db)
    ensures Rests(db, Apply(db, e))
  {
    hide Linked, Step, WithTicket, DeliveredAttempts, IsDecisionOperation;
  }

  lemma PlainEventLinks(db: Db, e: Event)
    requires Enabled(db, e) && !e.Ask? && !e.Claim? && !e.SettleClaim? && !OfCampaign(e) && FreshIds(db) && Linked(db)
    ensures Linked(Apply(db, e))
  {
  }

  lemma EventRests(db: Db, e: Event)
    requires Enabled(db, e) && !e.Ask? && !e.Claim? && !e.SettleClaim? && FreshIds(db) && Linked(db)
    ensures Rests(db, Apply(db, e)) && Linked(Apply(db, e))
  {
    hide *;
    if OfCampaign(e) {
      CampaignEventRests(db, e);
      CampaignEventLinks(db, e);
    } else {
      PlainEventRests(db, e);
      PlainEventLinks(db, e);
    }
  }

  lemma CampaignEventIds(db: Db, e: Event)
    requires Enabled(db, e) && OfCampaign(e) && FreshIds(db)
    ensures FreshIds(Apply(db, e))
  {
    hide Step, WithTicket, Linked, DeliveredAttempts, IsDecisionOperation;
  }

  lemma EventIds(db: Db, e: Event)
    requires Enabled(db, e) && !e.Ask? && !e.Claim? && !e.SettleClaim? && FreshIds(db)
    ensures FreshIds(Apply(db, e))
  {
    hide Step, WithTicket, Linked, DeliveredAttempts, IsDecisionOperation;
    if OfCampaign(e) {
      CampaignEventIds(db, e);
    }
  }

  lemma EventAgrees(db: Db, e: Event)
    requires Enabled(db, e) && !e.Ask? && !e.Claim? && !e.SettleClaim? && FreshIds(db) && TicketsAgree(db)
    ensures TicketsAgree(Apply(db, e))
  {
    var after := Apply(db, e);
    forall r | r in after.ticketRevisions
      ensures TicketAgrees(after, r)
    {
      if r in db.ticketRevisions {
        assert TicketAgrees(db, r);
      }
    }
  }

  lemma EventFrames(db: Db, e: Event)
    requires FreshIds(db) && Enabled(db, e) && !e.Ask? && !e.Claim? && !e.SettleClaim?
    ensures Apply(db, e).attempts == db.attempts
    ensures forall r :: r in db.ticketRevisions ==>
              r in Apply(db, e).ticketRevisions && Apply(db, e).ticketRevisions[r] == db.ticketRevisions[r]
  {
    hide Step, WithTicket;
  }

  lemma OwnedFramed(db: Db, after: Db)
    requires Linked(db) && Linked(after) && TicketsOwned(db) && after.attempts == db.attempts
    requires forall r :: r in db.ticketRevisions ==>
              r in after.ticketRevisions && after.ticketRevisions[r] == db.ticketRevisions[r]
    ensures TicketsOwned(after)
  {
  }

  lemma EventOwned(db: Db, e: Event)
    requires Enabled(db, e) && !e.Ask? && !e.Claim? && !e.SettleClaim?
    requires FreshIds(db) && Linked(db) && Linked(Apply(db, e)) && TicketsOwned(db)
    ensures TicketsOwned(Apply(db, e))
  {
    hide *;
    EventFrames(db, e);
    OwnedFramed(db, Apply(db, e));
  }

  /** No campaign is ever completed by a count: the last delivery has done it. */
  lemma CompletionIsRecorded(db: Db, campaign: int)
    requires TargetsKept(db)
    ensures !Enabled(db, CompleteCampaign(campaign))
  {
    assert campaign in db.campaigns ==> TargetKept(db, campaign);
  }

  lemma EventTargets(db: Db, e: Event)
    requires Enabled(db, e) && !e.Ask? && !e.Claim? && !e.SettleClaim? && FreshIds(db) && Linked(db) && TargetsKept(db)
    ensures TargetsKept(Apply(db, e))
  {
    var after := Apply(db, e);
    if e.CompleteCampaign? { CompletionIsRecorded(db, e.campaign); }
    forall c | c in after.campaigns
      ensures TargetKept(after, c)
    {
      assert DeliveredAttempts(after, c) == DeliveredAttempts(db, c);
      if c in db.campaigns {
        assert TargetKept(db, c);
      } else {
        assert forall a :: a in db.attempts ==> db.attempts[a].campaign != c;
        assert DeliveredAttempts(db, c) == {};
      }
    }
  }

  lemma EventReceipts(db: Db, e: Event)
    requires Enabled(db, e) && !e.Ask? && !e.Claim? && !e.SettleClaim?
    ensures ReceiptsKept(db, Apply(db, e))
  {
  }

  function Opened(db: Db, r: int, campaign: int, commit: string, tree: string): Db {
    db.(attempts := db.attempts[db.nextId := AttemptRow(r, campaign, commit, tree, Engineering, 0, 0, false, 0)],
        nextId := db.nextId + 1)
  }

  ghost predicate Vacant(db: Db, r: int) {
    forall a :: a in db.attempts && db.attempts[a].ticketRevision == r ==> db.attempts[a].released
  }

  lemma OpenIds(db: Db, r: int, campaign: int, commit: string, tree: string)
    requires FreshIds(db) && Linked(db) && r in db.ticketRevisions && campaign in db.campaigns
    ensures FreshIds(Opened(db, r, campaign, commit, tree))
  {
    hide Linked;
  }

  lemma OpenLinks(db: Db, r: int, campaign: int, commit: string, tree: string)
    requires FreshIds(db) && Linked(db) && r in db.ticketRevisions && campaign in db.campaigns
    ensures Linked(Opened(db, r, campaign, commit, tree))
  {
    hide FreshIds;
  }

  lemma OpenChangesNothing(db: Db, r: int, campaign: int, commit: string, tree: string)
    requires FreshIds(db) && r in db.ticketRevisions && campaign in db.campaigns
    ensures Rests(db, Opened(db, r, campaign, commit, tree))
  {
    hide Linked;
  }

  lemma OpenRests(db: Db, r: int, campaign: int, commit: string, tree: string)
    requires FreshIds(db) && Linked(db) && r in db.ticketRevisions && campaign in db.campaigns
    ensures var after := Opened(db, r, campaign, commit, tree);
            FreshIds(after) && Linked(after) && Rests(db, after)
  {
    hide FreshIds, Linked, Rests;
    OpenIds(db, r, campaign, commit, tree);
    OpenLinks(db, r, campaign, commit, tree);
    OpenChangesNothing(db, r, campaign, commit, tree);
  }

  lemma OpenOwned(db: Db, r: int, campaign: int, commit: string, tree: string)
    requires FreshIds(db) && Linked(db) && r in db.ticketRevisions && campaign in db.campaigns && TicketsOwned(db)
    requires Vacant(db, r) && db.ticketRevisions[r].lifecycle == InFlight
    requires Linked(Opened(db, r, campaign, commit, tree))
    ensures TicketsOwned(Opened(db, r, campaign, commit, tree))
  {
  }

  lemma OpenKeepsInv(db: Db, r: int, campaign: int, commit: string, tree: string)
    requires Inv(db) && r in db.ticketRevisions && campaign in db.campaigns
    requires Vacant(db, r) && db.ticketRevisions[r].lifecycle == InFlight
    ensures Inv(Opened(db, r, campaign, commit, tree))
  {
    hide Inv, OneLive, LiveFits, StagesFilled, EvidenceClosed, OneOfEach, ValidationsExact, TicketsOwned, Linked,
         ReviewsExact, DecisionsExact, DeliveriesExact, CandidatesExact, RoundsCounted, TargetsKept, ReceiptsSound,
         FreshIds, TicketsAgree, SubjectExists, Rests, Vacant;
    var after := Opened(db, r, campaign, commit, tree);
    Parts(db);
    OpenRests(db, r, campaign, commit, tree);
    OpenOwned(db, r, campaign, commit, tree);
    TicketsAgreeFramed(db, after);
    TargetsFramed(db, after);
    RestKeepsInv(db, after);
  }

  lemma SponsoredIsIdle(db: Db, r: int)
    requires Linked(db) && TicketsOwned(db) && r in db.ticketRevisions && db.ticketRevisions[r].lifecycle == Sponsored
    ensures Idle(db, r)
  {
  }

  lemma ClaimKeepsInv(db: Db, e: Event)
    requires Inv(db) && Enabled(db, e) && (e.Claim? || e.SettleClaim?)
    ensures Inv(Apply(db, e))
  {
    hide Inv, OneLive, LiveFits, StagesFilled, EvidenceClosed, OneOfEach, ValidationsExact, TicketsOwned, Linked,
         ReviewsExact, DecisionsExact, DeliveriesExact, CandidatesExact, RoundsCounted, TargetsKept, ReceiptsSound,
         FreshIds, TicketsAgree, Idle, Rests;
    Parts(db);
    SponsoredIsIdle(db, e.ticketRevision);
    if e.Claim? {
      TicketMoveKeepsInv(db, e.ticketRevision, InFlight);
      OpenKeepsInv(WithTicket(db, e.ticketRevision, InFlight), e.ticketRevision, e.campaign, e.commit, e.tree);
    } else {
      TicketMoveKeepsInv(db, e.ticketRevision, e.state);
    }
  }

  /** Every event, of this store or of another, keeps the invariant. */
  lemma EventKeepsInv(db: Db, e: Event)
    requires Inv(db) && Enabled(db, e)
    ensures Inv(Apply(db, e))
  {
    hide Inv, Enabled, Step;
    if e.Ask? {
      StepKeepsInv(db, e.command);
    } else if e.Claim? || e.SettleClaim? {
      ClaimKeepsInv(db, e);
    } else {
      RestEventKeepsInv(db, e);
    }
  }

  // ------------------------------------------------------------------- runs

  ghost predicate IsRun(db: Db, events: seq<Event>)
    decreases |events|
  {
    events == [] || (Enabled(db, events[0]) && IsRun(Apply(db, events[0]), events[1..]))
  }

  function After(db: Db, events: seq<Event>): Db
    requires IsRun(db, events)
    decreases |events|
  {
    if events == [] then db else After(Apply(db, events[0]), events[1..])
  }

  /** The invariant holds in every reachable state. */
  lemma {:induction false} RunKeepsInv(db: Db, events: seq<Event>)
    requires Inv(db) && IsRun(db, events)
    ensures Inv(After(db, events))
    decreases |events|
  {
    hide Inv, Enabled, Apply;
    if events != [] {
      EventKeepsInv(db, events[0]);
      RunKeepsInv(Apply(db, events[0]), events[1..]);
    }
  }

  const EMPTY := Db(map[], map[], map[], map[], map[], map[], map[], map[], map[], map[], map[], map[], map[], 1)

  lemma EmptyIsInv()
    ensures Inv(EMPTY)
  {
  }
}
