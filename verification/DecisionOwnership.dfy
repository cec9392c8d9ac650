/** Which mixed runs keep a ticket to one attempt at a time. */
module DecisionOwnership {
  import opened Basics
  import opened Commands
  import opened Decision
  import opened DecisionInvariant
  import opened DecisionFrames
  import opened DecisionSafety
  import opened DecisionEvents
  import opened DecisionSetbacks
  import opened DecisionEnduring
  import opened DecisionMixed

  ghost predicate Owned(db: Db) { Linked(db) && TicketsOwned(db) }

  // --------------------------------------------------------- every command

  lemma QuietOwned(db: Db, after: Db, a: int, k: int)
    requires Linked(db) && Linked(after) && TicketsOwned(db) && Moves(db, after, a, k) && Quiet(db, after, a, k)
    ensures TicketsOwned(after)
  {
    hide OrdinalsFit;
    assert StaysOwned(db, after, a);
    MoveKeepsOwnership(db, after, a, k);
  }

  lemma SubmitKeepsOwned(db: Db, c: Command)
    requires SubmitPasses(db, c) && Enduring(db) && TicketsOwned(db)
    ensures Owned(SubmitEffect(db, c).0)
  {
    var after := SubmitEffect(db, c).0;
    hide *;
    Facts(db);
    SubmitLinks(db, c);
    SubmitMoves(db, c);
    SubmitOwns(db, c);
    MoveKeepsOwnership(db, after, c.attempt, db.nextId);
    BothParts(after);
  }

  lemma BothParts(db: Db)
    requires Linked(db) && TicketsOwned(db)
    ensures Owned(db)
  {
  }

  lemma ValidationKeepsOwned(db: Db, c: Command)
    requires ValidationPasses(db, c) && TicketsOwned(db)
    ensures c.build in db.builds && Owned(ValidationEffect(db, c).0)
  {
    ValidationLinks(db, c);
    var after, a := ValidationEffect(db, c).0, db.candidates[c.candidate].attempt;
    hide *;
    ValidationMoves(db, c);
    ValidationRows(db, c);
    QuietOwned(db, after, a, c.candidate);
    BothParts(after);
  }

  lemma AttachKeepsOwned(db: Db, c: Command)
    requires AttachPasses(db, c) && TicketsOwned(db)
    ensures Owned(AttachEffect(db, c).0)
  {
    hide Linked, TicketsOwned, AttachGuard, FreshIds, TicketsAgree;
    AttachLinks(db, c);
    NoteOwned(db, AttachEffect(db, c).0);
  }

  lemma ReviewKeepsOwned(db: Db, c: Command)
    requires ReviewPasses(db, c) && TicketsOwned(db)
    ensures Owned(ReviewEffect(db, c).0)
  {
    var after, a := ReviewEffect(db, c).0, db.candidates[c.candidate].attempt;
    hide *;
    ReviewLinks(db, c);
    ReviewMoves(db, c);
    ReviewRows(db, c);
    QuietOwned(db, after, a, c.candidate);
    BothParts(after);
  }

  lemma DecideKeepsOwned(db: Db, c: Command)
    requires DecidePasses(db, c) && TicketsOwned(db)
    ensures LoadAttempt(db, db.candidates[c.candidate].attempt).Ok? && c.review in db.reviews
    ensures Owned(DecideEffect(db, c).0)
  {
    DecideLinks(db, c);
    var after, a := DecideEffect(db, c).0, db.candidates[c.candidate].attempt;
    hide *;
    DecideMoves(db, after, c);
    DecideIds(db, after, c);
    DecideRows(db, after, c);
    QuietOwned(db, after, a, c.candidate);
    BothParts(after);
  }

  lemma DeliveryKeepsOwned(db: Db, c: Command)
    requires DeliveryPasses(db, c) && TicketsOwned(db)
    ensures LoadAttempt(db, db.candidates[c.candidate].attempt).Ok? && Owned(DeliveryEffect(db, c).0)
  {
    DeliveryLinks(db, c);
    var after, a := DeliveryEffect(db, c).0, db.candidates[c.candidate].attempt;
    hide *;
    DeliveryMoves(db, c);
    DeliveryOwns(db, c);
    MoveKeepsOwnership(db, after, a, c.candidate);
    BothParts(after);
  }

  lemma TicketMoveKeepsOwned(db: Db, r: int, state: TicketState)
    requires Enduring(db) && TicketsOwned(db) && r in db.ticketRevisions && Idle(db, r)
    ensures db.ticketRevisions[r].ticket in db.tickets && Owned(WithTicket(db, r, state))
  {
    hide Enduring, Idle, Linked, TicketsOwned, FreshIds, TicketsAgree, Rests;
    Facts(db);
    TicketRests(db, r, state);
    TicketMoveOwned(db, WithTicket(db, r, state), r);
  }

  lemma SponsorKeepsOwned(db: Db, c: Command)
    requires c.SponsorTicket? && c.ticketRevision in db.ticketRevisions && SponsorGuard(db, c).None?
    requires Enduring(db) && TicketsOwned(db)
    ensures db.ticketRevisions[c.ticketRevision].ticket in db.tickets && Owned(SponsorEffect(db, c).0)
  {
    hide *;
    var r := c.ticketRevision;
    Facts(db);
    SponsorIdle(db, c);
    TicketMoveKeepsOwned(db, r, TicketState.Sponsored);
    SponsorShape(db, c);
    NotedIsOwned(WithTicket(db, r, TicketState.Sponsored), c, SponsorDecision(r), db.ticketRevisions[r].revision + 1);
  }

  lemma NotedIsOwned(db: Db, c: Command, row: DecisionRow, revision: nat)
    requires Owned(db) && Notes(db, c, row)
    ensures Owned(Noted(db, c, row, revision))
  {
    hide TicketsOwned, Linked, Notes;
    NoteLinks(db, c, row, revision);
    NoteOwned(db, Noted(db, c, row, revision));
  }

  /** No other attempt is at work on the ticket of a failed attempt that is not released. */
  lemma FailedIsIdle(db: Db, a: int)
    requires Linked(db) && TicketsOwned(db) && a in db.attempts && !db.attempts[a].released
    requires db.attempts[a].stage == AttemptFailed
    ensures Idle(db, db.attempts[a].ticketRevision)
  {
    forall b | b in db.attempts && db.attempts[b].ticketRevision == db.attempts[a].ticketRevision
      ensures !Unfinished(db.attempts[b].stage)
    {
      assert BothHold(db.attempts[b], db.attempts[a]) ==> b == a;
    }
  }

  lemma NeverCancelled(db: Db, a: int)
    requires AllNumbered(db) && a in db.attempts
    ensures db.attempts[a].stage != AttemptCancelled
  {
    assert Numbered(db, a);
  }

  lemma FreedIsOwned(db: Db, a: int)
    requires Owned(db) && FreshIds(db) && a in db.attempts && db.attempts[a].stage == AttemptFailed
    ensures Owned(Freed(db, a))
  {
    hide Linked, TicketsOwned, FreshIds, Rests;
    FreeRests(db, a);
    FreeOwned(db, a);
  }

  lemma ReleaseKeepsOwned(db: Db, c: Command)
    requires c.ReleaseTicketAttempt? && c.attempt in db.attempts && ReleasePasses(db, c) && Enduring(db)
             && TicketsOwned(db)
    ensures LoadAttempt(db, c.attempt).Ok? && ObservationsRegistered(db, c, LoadAttempt(db, c.attempt).value)
    ensures Owned(ReleaseEffect(db, c).0)
  {
    hide *;
    var r, a := db.attempts[c.attempt].ticketRevision, c.attempt;
    Facts(db);
    ReleaseInFlight(db, c);
    ReleaseGuarded(db, c);
    NeverCancelled(db, a);
    FailedIsIdle(db, a);
    var state := Classify(db, c, LoadAttempt(db, a).value).1;
    TicketMoveKeepsOwned(db, r, state);
    TicketRests(db, r, state);
    ReleaseShape(db, c);
    FreedIsOwned(WithTicket(db, r, state), a);
    NotedIsOwned(Freed(WithTicket(db, r, state), a), c, ReleaseDecision(a), db.attempts[a].revision + 1);
  }

  lemma AcceptKeepsOwned(db: Db, c: Command)
    requires Enduring(db) && TicketsOwned(db) && Accepts(db, c)
    ensures Owned(Effect(db, c).0)
  {
    hide Enduring, FreshIds, Linked, TicketsAgree, OneLive, LooselyFits, StagesFilled, AllOnRecord, OneOfEach,
         ValidationsExact, ReviewsExact, DecisionsExact, DeliveriesExact, CandidatesExact, AllNumbered, HoldersUnique,
         DeliveredOnce, TargetsKept, ReceiptsSound, FindAudit, TicketsOwned, Owned, SubmitGuard, ValidationGuard,
         AttachGuard, ReviewGuard, SponsorGuard, ReleaseGuard, DecideGuard, DeliveryGuard, SubmitEffect,
         ValidationEffect, AttachEffect, ReviewEffect, SponsorEffect, ReleaseEffect, DecideEffect, DeliveryEffect;
    Facts(db);
    if c.SubmitCandidate? { SubmitKeepsOwned(db, c); }
    else if c.RecordValidation? { ValidationKeepsOwned(db, c); }
    else if c.AttachCandidateCommit? { AttachKeepsOwned(db, c); }
    else if c.SubmitQualityReview? { ReviewKeepsOwned(db, c); }
    else if c.SponsorTicket? { SponsorKeepsOwned(db, c); }
    else if c.ReleaseTicketAttempt? { ReleaseKeepsOwned(db, c); }
    else if c.DecideCandidate? { DecideKeepsOwned(db, c); }
    else { DeliveryKeepsOwned(db, c); }
  }

  lemma StepKeepsOwned(db: Db, c: Command)
    requires Enduring(db) && Owned(db)
    ensures Owned(Step(db, c).0)
  {
    hide Enduring, Guard, Effect, StaticError, LockError, FindAudit, Replay, Linked, TicketsOwned;
    if Accepts(db, c) {
      AcceptKeepsOwned(db, c);
    }
  }

  // ------------------------------------------------- every event and move

  lemma ClaimKeepsOwned(db: Db, e: Event)
    requires Enduring(db) && Owned(db) && Enabled(db, e) && (e.Claim? || e.SettleClaim?)
    ensures Owned(Apply(db, e))
  {
    hide Enduring, Linked, TicketsOwned, Idle, Owned, FreshIds, TicketsAgree, Rests;
    Facts(db);
    OwnedParts(db);
    var r := e.ticketRevision;
    SponsoredIsIdle(db, r);
    if e.Claim? {
      TicketMoveKeepsOwned(db, r, InFlight);
      TicketRests(db, r, InFlight);
      var moved := WithTicket(db, r, InFlight);
      OwnedParts(moved);
      OpenLinks(moved, r, e.campaign, e.commit, e.tree);
      OpenOwned(moved, r, e.campaign, e.commit, e.tree);
      BothParts(Opened(moved, r, e.campaign, e.commit, e.tree));
    } else {
      TicketMoveKeepsOwned(db, r, e.state);
    }
  }

  lemma OwnedParts(db: Db)
    requires Owned(db)
    ensures Linked(db) && TicketsOwned(db)
  {
  }

  lemma EventKeepsOwned(db: Db, e: Event)
    requires Enduring(db) && Owned(db) && Enabled(db, e)
    ensures Owned(Apply(db, e))
  {
    hide Enduring, Enabled, Step, Linked, TicketsOwned, FreshIds, Rests;
    if e.Ask? {
      StepKeepsOwned(db, e.command);
    } else if e.Claim? || e.SettleClaim? {
      ClaimKeepsOwned(db, e);
    } else {
      Facts(db);
      EventRests(db, e);
      EventOwned(db, e);
    }
  }

  lemma NoticedIsOwned(db: Db, m: Move, subject: int, revision: nat)
    requires Owned(db)
    ensures Owned(Noticed(db, m, subject, revision))
  {
    hide TicketsOwned, Linked, Audited;
    NoticeLinks(db, m, subject, revision);
    NoteOwned(db, Noticed(db, m, subject, revision));
  }

  lemma ProposedIsIdle(db: Db, r: int)
    requires Linked(db) && TicketsOwned(db) && r in db.ticketRevisions && db.ticketRevisions[r].lifecycle == Proposed
    ensures Idle(db, r)
  {
  }

  lemma SponsorMoveKeepsOwned(db: Db, m: Move)
    requires m.SponsorRevision? && Possible(db, m) && Enduring(db) && Owned(db)
    ensures Linked(db) && TicketsAgree(db) && Owned(Moved(db, m))
  {
    hide Enduring, FreshIds, Linked, TicketsAgree, TicketsOwned, Idle;
    Facts(db);
    var r := m.ticketRevision;
    ProposedIsIdle(db, r);
    TicketMoveKeepsOwned(db, r, TicketState.Sponsored);
    NoticedIsOwned(WithTicket(db, r, TicketState.Sponsored), m, r, m.expectedTicket + 1);
  }

  lemma ReleaseMoveHolds(db: Db, m: Move)
    requires m.ReleaseAttempt? && Possible(db, m)
    ensures m.attempt in db.attempts && !db.attempts[m.attempt].released
    ensures db.attempts[m.attempt].stage == AttemptFailed || db.attempts[m.attempt].stage == AttemptCancelled
  {
  }

  lemma ReleaseMoveKeepsOwned(db: Db, m: Move)
    requires m.ReleaseAttempt? && Possible(db, m) && Enduring(db) && Owned(db)
    ensures Linked(db) && TicketsAgree(db) && Owned(Moved(db, m))
  {
    hide Possible, Enduring, FreshIds, Linked, TicketsAgree, TicketsOwned, Owned, Moved, WithTicket, Freed, Noticed,
         Idle, Rests;
    Facts(db);
    OwnedParts(db);
    ReleaseMoveShape(db, m);
    ReleaseMoveHolds(db, m);
    NeverCancelled(db, m.attempt);
    FailedIsIdle(db, m.attempt);
    var r := db.attempts[m.attempt].ticketRevision;
    var state := StateAfterRelease(db, db.ticketRevisions[r], m.firstObservation, m.secondObservation);
    TicketMoveKeepsOwned(db, r, state);
    TicketRests(db, r, state);
    AttemptsUnmoved(db, r, state);
    FreedIsOwned(WithTicket(db, r, state), m.attempt);
    NoticedIsOwned(Freed(WithTicket(db, r, state), m.attempt), m, m.attempt, m.expectedAttempt + 1);
  }

  /** The Quality retry of an attempt that has been released. */
  predicate RetriesReleased(db: Db, x: Act) {
    && x.Ticketed? && x.move.RetryQuality? && x.move.attempt in db.attempts && db.attempts[x.move.attempt].released
  }

  /** One transaction keeps tickets owned exactly unless it is that retry. */
  lemma OwnedExactly(db: Db, x: Act)
    requires Enduring(db) && Owned(db) && Allowed(db, x)
    ensures Owned(Done(db, x)) <==> !RetriesReleased(db, x)
  {
    hide Enduring, Enabled, Possible, Apply, SetBack, Linked, TicketsAgree, TicketsOwned, FreshIds;
    Facts(db);
    match x
    case Plain(e) => EventKeepsOwned(db, e);
    case Ticketed(m) =>
      if m.SponsorRevision? {
        SponsorMoveKeepsOwned(db, m);
      } else if m.ReleaseAttempt? {
        ReleaseMoveKeepsOwned(db, m);
      } else {
        OwnershipSurvivesExactly(db, m);
        MovedIsSetBack(db, m);
      }
  }

  // -------------------------------------------------------------- all runs

  ghost predicate AlwaysOwned(db: Db, acts: seq<Act>)
    requires IsMixed(db, acts)
    decreases |acts|
  {
    Owned(db) && (acts != [] ==> AlwaysOwned(Done(db, acts[0]), acts[1..]))
  }

  ghost predicate NeverRetriesReleased(db: Db, acts: seq<Act>)
    requires IsMixed(db, acts)
    decreases |acts|
  {
    acts != [] ==> !RetriesReleased(db, acts[0]) && NeverRetriesReleased(Done(db, acts[0]), acts[1..])
  }

  /** Every state of a mixed run keeps one attempt at a time on a ticket, its unfinished
      attempts in flight and its released ones failed, if and only if no Quality retry of
      the run is of a released attempt. */
  lemma {:induction false} RunOwnedExactly(db: Db, acts: seq<Act>)
    requires Enduring(db) && Owned(db) && IsMixed(db, acts)
    ensures AlwaysOwned(db, acts) <==> NeverRetriesReleased(db, acts)
    ensures NeverRetriesReleased(db, acts) ==> Owned(Later(db, acts))
    decreases |acts|
  {
    hide Enduring, Owned, Allowed, Done;
    if acts != [] {
      OwnedExactly(db, acts[0]);
      ActEndures(db, acts[0]);
      if !RetriesReleased(db, acts[0]) {
        RunOwnedExactly(Done(db, acts[0]), acts[1..]);
      }
    }
  }

  lemma OwnedHasOneUnfinished(db: Db)
    requires Linked(db) && TicketsOwned(db)
    ensures OneUnfinished(db)
  {
    forall a, b | a in db.attempts && b in db.attempts && BothWork(db.attempts[a], db.attempts[b])
      ensures a == b
    {
      assert BothHold(db.attempts[a], db.attempts[b]);
    }
  }

  lemma EmptyIsOwned()
    ensures Owned(EMPTY)
  {
  }

  /** Two attempts at work on one revision prove that the run retried a released attempt. */
  lemma RivalsComeFromRetry(acts: seq<Act>)
    requires IsMixed(EMPTY, acts) && NeverRetriesReleased(EMPTY, acts)
    ensures OneUnfinished(Later(EMPTY, acts))
  {
    hide Enduring, IsMixed, Later, NeverRetriesReleased, Linked, TicketsOwned, OneUnfinished;
    EmptyEndures();
    EmptyIsOwned();
    RunOwnedExactly(EMPTY, acts);
    OwnedHasOneUnfinished(Later(EMPTY, acts));
  }
}
