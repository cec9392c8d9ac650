/** Runs in which the ticket store's own moves take part, and what holds in all of them. */
module DecisionMixed {
  import opened Basics
  import opened Commands
  import opened Decision
  import opened DecisionInvariant
  import opened DecisionFrames
  import opened DecisionSafety
  import opened DecisionEvents
  import opened DecisionSetbacks
  import opened DecisionEnduring
  import opened DecisionTheorems

  // ---------------------------------------------------- no candidate moves

  lemma RestKeepsPlaces(db: Db, after: Db)
    requires Linked(db) && Linked(after) && OneLive(db) && LooselyFits(db) && StagesFilled(db) && Rests(db, after)
    ensures OneLive(after) && LooselyFits(after) && StagesFilled(after)
  {
    forall a | a in after.attempts && NeedsLive(after.attempts[a].stage)
      ensures HasLive(after, a)
    {
      assert HasLive(db, a);
      var m :| m in db.candidates && db.candidates[m].attempt == a && IsLive(db.candidates[m].lifecycle);
      assert m in after.candidates;
    }
  }

  lemma SameFactsSameRecord(db: Db, after: Db)
    requires after.candidates == db.candidates && SameFacts(db, after) && AllOnRecord(db)
    ensures AllOnRecord(after)
  {
    hide HasDecision, HasDeliverDecision, HasReview, HasDelivery, HasScope, HasPassed;
    forall k | k in after.candidates
      ensures OnRecord(after, k)
    {
      assert OnRecord(db, k);
    }
  }

  lemma RestKeepsNumbers(db: Db, after: Db)
    requires Linked(db) && AllNumbered(db) && Rests(db, after)
    ensures AllNumbered(after)
  {
    forall a | a in after.attempts
      ensures Numbered(after, a)
    {
      assert CandidatesOf(after, a) == CandidatesOf(db, a);
      if a in db.attempts {
        assert Numbered(db, a);
      } else {
        assert forall k :: k in db.candidates ==> db.candidates[k].attempt != a;
        assert CandidatesOf(db, a) == {};
      }
    }
  }

  lemma RestKeepsUnique(db: Db, after: Db)
    requires OneOfEach(db) && Rests(db, after)
    ensures OneOfEach(after)
  {
  }

  lemma RestKeepsDelivered(db: Db, after: Db)
    requires Linked(db) && Linked(after) && DeliveredOnce(db) && Rests(db, after) && StaysDelivered(db, after)
    ensures DeliveredOnce(after)
  {
    forall a, b | a in after.attempts && b in after.attempts && BothDelivered(after.attempts[a], after.attempts[b])
      ensures a == b
    {
      assert BothDelivered(db.attempts[a], db.attempts[b]);
    }
  }

  lemma RestEndures(db: Db, after: Db)
    requires Enduring(db) && FreshIds(after) && Linked(after) && TicketsAgree(after) && Rests(db, after)
    requires HoldersUnique(after) && StaysDelivered(db, after) && TargetsKept(after) && ReceiptsKept(db, after)
    ensures Enduring(after)
  {
    hide FreshIds, Linked, TicketsAgree, OneLive, LooselyFits, StagesFilled, AllOnRecord, OneOfEach, ValidationsExact,
         ReviewsExact, DecisionsExact, DeliveriesExact, CandidatesExact, AllNumbered, HoldersUnique, DeliveredOnce,
         TargetsKept, ReceiptsSound, SameFacts, SubjectExists, ReceiptsKept, StaysDelivered;
    RestKeepsPlaces(db, after);
    RestKeepsFacts(db, after);
    SameFactsSameRecord(db, after);
    RestKeepsUnique(db, after);
    RestKeepsRows(db, after);
    RestKeepsCandidates(db, after);
    RestKeepsNumbers(db, after);
    RestKeepsDelivered(db, after);
    RestKeepsReceipts(db, after);
  }

  lemma SameHolders(db: Db, after: Db)
    requires HoldersUnique(db)
    requires forall a :: a in after.attempts ==> a in db.attempts
    requires forall a :: a in after.attempts ==>
               after.attempts[a].ticketRevision == db.attempts[a].ticketRevision
               && (db.attempts[a].released ==> after.attempts[a].released)
    ensures HoldersUnique(after)
  {
    forall a, b | a in after.attempts && b in after.attempts && BothHold(after.attempts[a], after.attempts[b])
      ensures a == b
    {
      assert BothHold(db.attempts[a], db.attempts[b]);
    }
  }

  lemma ReceiptsFramed(db: Db, after: Db)
    requires after.audit == db.audit
    ensures ReceiptsKept(db, after)
  {
    hide SubjectExists;
  }

  /** Moving a ticket that is not delivered. */
  lemma TicketMoveEndures(db: Db, r: int, state: TicketState)
    requires Enduring(db) && r in db.ticketRevisions && db.ticketRevisions[r].lifecycle != TicketDelivered
    ensures db.ticketRevisions[r].ticket in db.tickets && Enduring(WithTicket(db, r, state))
  {
    hide Enduring, FreshIds, Linked, TicketsAgree, HoldersUnique, TargetsKept, Rests, ReceiptsKept;
    Facts(db);
    TicketRests(db, r, state);
    var after := WithTicket(db, r, state);
    SameHolders(db, after);
    TargetsFramed(db, after);
    ReceiptsFramed(db, after);
    RestEndures(db, after);
  }

  lemma NoteEndures(db: Db, c: Command, row: DecisionRow, revision: nat)
    requires Enduring(db) && Notes(db, c, row)
    ensures Enduring(Noted(db, c, row, revision))
  {
    var after := Noted(db, c, row, revision);
    hide Enduring, FreshIds, Linked, TicketsAgree, HoldersUnique, TargetsKept, Rests, SubjectExists;
    Facts(db);
    NoteRests(db, c, row, revision);
    NotingRests(db, c, row, revision);
    TicketsAgreeFramed(db, after);
    SameHolders(db, after);
    TargetsFramed(db, after);
    RestEndures(db, after);
  }

  lemma FreeEndures(db: Db, a: int)
    requires Enduring(db) && a in db.attempts
    ensures Enduring(Freed(db, a))
  {
    var after := Freed(db, a);
    hide *;
    Facts(db);
    FreeRests(db, a);
    FreeFrames(db, a);
    FreeHolds(db, a);
    TicketsAgreeFramed(db, after);
    RestTargets(db, after);
    TicketsStayDelivered(db, after);
    ReceiptsFramed(db, after);
    RestEndures(db, after);
  }

  lemma FreeFrames(db: Db, a: int)
    requires a in db.attempts
    ensures var after := Freed(db, a);
            && after.tickets == db.tickets && after.ticketRevisions == db.ticketRevisions
            && after.campaigns == db.campaigns && after.audit == db.audit
  {
  }

  lemma FreeHolds(db: Db, a: int)
    requires a in db.attempts && HoldersUnique(db)
    ensures HoldersUnique(Freed(db, a))
  {
    hide HoldersUnique;
    SameHolders(db, Freed(db, a));
  }

  lemma RestTargets(db: Db, after: Db)
    requires TargetsKept(db) && after.campaigns == db.campaigns && Rests(db, after)
    ensures TargetsKept(after)
  {
    hide TargetsKept;
    TargetsFramed(db, after);
  }

  lemma TicketsStayDelivered(db: Db, after: Db)
    requires forall r :: r in db.ticketRevisions ==>
               r in after.ticketRevisions && after.ticketRevisions[r] == db.ticketRevisions[r]
    ensures StaysDelivered(db, after)
  {
  }

  lemma OpenHolds(db: Db, r: int, campaign: int, commit: string, tree: string)
    requires FreshIds(db) && HoldersUnique(db) && Vacant(db, r)
    ensures HoldersUnique(Opened(db, r, campaign, commit, tree))
  {
    var after := Opened(db, r, campaign, commit, tree);
    forall a, b | a in after.attempts && b in after.attempts && BothHold(after.attempts[a], after.attempts[b])
      ensures a == b
    {
      assert a != db.nextId && b != db.nextId ==> BothHold(db.attempts[a], db.attempts[b]);
    }
  }

  lemma OpenEndures(db: Db, r: int, campaign: int, commit: string, tree: string)
    requires Enduring(db) && r in db.ticketRevisions && campaign in db.campaigns && Vacant(db, r)
    ensures Enduring(Opened(db, r, campaign, commit, tree))
  {
    var after := Opened(db, r, campaign, commit, tree);
    hide Enduring, FreshIds, Linked, TicketsAgree, HoldersUnique, TargetsKept, Rests, ReceiptsKept, Vacant;
    Facts(db);
    OpenRests(db, r, campaign, commit, tree);
    OpenHolds(db, r, campaign, commit, tree);
    TicketsAgreeFramed(db, after);
    assert Untouched(after.attempts[db.nextId]);
    TargetsFramed(db, after) by { assert db.nextId !in db.attempts by { NextIsUnused(db); } }
    ReceiptsFramed(db, after);
    RestEndures(db, after);
  }

  lemma NextIsUnused(db: Db)
    requires FreshIds(db)
    ensures db.nextId !in db.attempts
  {
  }

  // --------------------------------------------------------- every command

  lemma SponsorEndures(db: Db, c: Command)
    requires c.SponsorTicket? && c.ticketRevision in db.ticketRevisions && SponsorGuard(db, c).None? && Enduring(db)
    ensures db.ticketRevisions[c.ticketRevision].ticket in db.tickets && Enduring(SponsorEffect(db, c).0)
  {
    hide Enduring, WithTicket, SponsorEffect, Noted, LiveReproducerTaken, HasArtifact;
    var r := c.ticketRevision;
    TicketMoveEndures(db, r, TicketState.Sponsored);
    SponsorShape(db, c);
    NoteEndures(WithTicket(db, r, TicketState.Sponsored), c, SponsorDecision(r), db.ticketRevisions[r].revision + 1);
  }

  lemma ReleaseInFlight(db: Db, c: Command)
    requires ReleasePasses(db, c) && Linked(db) && TicketsAgree(db)
    ensures db.ticketRevisions[db.attempts[c.attempt].ticketRevision].lifecycle == InFlight
  {
    LoadSucceeds(db, c.attempt);
  }

  lemma ReleaseEndures(db: Db, c: Command)
    requires c.ReleaseTicketAttempt? && c.attempt in db.attempts && ReleasePasses(db, c) && Enduring(db)
    ensures LoadAttempt(db, c.attempt).Ok? && ObservationsRegistered(db, c, LoadAttempt(db, c.attempt).value)
    ensures Enduring(ReleaseEffect(db, c).0)
  {
    hide *;
    var r, a := db.attempts[c.attempt].ticketRevision, c.attempt;
    Facts(db);
    ReleaseInFlight(db, c);
    ReleaseGuarded(db, c);
    var state := Classify(db, c, LoadAttempt(db, a).value).1;
    TicketMoveEndures(db, r, state);
    ReleaseShape(db, c);
    FreeEndures(WithTicket(db, r, state), a);
    NoteEndures(Freed(WithTicket(db, r, state), a), c, ReleaseDecision(a), db.attempts[a].revision + 1);
  }

  lemma AcceptEndures(db: Db, c: Command)
    requires Enduring(db) && Accepts(db, c)
    ensures Enduring(Effect(db, c).0)
  {
    hide Enduring, FreshIds, Linked, TicketsAgree, OneLive, LooselyFits, StagesFilled, AllOnRecord, OneOfEach,
         ValidationsExact, ReviewsExact, DecisionsExact, DeliveriesExact, CandidatesExact, AllNumbered, HoldersUnique,
         DeliveredOnce, TargetsKept, ReceiptsSound, FindAudit, SubmitGuard, ValidationGuard, AttachGuard, ReviewGuard,
         SponsorGuard, ReleaseGuard, DecideGuard, DeliveryGuard, SubmitEffect, ValidationEffect, AttachEffect,
         ReviewEffect, SponsorEffect, ReleaseEffect, DecideEffect, DeliveryEffect;
    Facts(db);
    if c.SubmitCandidate? { SubmitEndures(db, c); }
    else if c.RecordValidation? { ValidationEndures(db, c); }
    else if c.AttachCandidateCommit? { AttachEndures(db, c); }
    else if c.SubmitQualityReview? { ReviewEndures(db, c); }
    else if c.SponsorTicket? { SponsorEndures(db, c); }
    else if c.ReleaseTicketAttempt? { ReleaseEndures(db, c); }
    else if c.DecideCandidate? { DecideEndures(db, c); }
    else { DeliveryEndures(db, c); }
  }

  lemma StepEndures(db: Db, c: Command)
    requires Enduring(db)
    ensures Enduring(Step(db, c).0)
  {
    hide Enduring, Guard, Effect, StaticError, LockError, FindAudit, Replay;
    if Accepts(db, c) {
      AcceptEndures(db, c);
    }
  }

  // ----------------------------------------------------------- every event

  lemma RestEventEndures(db: Db, e: Event)
    requires Enduring(db) && Enabled(db, e) && !e.Ask? && !e.Claim? && !e.SettleClaim?
    ensures Enduring(Apply(db, e))
  {
    hide *;
    Facts(db);
    EventRests(db, e);
    EventIds(db, e);
    EventAgrees(db, e);
    EventFrames(db, e);
    SameHolders(db, Apply(db, e));
    TicketsStayDelivered(db, Apply(db, e));
    EventTargets(db, e);
    EventReceipts(db, e);
    RestEndures(db, Apply(db, e));
  }

  lemma ClaimEndures(db: Db, e: Event)
    requires Enduring(db) && Enabled(db, e) && (e.Claim? || e.SettleClaim?)
    ensures Enduring(Apply(db, e))
  {
    hide Enduring;
    if e.Claim? {
      TicketMoveEndures(db, e.ticketRevision, InFlight);
      OpenEndures(WithTicket(db, e.ticketRevision, InFlight), e.ticketRevision, e.campaign, e.commit, e.tree);
    } else {
      TicketMoveEndures(db, e.ticketRevision, e.state);
    }
  }

  lemma EventEndures(db: Db, e: Event)
    requires Enduring(db) && Enabled(db, e)
    ensures Enduring(Apply(db, e))
  {
    hide Enduring, Enabled, Step;
    if e.Ask? {
      StepEndures(db, e.command);
    } else if e.Claim? || e.SettleClaim? {
      ClaimEndures(db, e);
    } else {
      RestEventEndures(db, e);
    }
  }

  // ------------------------------------------- the ticket store's own moves

  lemma SetbackKeepsPlaces(db: Db, m: Move)
    requires IsSetback(m) && Possible(db, m) && Linked(db) && OneLive(db) && LooselyFits(db)
    ensures m.attempt in db.attempts && Linked(SetBack(db, m)) && LooselyFits(SetBack(db, m))
  {
    hide LoadAttempt, Retried;
    var after := SetBack(db, m);
    forall k | k in after.candidates && IsLive(after.candidates[k].lifecycle)
      ensures FitsOrFailed(after.attempts[after.candidates[k].attempt].stage, after.candidates[k].lifecycle)
    {
      assert FitsOrFailed(db.attempts[db.candidates[k].attempt].stage, db.candidates[k].lifecycle);
      if db.candidates[k].attempt == m.attempt && m.RetryQuality? {
        assert Rivals(db.candidates[k], db.candidates[m.candidate]);
      }
      assert k in CandidatesOf(db, db.candidates[k].attempt);
    }
  }

  lemma SetbackKeepsRecords(db: Db, m: Move)
    requires IsSetback(m) && m.attempt in db.attempts && AllOnRecord(db)
    ensures AllOnRecord(SetBack(db, m))
  {
    SameFactsSameRecord(db, SetBack(db, m));
  }

  lemma SetbackKeepsNumbers(db: Db, m: Move)
    requires IsSetback(m) && Possible(db, m) && AllNumbered(db)
    ensures m.attempt in db.attempts && AllNumbered(SetBack(db, m))
  {
    hide LoadAttempt, Retried;
    var after := SetBack(db, m);
    forall a | a in after.attempts
      ensures Numbered(after, a)
    {
      assert Numbered(db, a);
      assert CandidatesOf(after, a) == CandidatesOf(db, a);
    }
  }

  lemma SetbackKeepsHolders(db: Db, m: Move)
    requires IsSetback(m) && m.attempt in db.attempts && HoldersUnique(db)
    ensures HoldersUnique(SetBack(db, m))
  {
    hide HoldersUnique;
    SameHolders(db, SetBack(db, m));
  }

  lemma SetbackKeepsDelivered(db: Db, m: Move)
    requires IsSetback(m) && Possible(db, m) && Linked(db) && DeliveredOnce(db)
    ensures m.attempt in db.attempts && Linked(SetBack(db, m)) && DeliveredOnce(SetBack(db, m))
  {
    hide LoadAttempt, Retried, CandidatesOf;
    var after := SetBack(db, m);
    forall a, b | a in after.attempts && b in after.attempts && BothDelivered(after.attempts[a], after.attempts[b])
      ensures a == b
    {
      assert BothDelivered(db.attempts[a], db.attempts[b]);
    }
  }

  lemma SetbackEndures(db: Db, m: Move)
    requires IsSetback(m) && Possible(db, m) && Enduring(db)
    ensures m.attempt in db.attempts && Enduring(SetBack(db, m))
  {
    hide Possible, SetBack, FreshIds, Linked, TicketsAgree, OneLive, LooselyFits, StagesFilled, AllOnRecord, OneOfEach,
         ValidationsExact, ReviewsExact, DecisionsExact, DeliveriesExact, CandidatesExact, AllNumbered, HoldersUnique,
         DeliveredOnce, TargetsKept, ReceiptsSound;
    SetbackMoves(db, m);
    SetbackKeepsPlaces(db, m);
    SetbackKeepsStages(db, m);
    SetbackKeepsRecords(db, m);
    SetbackKeepsRows(db, m);
    SetbackKeepsNumbers(db, m);
    SetbackKeepsHolders(db, m);
    SetbackKeepsDelivered(db, m);
    SetbackKeepsTargets(db, m);
    SetbackKeepsTickets(db, m);
    SetbackKeepsReceipts(db, m);
  }

  /** The receipt of a move that is not a decision command. */
  function Noticed(db: Db, m: Move, subject: int, revision: nat): Db {
    db.(audit := Audited(db, m, subject, revision), nextId := db.nextId + 1)
  }

  lemma NoticeIds(db: Db, m: Move, subject: int, revision: nat)
    requires FreshIds(db)
    ensures FreshIds(Noticed(db, m, subject, revision))
  {
    hide OperationOf;
  }

  lemma NoticeLinks(db: Db, m: Move, subject: int, revision: nat)
    requires Linked(db)
    ensures Linked(Noticed(db, m, subject, revision))
  {
    hide OperationOf;
  }

  lemma NoticeChangesNothing(db: Db, m: Move, subject: int, revision: nat)
    ensures Rests(db, Noticed(db, m, subject, revision))
  {
    hide OperationOf;
  }

  lemma NoticeKeepsReceipts(db: Db, m: Move, subject: int, revision: nat)
    ensures ReceiptsKept(db, Noticed(db, m, subject, revision))
  {
    OperationsAreOther(m);
    hide OperationOf;
  }

  lemma NoticeEndures(db: Db, m: Move, subject: int, revision: nat)
    requires Enduring(db)
    ensures Enduring(Noticed(db, m, subject, revision))
  {
    var after := Noticed(db, m, subject, revision);
    hide Enduring, FreshIds, Linked, TicketsAgree, HoldersUnique, TargetsKept, Rests, ReceiptsKept, Audited;
    Facts(db);
    NoticeIds(db, m, subject, revision);
    NoticeLinks(db, m, subject, revision);
    NoticeChangesNothing(db, m, subject, revision);
    NoticeKeepsReceipts(db, m, subject, revision);
    TicketsAgreeFramed(db, after);
    SameHolders(db, after);
    TargetsFramed(db, after);
    RestEndures(db, after);
  }

  lemma ReleaseMoveShape(db: Db, m: Move)
    requires m.ReleaseAttempt? && Possible(db, m) && TicketsAgree(db) && Linked(db)
    ensures m.attempt in db.attempts
    ensures var r := db.attempts[m.attempt].ticketRevision;
            && r in db.ticketRevisions && db.ticketRevisions[r].ticket in db.tickets
            && db.ticketRevisions[r].lifecycle == InFlight
            && Observed(db, db.ticketRevisions[r], m.firstObservation, m.secondObservation)
            && var state := StateAfterRelease(db, db.ticketRevisions[r], m.firstObservation, m.secondObservation);
               Moved(db, m) == Noticed(Freed(WithTicket(db, r, state), m.attempt), m, m.attempt, m.expectedAttempt + 1)
  {
    LoadSucceeds(db, m.attempt);
    assert TicketAgrees(db, db.attempts[m.attempt].ticketRevision);
    hide LoadAttempt, TicketAgrees, StateAfterRelease;
  }

  lemma ReleaseMoveEndures(db: Db, m: Move)
    requires m.ReleaseAttempt? && Possible(db, m) && Enduring(db)
    ensures Linked(db) && TicketsAgree(db) && Enduring(Moved(db, m))
  {
    hide Possible, Enduring, FreshIds, Linked, TicketsAgree, Moved, WithTicket, Freed, Noticed;
    Facts(db);
    ReleaseMoveShape(db, m);
    var r := db.attempts[m.attempt].ticketRevision;
    var state := StateAfterRelease(db, db.ticketRevisions[r], m.firstObservation, m.secondObservation);
    TicketMoveEndures(db, r, state);
    AttemptsUnmoved(db, r, state);
    FreeEndures(WithTicket(db, r, state), m.attempt);
    NoticeEndures(Freed(WithTicket(db, r, state), m.attempt), m, m.attempt, m.expectedAttempt + 1);
  }

  lemma AttemptsUnmoved(db: Db, r: int, state: TicketState)
    requires r in db.ticketRevisions && db.ticketRevisions[r].ticket in db.tickets
    ensures WithTicket(db, r, state).attempts == db.attempts
  {
  }

  lemma SponsorMoveEndures(db: Db, m: Move)
    requires m.SponsorRevision? && Possible(db, m) && Enduring(db)
    ensures Linked(db) && TicketsAgree(db) && Enduring(Moved(db, m))
  {
    hide Enduring, FreshIds, Linked, TicketsAgree;
    Facts(db);
    var r := m.ticketRevision;
    TicketMoveEndures(db, r, TicketState.Sponsored);
    NoticeEndures(WithTicket(db, r, TicketState.Sponsored), m, r, m.expectedTicket + 1);
  }

  /** Every move of the ticket store keeps the facts. */
  lemma MoveOfTicketsEndures(db: Db, m: Move)
    requires Possible(db, m) && Enduring(db)
    ensures Linked(db) && TicketsAgree(db) && Enduring(Moved(db, m))
  {
    hide Possible, Enduring, FreshIds, Linked, TicketsAgree, SetBack;
    Facts(db);
    if m.SponsorRevision? {
      SponsorMoveEndures(db, m);
    } else if m.ReleaseAttempt? {
      ReleaseMoveEndures(db, m);
    } else {
      SetbackEndures(db, m);
      MovedIsSetBack(db, m);
    }
  }

  lemma MovedIsSetBack(db: Db, m: Move)
    requires IsSetback(m) && Possible(db, m) && Linked(db) && TicketsAgree(db)
    ensures m.attempt in db.attempts && Moved(db, m) == SetBack(db, m)
  {
    hide LoadAttempt, Retried, SetBack, Linked, TicketsAgree;
  }

  // ------------------------------------------------------------- mixed runs

  /** One transaction: a command or event, or a move of the ticket store. */
  datatype Act = Plain(event: Event) | Ticketed(move: Move)

  ghost predicate Allowed(db: Db, x: Act) {
    match x
    case Plain(e) => Enabled(db, e)
    case Ticketed(m) => Possible(db, m) && Linked(db) && TicketsAgree(db)
  }

  function Done(db: Db, x: Act): Db
    requires Allowed(db, x)
  {
    match x case Plain(e) => Apply(db, e) case Ticketed(m) => Moved(db, m)
  }

  ghost predicate IsMixed(db: Db, acts: seq<Act>)
    decreases |acts|
  {
    acts == [] || (Allowed(db, acts[0]) && IsMixed(Done(db, acts[0]), acts[1..]))
  }

  function Later(db: Db, acts: seq<Act>): Db
    requires IsMixed(db, acts)
    decreases |acts|
  {
    if acts == [] then db else Later(Done(db, acts[0]), acts[1..])
  }

  lemma ActEndures(db: Db, x: Act)
    requires Enduring(db) && Allowed(db, x)
    ensures Enduring(Done(db, x))
  {
    hide Enduring, Enabled, Possible, Apply, Moved, Linked, TicketsAgree;
    match x
    case Plain(e) => EventEndures(db, e);
    case Ticketed(m) => MoveOfTicketsEndures(db, m);
  }

  lemma {:induction false} MixedRunEndures(db: Db, acts: seq<Act>)
    requires Enduring(db) && IsMixed(db, acts)
    ensures Enduring(Later(db, acts))
    decreases |acts|
  {
    hide Enduring, Allowed, Done;
    if acts != [] {
      ActEndures(db, acts[0]);
      MixedRunEndures(Done(db, acts[0]), acts[1..]);
    }
  }

  lemma EmptyEndures()
    ensures Enduring(EMPTY)
  {
  }

  // ------------------------------------------------------- what always holds

  /** Whatever the ticket store does in between, a delivered candidate has its record. */
  lemma DeliveredHasRecordAnyway(acts: seq<Act>, k: int)
    returns (hard: int, quality: int, review: int, decision: int, delivery: int)
    requires IsMixed(EMPTY, acts) && k in Later(EMPTY, acts).candidates
    requires Later(EMPTY, acts).candidates[k].lifecycle == Delivered
    ensures Record(Later(EMPTY, acts), k, hard, quality, review, decision, delivery)
    ensures NothingElse(Later(EMPTY, acts), k, hard, quality, review, decision, delivery)
  {
    hide Enduring, IsMixed, Later, FreshIds, TicketsAgree, OneLive, LooselyFits, StagesFilled, CandidatesExact,
         AllNumbered, HoldersUnique, DeliveredOnce, TargetsKept, ReceiptsSound, ValidationsExact, ReviewsExact,
         DecisionsExact, DeliveriesExact, OneOfEach;
    EmptyEndures();
    MixedRunEndures(EMPTY, acts);
    var db := Later(EMPTY, acts);
    Facts(db);
    assert OnRecord(db, k);
    hard :| hard in db.validations && db.validations[hard].candidate == k
            && db.validations[hard].scope == HardCandidate && db.validations[hard].outcome == Passed;
    quality :| quality in db.validations && db.validations[quality].candidate == k
               && db.validations[quality].scope == QualityFullSuite && db.validations[quality].outcome == Passed;
    decision :| decision in db.decisions && db.decisions[decision].CandidateDecision?
                && db.decisions[decision].candidate == k && db.decisions[decision].choice == Deliver;
    delivery :| delivery in db.deliveries && db.deliveries[delivery].candidate == k;
    review := db.decisions[decision].review;
    RecordIsExact(db, k, hard, quality, decision, delivery);
    RecordIsOnly(db, k, hard, quality, review, decision, delivery);
  }

  /** Two attempts of one ticket are never both delivered, and a delivered ticket is done. */
  lemma TicketDeliveredOnce(acts: seq<Act>, a: int, b: int)
    requires IsMixed(EMPTY, acts) && a in Later(EMPTY, acts).attempts && b in Later(EMPTY, acts).attempts
    requires BothDelivered(Later(EMPTY, acts).attempts[a], Later(EMPTY, acts).attempts[b])
    ensures a == b
    ensures var db := Later(EMPTY, acts);
            && db.attempts[a].ticketRevision in db.ticketRevisions
            && db.ticketRevisions[db.attempts[a].ticketRevision].lifecycle == TicketDelivered
  {
    hide Enduring, IsMixed, Later;
    EmptyEndures();
    MixedRunEndures(EMPTY, acts);
    Facts(Later(EMPTY, acts));
  }

  /** At most one rework and at most two candidates, whatever is failed and retried. */
  lemma RoundsStayBounded(acts: seq<Act>, a: int)
    requires IsMixed(EMPTY, acts) && a in Later(EMPTY, acts).attempts
    ensures var db := Later(EMPTY, acts);
            && db.attempts[a].reworkOrdinal <= 1
            && |CandidatesOf(db, a)| == db.attempts[a].candidateOrdinal <= 2
  {
    hide Enduring, IsMixed, Later;
    EmptyEndures();
    MixedRunEndures(EMPTY, acts);
    Facts(Later(EMPTY, acts));
    assert Numbered(Later(EMPTY, acts), a);
  }

  lemma RefsStayOwn(acts: seq<Act>, k: int, m: int)
    requires IsMixed(EMPTY, acts) && k in Later(EMPTY, acts).candidates && m in Later(EMPTY, acts).candidates
    requires var db := Later(EMPTY, acts);
             db.candidates[k].ref.Some? && db.candidates[k].ref == db.candidates[m].ref
    ensures k == m
  {
    hide Enduring, IsMixed, Later;
    EmptyEndures();
    MixedRunEndures(EMPTY, acts);
    Facts(Later(EMPTY, acts));
    SharedRef(Later(EMPTY, acts), k, m);
  }

  lemma TargetStaysKept(acts: seq<Act>, campaign: int)
    requires IsMixed(EMPTY, acts) && campaign in Later(EMPTY, acts).campaigns
    ensures var db := Later(EMPTY, acts);
            var row, count := db.campaigns[campaign], |DeliveredAttempts(db, campaign)|;
            && count <= row.target
            && (row.lifecycle == CampaignRunning ==> count < row.target)
            && (row.lifecycle == CampaignCompleted ==> count == row.target)
  {
    hide Enduring, IsMixed, Later;
    EmptyEndures();
    MixedRunEndures(EMPTY, acts);
    Facts(Later(EMPTY, acts));
    assert TargetKept(Later(EMPTY, acts), campaign);
  }
}
