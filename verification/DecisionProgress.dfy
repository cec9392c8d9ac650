/** Fencing: revisions count the accepted commands, so no two are accepted at one revision. */
module DecisionProgress {
  import opened Basics
  import opened Commands
  import opened Decision
  import opened DecisionInvariant
  import opened DecisionFrames
  import opened DecisionSafety
  import opened DecisionEvents
  import opened DecisionRuns

  // --------------------------------------------------------------- fencing

  predicate StampsCandidate(c: Command, k: int) {
    (c.RecordValidation? || c.AttachCandidateCommit? || c.SubmitQualityReview? || c.DecideCandidate? || c.RecordDelivery?)
    && c.candidate == k
  }

  /** `AttachCandidateCommit` is the one candidate command that leaves the attempt row alone. */
  predicate StampsAttempt(db: Db, c: Command, a: int) {
    if c.SubmitCandidate? || c.ReleaseTicketAttempt? then c.attempt == a
    else
      (c.RecordValidation? || c.SubmitQualityReview? || c.DecideCandidate? || c.RecordDelivery?)
      && c.candidate in db.candidates && db.candidates[c.candidate].attempt == a
  }

  predicate CandidateBumped(db: Db, after: Db, k: int, n: nat)
    requires k in db.candidates
  {
    && k in after.candidates && after.candidates[k].attempt == db.candidates[k].attempt
    && after.candidates[k].revision == db.candidates[k].revision + n
  }

  predicate AttemptBumped(db: Db, after: Db, a: int, n: nat)
    requires a in db.attempts
  {
    a in after.attempts && after.attempts[a].revision == db.attempts[a].revision + n
  }

  ghost predicate Stamped(db: Db, after: Db, c: Command) {
    && (forall k :: k in db.candidates ==> CandidateBumped(db, after, k, Bump(StampsCandidate(c, k))))
    && (forall a :: a in db.attempts ==> AttemptBumped(db, after, a, Bump(StampsAttempt(db, c, a))))
    && (forall k :: k in db.candidates && StampsCandidate(c, k) ==> c.expectedCandidate == db.candidates[k].revision)
    && (forall a :: a in db.attempts && StampsAttempt(db, c, a) ==> c.expectedAttempt == db.attempts[a].revision)
  }

  lemma SubmitStamps(db: Db, c: Command)
    requires c.SubmitCandidate? && SubmitPasses(db, c)
    ensures Stamped(db, SubmitEffect(db, c).0, c)
  {
    LoadSucceeds(db, c.attempt);
    hide TicketsAgree, LoadAttempt, Fingerprint;
  }

  lemma ValidationStamps(db: Db, c: Command)
    requires c.RecordValidation? && ValidationPasses(db, c)
    ensures c.build in db.builds && Stamped(db, ValidationEffect(db, c).0, c)
  {
    LoadSucceeds(db, db.candidates[c.candidate].attempt);
    hide TicketsAgree, LoadAttempt, Fingerprint, FreshIds;
  }

  lemma AttachStamps(db: Db, c: Command)
    requires c.AttachCandidateCommit? && AttachPasses(db, c)
    ensures Stamped(db, AttachEffect(db, c).0, c)
  {
    hide TicketsAgree, LoadAttempt, Fingerprint, FreshIds;
  }

  lemma ReviewStamps(db: Db, c: Command)
    requires c.SubmitQualityReview? && ReviewPasses(db, c)
    ensures Stamped(db, ReviewEffect(db, c).0, c)
  {
    LoadSucceeds(db, db.candidates[c.candidate].attempt);
    hide TicketsAgree, LoadAttempt, Fingerprint, FreshIds, QualityEvidenceError;
  }

  lemma DecideStamps(db: Db, c: Command)
    requires c.DecideCandidate? && DecidePasses(db, c)
    ensures LoadAttempt(db, db.candidates[c.candidate].attempt).Ok? && c.review in db.reviews
    ensures Stamped(db, DecideEffect(db, c).0, c)
  {
    hide TicketsAgree, LoadAttempt, Fingerprint, FreshIds, ChoiceError, SameOwners, HasPassed;
    LoadSucceeds(db, db.candidates[c.candidate].attempt);
    DecideLinks(db, c);
  }

  lemma DeliveryStamps(db: Db, c: Command)
    requires c.RecordDelivery? && DeliveryPasses(db, c)
    ensures LoadAttempt(db, db.candidates[c.candidate].attempt).Ok?
    ensures Stamped(db, DeliveryEffect(db, c).0, c)
  {
    LoadSucceeds(db, db.candidates[c.candidate].attempt);
    hide TicketsAgree, LoadAttempt, Fingerprint, FreshIds, CampaignError, Completes;
  }

  lemma TicketCommandStamps(db: Db, c: Command)
    requires (c.SponsorTicket? && c.ticketRevision in db.ticketRevisions && SponsorGuard(db, c).None?)
          || (c.ReleaseTicketAttempt? && ReleasePasses(db, c))
    requires Linked(db) && TicketsAgree(db)
    ensures LockError(db, c).None? && Guard(db, c).None? && Stamped(db, Effect(db, c).0, c)
  {
    if c.ReleaseTicketAttempt? {
      ReleaseGuarded(db, c);
    } else {
      assert TicketAgrees(db, c.ticketRevision);
    }
    hide TicketsAgree, LoadAttempt, Fingerprint, ObservationsRegistered, Classify;
  }

  lemma AcceptStamps(db: Db, c: Command)
    requires FreshIds(db) && Linked(db) && TicketsAgree(db) && Accepts(db, c)
    ensures Stamped(db, Effect(db, c).0, c)
  {
    hide FreshIds, Linked, TicketsAgree, Stamped, FindAudit, SubmitGuard, ValidationGuard, AttachGuard, ReviewGuard,
         SponsorGuard, ReleaseGuard, DecideGuard, DeliveryGuard, SubmitEffect, ValidationEffect, AttachEffect,
         ReviewEffect, SponsorEffect, ReleaseEffect, DecideEffect, DeliveryEffect;
    if c.SubmitCandidate? { SubmitStamps(db, c); }
    else if c.RecordValidation? { ValidationStamps(db, c); }
    else if c.AttachCandidateCommit? { AttachStamps(db, c); }
    else if c.SubmitQualityReview? { ReviewStamps(db, c); }
    else if c.DecideCandidate? { DecideStamps(db, c); }
    else if c.RecordDelivery? { DeliveryStamps(db, c); }
    else { TicketCommandStamps(db, c); }
  }

  /** Accepted commands of a run that stamped candidate `k`, and attempt `a`. */
  ghost function CandidateStamps(db: Db, events: seq<Event>, k: int): nat
    requires IsRun(db, events)
    decreases |events|
  {
    if events == [] then 0
    else
      var e := events[0];
      Bump(e.Ask? && Accepts(db, e.command) && StampsCandidate(e.command, k)) + CandidateStamps(Apply(db, e), events[1..], k)
  }

  ghost function AttemptStamps(db: Db, events: seq<Event>, a: int): nat
    requires IsRun(db, events)
    decreases |events|
  {
    if events == [] then 0
    else
      var e := events[0];
      Bump(e.Ask? && Accepts(db, e.command) && StampsAttempt(db, e.command, a)) + AttemptStamps(Apply(db, e), events[1..], a)
  }

  ghost predicate EventStamped(db: Db, after: Db, e: Event) {
    && (forall k :: k in db.candidates ==>
          CandidateBumped(db, after, k, Bump(e.Ask? && Accepts(db, e.command) && StampsCandidate(e.command, k))))
    && (forall a :: a in db.attempts ==>
          AttemptBumped(db, after, a, Bump(e.Ask? && Accepts(db, e.command) && StampsAttempt(db, e.command, a))))
  }

  lemma OtherEventStamps(db: Db, e: Event)
    requires FreshIds(db) && Enabled(db, e) && !e.Ask?
    ensures EventStamped(db, Apply(db, e), e)
  {
    hide Step, Accepts;
  }

  lemma EventStamps(db: Db, e: Event)
    requires Inv(db) && Enabled(db, e)
    ensures EventStamped(db, Apply(db, e), e)
  {
    hide Inv, FreshIds, Linked, TicketsAgree, OneLive, LiveFits, StagesFilled, EvidenceClosed, OneOfEach,
         ValidationsExact, TicketsOwned, ReviewsExact, DecisionsExact, DeliveriesExact, CandidatesExact, RoundsCounted,
         TargetsKept, ReceiptsSound, Step, Accepts, StampsCandidate, StampsAttempt;
    if e.Ask? {
      AskStamps(db, e.command);
    } else {
      hide Enabled, Apply, EventStamped;
      Parts(db);
      OtherEventStamps(db, e);
    }
  }

  lemma AskStamps(db: Db, c: Command)
    requires Inv(db)
    ensures if Accepts(db, c) then Stamped(db, Step(db, c).0, c) else Step(db, c).0 == db
  {
    hide Inv, FreshIds, Linked, TicketsAgree, OneLive, LiveFits, StagesFilled, EvidenceClosed, OneOfEach,
         ValidationsExact, TicketsOwned, ReviewsExact, DecisionsExact, DeliveriesExact, CandidatesExact, RoundsCounted,
         TargetsKept, ReceiptsSound, Effect, Guard, StaticError, LockError, Stamped;
    if Accepts(db, c) {
      Parts(db);
      AcceptStamps(db, c);
    }
  }

  /** Revisions count accepted commands, and nothing else changes them. */
  lemma {:induction false} RevisionsCount(db: Db, events: seq<Event>, k: int, a: int)
    requires Inv(db) && IsRun(db, events)
    ensures k in db.candidates ==> CandidateBumped(db, After(db, events), k, CandidateStamps(db, events, k))
    ensures a in db.attempts ==> AttemptBumped(db, After(db, events), a, AttemptStamps(db, events, a))
    decreases |events|
  {
    hide Inv, Enabled, Apply, Accepts, StampsCandidate, StampsAttempt;
    if events != [] {
      EventStamps(db, events[0]);
      EventKeepsInv(db, events[0]);
      RevisionsCount(Apply(db, events[0]), events[1..], k, a);
    }
  }

  /** Two commands on one candidate (or one attempt) are never both accepted at the
      same expected revision, however far apart they come. */
  lemma RevisionsFence(db: Db, first: Command, events: seq<Event>, second: Command, k: int, a: int)
    requires Inv(db) && Accepts(db, first) && IsRun(Step(db, first).0, events)
    requires Accepts(After(Step(db, first).0, events), second)
    ensures k in db.candidates && StampsCandidate(first, k) && StampsCandidate(second, k) ==>
              first.expectedCandidate < second.expectedCandidate
    ensures a in db.attempts && StampsAttempt(db, first, a)
            && StampsAttempt(After(Step(db, first).0, events), second, a) ==>
              first.expectedAttempt < second.expectedAttempt
  {
    hide Inv, Accepts, Step, Apply, Enabled, StampsAttempt;
    AskStamps(db, first);
    StepKeepsInv(db, first);
    RevisionsCount(Step(db, first).0, events, k, a);
    RunKeepsInv(Step(db, first).0, events);
    AskStamps(After(Step(db, first).0, events), second);
  }
}
