/** Every attempt comes to an end: a potential that each accepted command about an
    attempt or its candidates lowers, and that nothing else changes. */
module DecisionTermination {
  import opened Basics
  import opened Commands
  import opened Decision
  import opened DecisionInvariant
  import opened DecisionFrames
  import opened DecisionSafety
  import opened DecisionEvents
  import opened DecisionRuns

  /** What is left to do while the attempt has a live candidate. */
  function WithCandidate(a: AttemptRow, k: CandidateRow, reviewed: bool): nat {
    var later := if a.reworkOrdinal == 0 then 6 else 0;
    match k.lifecycle
    case Submitted => later + 6
    case Validated =>
      if a.stage == AwaitingArchitect then later + (if reviewed then 2 else if k.commit.Some? then 3 else 4)
      else later + (if k.commit.Some? then 4 else 5)
    case Accepted => 1
    case Delivered => 0
    case Rejected => 0
  }

  /** What is left to do between candidates. */
  function WithoutCandidate(a: AttemptRow): nat {
    if a.stage == Engineering then 13
    else if a.stage == ReworkEngineering then 7
    else if a.stage == AttemptFailed && !a.released then 1
    else 0
  }

  ghost function Potential(db: Db, a: int): (n: nat)
    requires a in db.attempts
    ensures n <= 13
  {
    if HasLive(db, a) then
      var k :| k in db.candidates && db.candidates[k].attempt == a && IsLive(db.candidates[k].lifecycle);
      WithCandidate(db.attempts[a], db.candidates[k], HasReview(db, k))
    else WithoutCandidate(db.attempts[a])
  }

  lemma PotentialOfLive(db: Db, a: int, k: int)
    requires OneLive(db) && a in db.attempts && k in db.candidates && db.candidates[k].attempt == a
             && IsLive(db.candidates[k].lifecycle)
    ensures Potential(db, a) == WithCandidate(db.attempts[a], db.candidates[k], HasReview(db, k))
  {
    assert HasLive(db, a);
    forall m | m in db.candidates && db.candidates[m].attempt == a && IsLive(db.candidates[m].lifecycle)
      ensures m == k
    {
      assert Rivals(db.candidates[m], db.candidates[k]);
    }
  }

  lemma PotentialWithoutLive(db: Db, a: int)
    requires Linked(db) && LiveFits(db) && a in db.attempts && !NeedsLive(db.attempts[a].stage)
    ensures Potential(db, a) == WithoutCandidate(db.attempts[a])
  {
    assert !HasLive(db, a);
  }

  /** Attempts that the change is not about keep their potential. */
  lemma PotentialFramed(db: Db, after: Db, b: int)
    requires OneLive(db) && OneLive(after) && b in db.attempts && b in after.attempts
    requires after.attempts[b] == db.attempts[b]
    requires forall k :: k in db.candidates && db.candidates[k].attempt == b ==>
               k in after.candidates && after.candidates[k] == db.candidates[k]
               && HasReview(after, k) == HasReview(db, k)
    requires forall k :: k in after.candidates && after.candidates[k].attempt == b ==>
              k in db.candidates && db.candidates[k].attempt == b
    ensures Potential(after, b) == Potential(db, b)
  {
    if HasLive(db, b) {
      var k :| k in db.candidates && db.candidates[k].attempt == b && IsLive(db.candidates[k].lifecycle);
      PotentialOfLive(db, b, k);
      PotentialOfLive(after, b, k);
    } else {
      assert !HasLive(after, b);
    }
  }

  lemma MoveSparesOthers(db: Db, after: Db, a: int, k: int, b: int)
    requires OneLive(db) && OneLive(after) && b in db.attempts && b != a
    requires Moves(db, after, a, k) && OnlyAbout(db, after, k)
    ensures b in after.attempts && Potential(after, b) == Potential(db, b)
  {
    forall m | m in db.candidates && db.candidates[m].attempt == b
      ensures m in after.candidates && after.candidates[m] == db.candidates[m]
              && HasReview(after, m) == HasReview(db, m)
    {
      EvidenceFramed(db, after, k, m);
    }
    PotentialFramed(db, after, b);
  }

  /** The attempt an accepted command is about; only sponsorship is about none. */
  predicate Concerns(db: Db, c: Command, a: int) {
    if c.SubmitCandidate? || c.ReleaseTicketAttempt? then c.attempt == a
    else !c.SponsorTicket? && c.candidate in db.candidates && db.candidates[c.candidate].attempt == a
  }

  ghost predicate Lowers(db: Db, after: Db, a: int)
    requires a in db.attempts
  {
    a in after.attempts && Potential(after, a) < Potential(db, a)
  }

  ghost predicate LowersOnly(db: Db, after: Db, a: int) {
    && a in db.attempts && Lowers(db, after, a)
    && (forall b :: b in db.attempts && b != a ==> b in after.attempts && Potential(after, b) == Potential(db, b))
  }

  lemma MoveLowersOnly(db: Db, after: Db, a: int, k: int)
    requires OneLive(db) && OneLive(after) && Moves(db, after, a, k) && OnlyAbout(db, after, k) && Lowers(db, after, a)
    ensures LowersOnly(db, after, a)
  {
    forall b | b in db.attempts && b != a
      ensures b in after.attempts && Potential(after, b) == Potential(db, b)
    {
      MoveSparesOthers(db, after, a, k, b);
    }
  }

  lemma SubmitLowers(db: Db, c: Command)
    requires c.SubmitCandidate? && SubmitPasses(db, c) && LiveFits(db) && RoundsCounted(db)
             && OneLive(SubmitEffect(db, c).0)
    ensures Lowers(db, SubmitEffect(db, c).0, c.attempt)
  {
    var after := SubmitEffect(db, c).0;
    LoadSucceeds(db, c.attempt);
    assert Counted(db, c.attempt);
    PotentialWithoutLive(db, c.attempt);
    PotentialOfLive(after, c.attempt, db.nextId);
    hide LoadAttempt, FreshIds, TicketsAgree, OneLive, LiveFits, RoundsCounted, Potential;
  }

  lemma ValidationLowers(db: Db, c: Command)
    requires c.RecordValidation? && ValidationPasses(db, c) && c.build in db.builds && OneLive(db) && EvidenceClosed(db)
    requires TicketsOwned(db)
    requires var after := ValidationEffect(db, c).0; Linked(after) && OneLive(after) && LiveFits(after)
    ensures Lowers(db, ValidationEffect(db, c).0, db.candidates[c.candidate].attempt)
  {
    var after, k := ValidationEffect(db, c).0, c.candidate;
    var a := db.candidates[k].attempt;
    LoadSucceeds(db, a);
    assert Evidence(db, k);
    assert HasReview(after, k) == HasReview(db, k);
    PotentialOfLive(db, a, k);
    if c.outcome == Passed {
      PotentialOfLive(after, a, k);
    } else {
      PotentialWithoutLive(after, a);
    }
    hide LoadAttempt, FreshIds, TicketsAgree, OneLive, LiveFits, EvidenceClosed, Potential, HasReview, HasScope,
         TicketsOwned, Linked;
  }

  lemma AttachLowers(db: Db, c: Command)
    requires c.AttachCandidateCommit? && AttachPasses(db, c) && OneLive(db) && EvidenceClosed(db)
             && OneLive(AttachEffect(db, c).0)
    ensures Lowers(db, AttachEffect(db, c).0, db.candidates[c.candidate].attempt)
  {
    var after, k := AttachEffect(db, c).0, c.candidate;
    var a := db.candidates[k].attempt;
    assert Evidence(db, k);
    assert HasReview(after, k) == HasReview(db, k);
    PotentialOfLive(db, a, k);
    PotentialOfLive(after, a, k);
    hide LoadAttempt, FreshIds, TicketsAgree, OneLive, EvidenceClosed, Potential, HasReview;
  }

  lemma ReviewLowers(db: Db, c: Command)
    requires c.SubmitQualityReview? && ReviewPasses(db, c) && OneLive(db) && OneLive(ReviewEffect(db, c).0)
    ensures Lowers(db, ReviewEffect(db, c).0, db.candidates[c.candidate].attempt)
  {
    var after, k := ReviewEffect(db, c).0, c.candidate;
    var a := db.candidates[k].attempt;
    ReviewGuarded(db, c);
    assert after.reviews[db.nextId].candidate == k;
    assert HasReview(after, k);
    PotentialOfLive(db, a, k);
    PotentialOfLive(after, a, k);
    hide ReviewGuard, FreshIds, TicketsAgree, OneLive, Potential, HasReview;
  }

  lemma ReviewExists(db: Db, r: int)
    requires r in db.reviews
    ensures HasReview(db, db.reviews[r].candidate)
  {
  }

  lemma DecideLowers(db: Db, after: Db, c: Command)
    requires c.DecideCandidate? && DecidePasses(db, c) && c.review in db.reviews && Decided(db, after, c)
    requires OneLive(db) && Linked(after) && OneLive(after) && LiveFits(after)
    ensures Lowers(db, after, db.candidates[c.candidate].attempt)
  {
    hide DecideGuard, FreshIds, TicketsAgree, OneLive, LiveFits, Potential, HasReview, SameOwners, HasPassed,
         LoadAttempt;
    var k := c.candidate;
    var a := db.candidates[k].attempt;
    DecideGuarded(db, c);
    ReviewExists(db, c.review);
    PotentialOfLive(db, a, k);
    if c.choice == Deliver {
      PotentialOfLive(after, a, k);
    } else {
      PotentialWithoutLive(after, a);
    }
  }

  lemma DeliveryLowers(db: Db, c: Command)
    requires c.RecordDelivery? && DeliveryPasses(db, c) && LoadAttempt(db, db.candidates[c.candidate].attempt).Ok?
    requires OneLive(db) && OneLive(DeliveryEffect(db, c).0)
    ensures Lowers(db, DeliveryEffect(db, c).0, db.candidates[c.candidate].attempt)
  {
    var after, k := DeliveryEffect(db, c).0, c.candidate;
    var a := db.candidates[k].attempt;
    DeliveryGuarded(db, c);
    PotentialOfLive(db, a, k);
    PotentialOfLive(after, a, k);
    hide DeliveryGuard, FreshIds, TicketsAgree, OneLive, Potential, HasReview, Completes;
  }

  lemma ReleaseLowers(db: Db, c: Command)
    requires c.ReleaseTicketAttempt? && ReleasePasses(db, c) && Linked(db) && TicketsAgree(db) && LiveFits(db)
    requires LoadAttempt(db, c.attempt).Ok? && ObservationsRegistered(db, c, LoadAttempt(db, c.attempt).value)
    requires RoundsCounted(db)
    requires var after := ReleaseEffect(db, c).0; Linked(after) && OneLive(db) && OneLive(after) && LiveFits(after)
    ensures LowersOnly(db, ReleaseEffect(db, c).0, c.attempt)
  {
    var after := ReleaseEffect(db, c).0;
    ReleaseGuarded(db, c);
    assert Counted(db, c.attempt);
    PotentialWithoutLive(db, c.attempt);
    PotentialWithoutLive(after, c.attempt);
    hide ReleaseGuard, TicketsAgree, LiveFits, Potential, ObservationsRegistered, Classify, OneLive, RoundsCounted;
    forall b | b in db.attempts && b != c.attempt
      ensures b in after.attempts && Potential(after, b) == Potential(db, b)
    {
      assert forall k :: HasReview(after, k) == HasReview(db, k);
      PotentialFramed(db, after, b);
    }
  }

  lemma CandidateCommandLowers(db: Db, c: Command)
    requires Inv(db) && Accepts(db, c) && Inv(Effect(db, c).0)
    requires c.SubmitCandidate? || c.RecordValidation? || c.AttachCandidateCommit? || c.SubmitQualityReview?
    ensures exists a :: a in db.attempts && Concerns(db, c, a) && LowersOnly(db, Effect(db, c).0, a)
  {
    hide Inv, FreshIds, Linked, TicketsAgree, OneLive, LiveFits, StagesFilled, EvidenceClosed, OneOfEach,
         ValidationsExact, TicketsOwned, ReviewsExact, DecisionsExact, DeliveriesExact, CandidatesExact, RoundsCounted,
         TargetsKept, ReceiptsSound, FindAudit, SubmitGuard, ValidationGuard, AttachGuard, ReviewGuard, SubmitEffect,
         ValidationEffect, AttachEffect, ReviewEffect, Moves, OnlyAbout, LowersOnly, Lowers;
    Parts(db);
    Parts(Effect(db, c).0);
    var after := Effect(db, c).0;
    if c.SubmitCandidate? {
      SubmitMoves(db, c);
      SubmitLowers(db, c);
      MoveLowersOnly(db, after, c.attempt, db.nextId);
      assert Concerns(db, c, c.attempt);
    } else {
      var a := db.candidates[c.candidate].attempt;
      if c.RecordValidation? {
        ValidationLinks(db, c);
        ValidationMoves(db, c);
        ValidationLowers(db, c);
      } else if c.AttachCandidateCommit? {
        AttachMoves(db, c);
        AttachLowers(db, c);
      } else {
        ReviewMoves(db, c);
        ReviewLowers(db, c);
      }
      MoveLowersOnly(db, after, a, c.candidate);
      assert Concerns(db, c, a);
    }
  }

  lemma ClosingCommandLowers(db: Db, c: Command)
    requires Inv(db) && Accepts(db, c) && Inv(Effect(db, c).0)
    requires c.DecideCandidate? || c.RecordDelivery? || c.ReleaseTicketAttempt?
    ensures exists a :: a in db.attempts && Concerns(db, c, a) && LowersOnly(db, Effect(db, c).0, a)
  {
    hide Inv, FreshIds, Linked, TicketsAgree, OneLive, LiveFits, StagesFilled, EvidenceClosed, OneOfEach,
         ValidationsExact, TicketsOwned, ReviewsExact, DecisionsExact, DeliveriesExact, CandidatesExact, RoundsCounted,
         TargetsKept, ReceiptsSound, FindAudit, DecideGuard, DeliveryGuard, ReleaseGuard, DecideEffect, DeliveryEffect,
         ReleaseEffect, Decided, Moves, OnlyAbout, LowersOnly, Lowers;
    Parts(db);
    Parts(Effect(db, c).0);
    var after := Effect(db, c).0;
    if c.ReleaseTicketAttempt? {
      ReleaseGuarded(db, c);
      ReleaseLowers(db, c);
      assert Concerns(db, c, c.attempt);
    } else {
      var a := db.candidates[c.candidate].attempt;
      if c.DecideCandidate? {
        DecideLinks(db, c);
        DecideMoves(db, after, c);
        DecideLowers(db, after, c);
      } else {
        DeliveryLinks(db, c);
        DeliveryMoves(db, c);
        DeliveryLowers(db, c);
      }
      MoveLowersOnly(db, after, a, c.candidate);
      assert Concerns(db, c, a);
    }
  }

  lemma AcceptLowers(db: Db, c: Command)
    requires Inv(db) && Accepts(db, c) && !c.SponsorTicket?
    ensures exists a :: a in db.attempts && Concerns(db, c, a) && LowersOnly(db, Step(db, c).0, a)
  {
    hide Inv, LowersOnly, Guard, Effect, LockError, FindAudit, StaticError;
    AcceptKeepsInv(db, c);
    if c.DecideCandidate? || c.RecordDelivery? || c.ReleaseTicketAttempt? {
      ClosingCommandLowers(db, c);
    } else {
      CandidateCommandLowers(db, c);
    }
  }

  /** Everything but the seven commands about attempts leaves every potential alone. */
  lemma IdleEventKeepsRows(db: Db, e: Event, b: int)
    requires FreshIds(db) && Enabled(db, e) && (e.Ask? ==> e.command.SponsorTicket? && Accepts(db, e.command))
             && b in db.attempts
    ensures var after := Apply(db, e);
            && after.candidates == db.candidates && after.reviews == db.reviews
            && b in after.attempts && after.attempts[b] == db.attempts[b]
  {
    hide Fingerprint, Receipted, IsDecisionOperation;
  }

  lemma SameReviews(db: Db, after: Db)
    requires after.reviews == db.reviews
    ensures forall k :: HasReview(after, k) == HasReview(db, k)
  {
  }

  lemma IdleEventKeepsPotential(db: Db, e: Event, b: int)
    requires FreshIds(db) && Linked(db) && Enabled(db, e)
             && (e.Ask? ==> e.command.SponsorTicket? && Accepts(db, e.command))
    requires OneLive(db) && OneLive(Apply(db, e)) && b in db.attempts
    ensures b in Apply(db, e).attempts && Potential(Apply(db, e), b) == Potential(db, b)
  {
    hide OneLive, Potential, HasReview, Apply, Enabled, FreshIds;
    var after := Apply(db, e);
    IdleEventKeepsRows(db, e, b);
    SameReviews(db, after);
    PotentialFramed(db, after, b);
  }

  lemma EventLowers(db: Db, e: Event, a: int)
    requires Inv(db) && Enabled(db, e) && a in db.attempts
    ensures a in Apply(db, e).attempts
    ensures Potential(Apply(db, e), a) + Bump(e.Ask? && Accepts(db, e.command) && Concerns(db, e.command, a)) <= Potential(db, a)
  {
    hide Inv, FreshIds, Linked, TicketsAgree, OneLive, LiveFits, StagesFilled, EvidenceClosed, OneOfEach,
         ValidationsExact, TicketsOwned, ReviewsExact, DecisionsExact, DeliveriesExact, CandidatesExact, RoundsCounted,
         TargetsKept, ReceiptsSound, Enabled, Accepts, Step, Potential;
    if e.Ask? && !Accepts(db, e.command) {
      RefusedWritesNothing(db, e.command);
      assert Apply(db, e) == db;
    } else if e.Ask? && !e.command.SponsorTicket? {
      AcceptLowers(db, e.command);
      assert Apply(db, e) == Step(db, e.command).0;
    } else {
      hide Apply;
      EventKeepsInv(db, e);
      Parts(db);
      Parts(Apply(db, e));
      IdleEventKeepsPotential(db, e, a);
    }
  }

  /** Accepted commands of a run about attempt `a` or one of its candidates. */
  ghost function AcceptedAbout(db: Db, events: seq<Event>, a: int): nat
    requires IsRun(db, events)
    decreases |events|
  {
    if events == [] then 0
    else
      var e := events[0];
      Bump(e.Ask? && Accepts(db, e.command) && Concerns(db, e.command, a)) + AcceptedAbout(Apply(db, e), events[1..], a)
  }

  /** Thirteen accepted commands at most ever touch an attempt, whatever else happens. */
  lemma {:induction false} AttemptsTerminate(db: Db, events: seq<Event>, a: int)
    requires Inv(db) && IsRun(db, events) && a in db.attempts
    ensures a in After(db, events).attempts
    ensures AcceptedAbout(db, events, a) + Potential(After(db, events), a) <= Potential(db, a) <= 13
    decreases |events|
  {
    hide Inv, Enabled, Apply, Accepts, Potential, Concerns;
    if events != [] {
      EventLowers(db, events[0], a);
      EventKeepsInv(db, events[0]);
      AttemptsTerminate(Apply(db, events[0]), events[1..], a);
    }
  }
}
