/** The Quality retry puts an attempt back to ReworkQuality. If the candidate's full suite is
    already on record, no review is taken at that stage and no second suite is recorded:
    the attempt is stranded for good. */
module DecisionStranding {
  import opened Basics
  import opened Commands
  import opened Decision
  import opened DecisionInvariant
  import opened DecisionFrames
  import opened DecisionSafety
  import opened DecisionEvents
  import opened DecisionSetbacks
  import opened DecisionEnduring
  import opened DecisionMixed
  import R = DecisionRuns

  const RETRY := "ticket_attempt.retry_quality"

  /** Retried once, its suite recorded, its candidate neither judged nor rejected. */
  ghost predicate Stranded(db: Db, a: int, k: int) {
    && a in db.attempts && (db.attempts[a].stage == ReworkQuality || db.attempts[a].stage == AttemptFailed)
    && k in db.candidates && db.candidates[k].attempt == a && db.candidates[k].lifecycle == Validated
    && HasScope(db, k, QualityFullSuite) && Retried(db, RETRY, a)
  }

  ghost predicate AuditGrows(db: Db, after: Db) {
    forall key :: key in db.audit ==> key in after.audit && after.audit[key] == db.audit[key]
  }

  // ------------------------------------------------------ what leaves it so

  /** No candidate, no validation and no attempt's stage is written. */
  ghost predicate Overlooks(db: Db, after: Db) {
    && after.candidates == db.candidates && after.validations == db.validations
    && (forall a :: a in db.attempts ==> a in after.attempts && after.attempts[a].stage == db.attempts[a].stage)
  }

  lemma RestLeaves(db: Db, after: Db, a: int, k: int)
    requires Stranded(db, a, k) && Overlooks(db, after) && AuditGrows(db, after)
    ensures Stranded(after, a, k)
  {
  }

  lemma OtherMoveLeaves(db: Db, after: Db, b: int, m: int, a: int, k: int)
    requires Stranded(db, a, k) && Moves(db, after, b, m) && OnlyAbout(db, after, m) && AuditGrows(db, after) && b != a
    ensures Stranded(after, a, k)
  {
    hide SameOwners;
  }

  lemma AttachLeaves(db: Db, c: Command, a: int, k: int)
    requires Stranded(db, a, k) && AttachPasses(db, c) && AuditGrows(db, AttachEffect(db, c).0)
    ensures Stranded(AttachEffect(db, c).0, a, k)
  {
    hide AttachGuard, FreshIds, Linked, TicketsAgree, Refs.IsCandidateRef;
  }

  lemma ValidationIsElsewhere(db: Db, c: Command, a: int, k: int)
    requires Stranded(db, a, k) && ValidationPasses(db, c) && OneLive(db)
    ensures db.candidates[c.candidate].attempt != a
  {
    hide ValidationGuard, FreshIds, TicketsAgree, HasScope, Linked, Retried;
    ValidationGuarded(db, c);
    ValidationIsNew(db, c);
    var row, live := db.candidates[c.candidate], db.candidates[k];
    assert !Rivals(row, live);
  }

  lemma AcceptedAudit(db: Db, c: Command)
    requires Accepts(db, c)
    ensures LockError(db, c).None? && Guard(db, c).None? && AuditGrows(db, Effect(db, c).0)
  {
    hide Guard, Effect, Step, StaticError, LockError, Accepts, FindAudit;
    R.AcceptedEffect(db, c);
    R.AcceptedIsRemembered(db, c);
    R.AcceptedKeyWasFree(db, c);
  }

  lemma CandidateCommandLeaves(db: Db, c: Command, a: int, k: int)
    requires Enduring(db) && Stranded(db, a, k) && Accepts(db, c)
    requires !c.SponsorTicket? && !c.ReleaseTicketAttempt?
    ensures LockError(db, c).None? && Guard(db, c).None? && Stranded(Effect(db, c).0, a, k)
  {
    hide Enduring, FreshIds, Linked, TicketsAgree, OneLive, FindAudit, Retried, HasScope, Moves, OnlyAbout, AuditGrows,
         SubmitGuard, ValidationGuard, AttachGuard, ReviewGuard, DecideGuard, DeliveryGuard, Decided, LoadAttempt,
         SubmitEffect, ValidationEffect, AttachEffect, ReviewEffect, DecideEffect, DeliveryEffect;
    Facts(db);
    AcceptedAudit(db, c);
    var after := Effect(db, c).0;
    if c.SubmitCandidate? {
      SubmitMoves(db, c);
      SubmitStarts(db, c);
      OtherMoveLeaves(db, after, c.attempt, db.nextId, a, k);
    } else if c.AttachCandidateCommit? {
      AttachLeaves(db, c, a, k);
    } else {
      var b := db.candidates[c.candidate].attempt;
      if c.RecordValidation? {
        ValidationMoves(db, c);
        ValidationIsElsewhere(db, c, a, k);
      } else if c.SubmitQualityReview? {
        ReviewMoves(db, c);
        ReviewGuarded(db, c);
      } else if c.DecideCandidate? {
        DecideLinks(db, c);
        DecideMoves(db, after, c);
        DecideGuarded(db, c);
      } else {
        DeliveryLinks(db, c);
        DeliveryMoves(db, c);
        DeliveryGuarded(db, c);
      }
      OtherMoveLeaves(db, after, b, c.candidate, a, k);
    }
  }

  lemma SponsorOverlooks(db: Db, c: Command)
    requires c.SponsorTicket? && c.ticketRevision in db.ticketRevisions
    requires db.ticketRevisions[c.ticketRevision].ticket in db.tickets
    ensures Overlooks(db, SponsorEffect(db, c).0)
  {
    hide Fingerprint;
  }

  lemma ReleaseOverlooks(db: Db, c: Command)
    requires c.ReleaseTicketAttempt? && c.attempt in db.attempts && ReleasePasses(db, c) && Linked(db)
             && TicketsAgree(db)
    ensures LoadAttempt(db, c.attempt).Ok? && ObservationsRegistered(db, c, LoadAttempt(db, c.attempt).value)
    ensures Overlooks(db, ReleaseEffect(db, c).0)
  {
    hide ReleaseGuard, Classify, Linked, TicketsAgree, Fingerprint;
    ReleaseGuarded(db, c);
  }

  lemma TicketCommandLeaves(db: Db, c: Command, a: int, k: int)
    requires Enduring(db) && Stranded(db, a, k) && Accepts(db, c) && (c.SponsorTicket? || c.ReleaseTicketAttempt?)
    ensures LockError(db, c).None? && Guard(db, c).None? && Stranded(Effect(db, c).0, a, k)
  {
    hide Enduring, FreshIds, Linked, TicketsAgree, FindAudit, Stranded, Overlooks, AuditGrows, SponsorEffect,
         ReleaseEffect, ReleaseGuard, LoadAttempt, StaticError, HasArtifact, LiveReproducerTaken;
    Facts(db);
    AcceptedAudit(db, c);
    if c.SponsorTicket? {
      SponsorOverlooks(db, c);
    } else {
      ReleaseOverlooks(db, c);
    }
    RestLeaves(db, Effect(db, c).0, a, k);
  }

  lemma EventLeaves(db: Db, e: Event, a: int, k: int)
    requires Enduring(db) && Stranded(db, a, k) && Enabled(db, e)
    ensures Stranded(Apply(db, e), a, k)
  {
    hide Enduring, Stranded, Step, Accepts, FreshIds, Linked, Overlooks, AuditGrows, Effect, TicketsAgree;
    Facts(db);
    if e.Ask? {
      if Accepts(db, e.command) {
        R.AcceptedEffect(db, e.command);
        if e.command.SponsorTicket? || e.command.ReleaseTicketAttempt? {
          TicketCommandLeaves(db, e.command, a, k);
        } else {
          CandidateCommandLeaves(db, e.command, a, k);
        }
      } else {
        R.RefusedWritesNothing(db, e.command);
      }
    } else {
      EventOverlooks(db, e);
      EventAudits(db, e);
      RestLeaves(db, Apply(db, e), a, k);
    }
  }

  lemma EventAudits(db: Db, e: Event)
    requires Enabled(db, e) && !e.Ask?
    ensures AuditGrows(db, Apply(db, e))
  {
    hide IsDecisionOperation, DeliveredAttempts, Step;
  }

  lemma EventOverlooks(db: Db, e: Event)
    requires FreshIds(db) && Enabled(db, e) && !e.Ask?
    ensures Overlooks(db, Apply(db, e))
  {
    hide IsDecisionOperation, DeliveredAttempts, Step;
  }

  lemma TicketedLeaves(db: Db, m: Move, a: int, k: int)
    requires Enduring(db) && Stranded(db, a, k) && Possible(db, m)
    ensures Linked(db) && TicketsAgree(db) && Stranded(Moved(db, m), a, k)
  {
    hide Enduring, FreshIds, Linked, TicketsAgree, Stranded, Possible, Moved, SetBack, AuditGrows, Overlooks;
    Facts(db);
    if m.SponsorRevision? || m.ReleaseAttempt? {
      TicketMoveOverlooks(db, m);
      RestLeaves(db, Moved(db, m), a, k);
    } else {
      MovedIsSetBack(db, m);
      SetbackLeaves(db, m, a, k);
    }
  }

  lemma TicketMoveOverlooks(db: Db, m: Move)
    requires Possible(db, m) && Linked(db) && TicketsAgree(db) && (m.SponsorRevision? || m.ReleaseAttempt?)
    ensures Overlooks(db, Moved(db, m)) && AuditGrows(db, Moved(db, m))
  {
    hide Linked, TicketsAgree, LoadAttempt, StateAfterRelease, OperationOf;
  }

  lemma SetbackLeaves(db: Db, m: Move, a: int, k: int)
    requires IsSetback(m) && Possible(db, m) && Stranded(db, a, k)
    ensures m.attempt in db.attempts && Stranded(SetBack(db, m), a, k)
  {
    hide LoadAttempt;
    assert k in CandidatesOf(db, a);
    var after := SetBack(db, m);
    RetriedStays(db, after, a);
    hide Retried, OperationOf;
  }

  lemma RetriedStays(db: Db, after: Db, a: int)
    requires Retried(db, RETRY, a) && AuditGrows(db, after)
    ensures Retried(after, RETRY, a)
  {
  }

  /** Nothing that can ever happen completes a stranded attempt: its candidate is never
      reviewed, accepted, delivered or rejected. */
  lemma {:induction false} StrandedForever(db: Db, acts: seq<Act>, a: int, k: int)
    requires Enduring(db) && Stranded(db, a, k) && IsMixed(db, acts)
    ensures Stranded(Later(db, acts), a, k)
    decreases |acts|
  {
    hide Enduring, Stranded, Enabled, Possible, Apply, Moved, Linked, TicketsAgree;
    if acts != [] {
      match acts[0] {
        case Plain(e) => EventLeaves(db, e, a, k);
        case Ticketed(m) => TicketedLeaves(db, m, a, k);
      }
      ActEndures(db, acts[0]);
      StrandedForever(Done(db, acts[0]), acts[1..], a, k);
    }
  }

  // ----------------------------------------------------- exactly when it is

  /** The full suite of a retried candidate, ready in every respect but its novelty. */
  ghost predicate SuiteReady(db: Db, c: Command) {
    && c.RecordValidation? && c.scope == QualityFullSuite && StaticError(c).None? && AuditKey(c) !in db.audit
    && c.candidate in db.candidates && c.expectedCandidate == db.candidates[c.candidate].revision
    && !Exhausted(c.expectedCandidate) && db.candidates[c.candidate].lifecycle == Validated
    && c.pristineTree == db.candidates[c.candidate].candidateTree
    && LoadAttempt(db, db.candidates[c.candidate].attempt).Ok?
    && var v := LoadAttempt(db, db.candidates[c.candidate].attempt).value;
       && c.expectedAttempt == v.row.revision && !Exhausted(v.row.revision) && v.ticket.lifecycle == InFlight
       && v.row.stage == ReworkQuality && c.build in db.builds && db.builds[c.build] == v.campaign.build
       && ViableSession(db, c.session, v.row.campaign, QualityOffice) && HasArtifact(db, c.commandSet)
       && HasArtifact(db, c.log)
  }

  /** A retry strands the attempt exactly when the suite was on record. */
  lemma RetryStrands(db: Db, m: Move)
    requires m.RetryQuality? && Possible(db, m) && Linked(db) && TicketsAgree(db)
    ensures Stranded(Moved(db, m), m.attempt, m.candidate) <==> HasScope(db, m.candidate, QualityFullSuite)
  {
    hide Linked, TicketsAgree, LoadAttempt;
    MovedIsSetBack(db, m);
    var after := Moved(db, m);
    assert m.key in after.audit && after.audit[m.key].operation == RETRY && after.audit[m.key].subjectId == m.attempt;
    assert HasScope(after, m.candidate, QualityFullSuite) == HasScope(db, m.candidate, QualityFullSuite);
  }

  /** After the retry a suite is accepted if and only if none was on record before it, and
      a pass then brings the attempt to the Architect; otherwise it is stranded. */
  lemma RetryIsStrandedExactly(db: Db, m: Move, c: Command)
    requires m.RetryQuality? && Possible(db, m) && Linked(db) && TicketsAgree(db)
    requires SuiteReady(Moved(db, m), c) && c.candidate == m.candidate && c.outcome == Passed
    ensures var after := Moved(db, m);
            && (Accepts(after, c) <==> !HasScope(db, m.candidate, QualityFullSuite))
            && (Stranded(after, m.attempt, m.candidate) <==> HasScope(db, m.candidate, QualityFullSuite))
    ensures var after := Step(Moved(db, m), c).0;
            Accepts(Moved(db, m), c) ==> m.attempt in after.attempts && after.attempts[m.attempt].stage == AwaitingArchitect
  {
    hide Linked, TicketsAgree, LoadAttempt, Fingerprint;
    MovedIsSetBack(db, m);
    RetryStrands(db, m);
    var after := Moved(db, m);
    assert HasScope(after, m.candidate, QualityFullSuite) == HasScope(db, m.candidate, QualityFullSuite);
  }
}
