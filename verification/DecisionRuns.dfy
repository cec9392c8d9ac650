/** At-most-once: what repeated commands do, and what they are answered, over whole runs. */
module DecisionRuns {
  import opened Basics
  import opened Commands
  import opened Decision
  import opened DecisionInvariant
  import opened DecisionFrames
  import opened DecisionEvents

  /** One for a counted event. */
  function Bump(b: bool): nat { if b then 1 else 0 }

  // ------------------------------------------------------------ idempotency

  /** The database remembers that exactly this command was accepted. */
  predicate Remembers(db: Db, c: Command) { FindAudit(db, c).Seen? }

  /** A command whose audit key is taken never writes, whatever it asks for. */
  lemma TakenKeyNeverWrites(db: Db, c: Command)
    requires AuditKey(c) in db.audit
    ensures Step(db, c).0 == db
  {
  }

  /** The one receipt an effect adds. */
  ghost predicate AddsReceipt(db: Db, after: Db, c: Command) {
    && AuditKey(c) in after.audit && after.audit == db.audit[AuditKey(c) := after.audit[AuditKey(c)]]
    && after.audit[AuditKey(c)].operation == Operation(c) && after.audit[AuditKey(c)].fingerprint == Fingerprint(c)
  }

  lemma CandidateEffectReceipt(db: Db, c: Command)
    requires LockError(db, c).None? && Guard(db, c).None?
    requires c.SubmitCandidate? || c.RecordValidation? || c.AttachCandidateCommit? || c.SubmitQualityReview?
    ensures AddsReceipt(db, Effect(db, c).0, c)
  {
    hide Guard, LockError, Operation, Fingerprint, AuditKey, StageAfterValidation, LoadAttempt;
  }

  lemma TicketEffectReceipt(db: Db, c: Command)
    requires LockError(db, c).None? && Guard(db, c).None?
    requires c.SponsorTicket? || c.ReleaseTicketAttempt? || c.DecideCandidate? || c.RecordDelivery?
    ensures AddsReceipt(db, Effect(db, c).0, c)
  {
    hide Guard, LockError, Operation, Fingerprint, AuditKey, Classify, ObservationsRegistered, LoadAttempt, Completes,
         StateAfterChoice, StageAfterChoice;
  }

  lemma AcceptedEffect(db: Db, c: Command)
    requires Accepts(db, c)
    ensures LockError(db, c).None? && Guard(db, c).None? && Step(db, c) == (Effect(db, c).0, Ok(Effect(db, c).1))
  {
    hide Guard, Effect, StaticError, LockError;
  }

  lemma AcceptedIsRemembered(db: Db, c: Command)
    requires Accepts(db, c)
    ensures Remembers(Step(db, c).0, c)
    ensures Step(db, c).0.audit == db.audit[AuditKey(c) := Step(db, c).0.audit[AuditKey(c)]]
  {
    hide Guard, StaticError, LockError, Effect, Operation, Fingerprint, Step, Accepts;
    AcceptedEffect(db, c);
    if c.SubmitCandidate? || c.RecordValidation? || c.AttachCandidateCommit? || c.SubmitQualityReview? {
      CandidateEffectReceipt(db, c);
    } else {
      TicketEffectReceipt(db, c);
    }
  }

  lemma RefusedWritesNothing(db: Db, c: Command)
    requires !Accepts(db, c)
    ensures Step(db, c).0 == db
  {
  }

  /** Receipts are never changed or removed. */
  lemma ReceiptsPersist(db: Db, e: Event, key: (string, string))
    requires Enabled(db, e) && key in db.audit
    ensures key in Apply(db, e).audit && Apply(db, e).audit[key] == db.audit[key]
  {
    if e.Ask? {
      hide Step, Accepts;
      if Accepts(db, e.command) {
        AcceptedIsRemembered(db, e.command);
        AcceptedKeyWasFree(db, e.command);
      } else {
        RefusedWritesNothing(db, e.command);
      }
    }
  }

  lemma AcceptedKeyWasFree(db: Db, c: Command)
    requires Accepts(db, c)
    ensures AuditKey(c) !in db.audit
  {
  }

  lemma {:induction false} RunKeepsReceipts(db: Db, events: seq<Event>, key: (string, string))
    requires IsRun(db, events) && key in db.audit
    ensures key in After(db, events).audit && After(db, events).audit[key] == db.audit[key]
    decreases |events|
  {
    hide Enabled, Apply;
    if events != [] {
      ReceiptsPersist(db, events[0], key);
      RunKeepsReceipts(Apply(db, events[0]), events[1..], key);
    }
  }

  /** The run with every repeat of an already accepted command taken out. */
  ghost function Once(db: Db, events: seq<Event>, accepted: set<Command>): seq<Event>
    requires IsRun(db, events)
    decreases |events|
  {
    if events == [] then []
    else
      var e := events[0];
      var rest := Once(Apply(db, e), events[1..], if e.Ask? && Accepts(db, e.command) then accepted + {e.command} else accepted);
      if e.Ask? && e.command in accepted then rest else [e] + rest
  }

  /** At-most-once: repeats, however many and wherever they are, leave no trace. */
  lemma {:induction false} RepeatsLeaveNoTrace(db: Db, events: seq<Event>, accepted: set<Command>)
    requires IsRun(db, events)
    requires forall c :: c in accepted ==> Remembers(db, c)
    ensures IsRun(db, Once(db, events, accepted))
    ensures After(db, Once(db, events, accepted)) == After(db, events)
    decreases |events|
  {
    hide Enabled, Apply, Accepts, Remembers, Step;
    if events != [] {
      var e := events[0];
      var next := Apply(db, e);
      var now := if e.Ask? && Accepts(db, e.command) then accepted + {e.command} else accepted;
      forall c | c in now
        ensures Remembers(next, c)
      {
        StillRemembered(db, e, c);
      }
      RepeatsLeaveNoTrace(next, events[1..], now);
      var rest := Once(next, events[1..], now);
      if e.Ask? && e.command in accepted {
        RepeatIsIdle(db, e.command);
        assert Once(db, events, accepted) == rest;
      } else {
        assert Once(db, events, accepted) == [e] + rest;
        assert ([e] + rest)[1..] == rest;
      }
    }
  }

  lemma RepeatIsIdle(db: Db, c: Command)
    requires Remembers(db, c)
    ensures Enabled(db, Ask(c)) && Apply(db, Ask(c)) == db && !Accepts(db, c)
  {
  }

  lemma StillRemembered(db: Db, e: Event, c: Command)
    requires Enabled(db, e)
    requires Remembers(db, c) || (e == Ask(c) && Accepts(db, c))
    ensures Remembers(Apply(db, e), c)
  {
    hide Accepts, Step;
    if Remembers(db, c) {
      ReceiptsPersist(db, e, AuditKey(c));
      hide Apply, Enabled;
    } else {
      AcceptedIsRemembered(db, c);
      hide Enabled;
    }
  }

  // ----------------------------------------------------- answers to repeats

  function SubjectId(r: Receipt): int {
    match r
    case CandidateReceipt(id, _, _, _, _) => id
    case ValidationReceipt(id, _, _, _, _, _, _, _) => id
    case ReviewReceipt(id, _, _, _, _, _, _) => id
    case SponsorReceipt(id, _, _, _, _) => id
    case ReleaseReceipt(id, _, _, _, _, _, _) => id
    case DecisionReceipt(id, _, _, _, _, _, _, _, _) => id
    case DeliveryReceipt(id, _, _, _, _, _, _, _, _, _) => id
  }

  /** The receipt answers with the row it recorded, or repeats an earlier receipt. */
  predicate Reports(r: Receipt, row: AuditRow, retry: bool) {
    SubjectId(r) == row.subjectId && r.audit == row.id && r.retry == retry
  }

  lemma CandidateFirstAnswer(db: Db, c: Command)
    requires LockError(db, c).None? && Guard(db, c).None? && AuditKey(c) in Effect(db, c).0.audit
    requires c.SubmitCandidate? || c.RecordValidation? || c.AttachCandidateCommit? || c.SubmitQualityReview?
    ensures Reports(Effect(db, c).1, Effect(db, c).0.audit[AuditKey(c)], false)
  {
    hide Guard, LockError, Operation, Fingerprint, AuditKey, StageAfterValidation, LoadAttempt;
  }

  lemma TicketFirstAnswer(db: Db, c: Command)
    requires LockError(db, c).None? && Guard(db, c).None? && AuditKey(c) in Effect(db, c).0.audit
    requires c.SponsorTicket? || c.ReleaseTicketAttempt? || c.DecideCandidate? || c.RecordDelivery?
    ensures Reports(Effect(db, c).1, Effect(db, c).0.audit[AuditKey(c)], false)
  {
    hide Guard, LockError, Operation, Fingerprint, AuditKey, Classify, ObservationsRegistered, LoadAttempt, Completes,
         StateAfterChoice, StageAfterChoice;
  }

  lemma FirstAnswer(db: Db, c: Command)
    requires Accepts(db, c)
    ensures Step(db, c).1.Ok?
    ensures Remembers(Step(db, c).0, c)
    ensures Reports(Step(db, c).1.value, Step(db, c).0.audit[AuditKey(c)], false)
  {
    AcceptedIsRemembered(db, c);
    AcceptedEffect(db, c);
    hide Guard, StaticError, LockError, Effect, Operation, Fingerprint, Step, Accepts, Reports;
    if c.SubmitCandidate? || c.RecordValidation? || c.AttachCandidateCommit? || c.SubmitQualityReview? {
      CandidateFirstAnswer(db, c);
    } else {
      TicketFirstAnswer(db, c);
    }
  }

  /** What a release retry needs: its ticket still where a release can leave it. */
  predicate ReleaseStillVisible(db: Db, row: AuditRow) {
    row.subjectId in db.decisions && db.decisions[row.subjectId].ReleaseDecision?
    && db.decisions[row.subjectId].attempt in db.attempts
    && db.attempts[db.decisions[row.subjectId].attempt].ticketRevision in db.ticketRevisions
    && var ticket := db.ticketRevisions[db.attempts[db.decisions[row.subjectId].attempt].ticketRevision].lifecycle;
       ticket == Sponsored || ticket == Resolved || ticket == Blocked
  }

  function KnownReceipt(db: Db, c: Command): (row: AuditRow)
    requires Remembers(db, c)
    ensures AuditKey(c) in db.audit && row == db.audit[AuditKey(c)]
  {
    FindAudit(db, c).row
  }

  lemma RemembersTruly(db: Db, c: Command)
    requires Inv(db) && Remembers(db, c)
    ensures SubjectExists(db, db.audit[AuditKey(c)]) && db.audit[AuditKey(c)].operation == Operation(c)
  {
    hide Inv, FreshIds, Linked, TicketsAgree, OneLive, LiveFits, StagesFilled, EvidenceClosed, OneOfEach,
         ValidationsExact, TicketsOwned, ReviewsExact, DecisionsExact, DeliveriesExact, CandidatesExact, RoundsCounted,
         TargetsKept;
    Parts(db);
  }

  predicate Loads(db: Db, a: int) {
    && LoadAttempt(db, a).Ok?
    && var view := LoadAttempt(db, a).value;
       view.row.ticketRevision in db.ticketRevisions && view.ticket == db.ticketRevisions[view.row.ticketRevision]
       && a in db.attempts && view.row == db.attempts[a]
  }

  lemma EveryAttemptLoads(db: Db)
    requires Linked(db) && TicketsAgree(db)
    ensures forall a :: a in db.attempts ==> Loads(db, a)
  {
    forall a | a in db.attempts
      ensures Loads(db, a)
    {
      assert TicketAgrees(db, db.attempts[a].ticketRevision);
    }
  }

  lemma CandidateAnswer(db: Db, c: Command, row: AuditRow)
    requires Linked(db) && TicketsAgree(db) && SubjectExists(db, row) && row.operation == Operation(c)
    requires c.SubmitCandidate? || c.AttachCandidateCommit? || c.RecordValidation? || c.SubmitQualityReview?
    ensures Replay(db, c, row).Ok? && Reports(Replay(db, c, row).value, row, true)
  {
    EveryAttemptLoads(db);
    hide LoadAttempt, TicketsAgree;
  }

  lemma ArchitectAnswer(db: Db, c: Command, row: AuditRow)
    requires Linked(db) && TicketsAgree(db) && SubjectExists(db, row) && row.operation == Operation(c)
    requires c.SponsorTicket? || c.DecideCandidate? || c.RecordDelivery?
    ensures Replay(db, c, row).Ok? && Reports(Replay(db, c, row).value, row, true)
  {
    hide LoadAttempt;
    EveryAttemptLoads(db);
  }

  lemma ReleaseAnswer(db: Db, c: Command, row: AuditRow)
    requires Linked(db) && TicketsAgree(db) && SubjectExists(db, row) && row.operation == Operation(c)
             && c.ReleaseTicketAttempt?
    ensures Replay(db, c, row).Ok? <==> ReleaseStillVisible(db, row)
    ensures Replay(db, c, row).Ok? ==> Reports(Replay(db, c, row).value, row, true)
  {
    EveryAttemptLoads(db);
    hide LoadAttempt, TicketsAgree;
  }

  /** A repeat gets the original subject and audit id back. Only a release can lose
      its answer, exactly when its ticket has moved on. */
  lemma RepeatAnswer(db: Db, c: Command)
    requires Inv(db) && Remembers(db, c)
    ensures var row := db.audit[AuditKey(c)];
            && (Replay(db, c, row).Ok? <==> (c.ReleaseTicketAttempt? ==> ReleaseStillVisible(db, row)))
            && (Replay(db, c, row).Ok? ==> Reports(Replay(db, c, row).value, row, true))
  {
    hide *;
    Parts(db);
    RemembersTruly(db, c);
    var row := KnownReceipt(db, c);
    if c.ReleaseTicketAttempt? {
      ReleaseAnswer(db, c, row);
    } else if c.SponsorTicket? || c.DecideCandidate? || c.RecordDelivery? {
      ArchitectAnswer(db, c, row);
    } else {
      CandidateAnswer(db, c, row);
    }
  }

  ghost predicate Grows(db: Db, after: Db) {
    && (forall k :: k in db.candidates ==> k in after.candidates)
    && (forall a :: a in db.attempts ==> a in after.attempts)
    && (forall r :: r in db.ticketRevisions ==> r in after.ticketRevisions)
  }

  lemma AcceptGrows(db: Db, c: Command)
    requires Accepts(db, c)
    ensures Grows(db, Step(db, c).0)
  {
    hide Guard, StaticError, LockError, Classify, Fingerprint, LoadAttempt, Receipted, FindAudit,
         ObservationsRegistered, Completes;
  }

  lemma EventGrows(db: Db, e: Event)
    requires Enabled(db, e)
    ensures Grows(db, Apply(db, e))
  {
    if e.Ask? {
      if Accepts(db, e.command) { AcceptGrows(db, e.command); } else { RefusedWritesNothing(db, e.command); }
      hide Step, Accepts;
    } else {
      hide Step, Accepts;
    }
  }

  lemma {:induction false} RunGrows(db: Db, events: seq<Event>)
    requires IsRun(db, events)
    ensures Grows(db, After(db, events))
    decreases |events|
  {
    hide Enabled, Apply;
    if events != [] {
      EventGrows(db, events[0]);
      RunGrows(Apply(db, events[0]), events[1..]);
    }
  }

  lemma LockFoundAgain(db: Db, after: Db, c: Command)
    requires LockError(db, c).None? && Grows(db, after)
    ensures LockError(after, c).None?
  {
  }

  /** The whole story of one acceptance: at any later time the same command writes
      nothing and reports the same subject and audit id (only a release may find its
      answer gone), and a different command under the same identity writes nothing,
      is never accepted, and conflicts once it is well formed and names a known row. */
  lemma AcceptedOnce(db: Db, c: Command, events: seq<Event>, other: Command)
    requires Inv(db) && Accepts(db, c) && IsRun(Step(db, c).0, events)
    requires AuditKey(other) == AuditKey(c)
    ensures var first := Step(db, c).1;
            var later := After(Step(db, c).0, events);
            var again := Step(later, other);
            && again.0 == later && first.Ok?
            && (other == c && again.1.Ok? ==>
                  again.1.value.retry && !first.value.retry && again.1.value.audit == first.value.audit
                  && SubjectId(again.1.value) == SubjectId(first.value))
            && (other == c && !c.ReleaseTicketAttempt? ==> again.1.Ok?)
            && (other != c ==> again.1.Err?)
            && (other != c && StaticError(other).None? && LockError(later, other).None? ==>
                  again.1.error == IdempotencyConflict)
  {
    hide Inv, Guard, Effect, Replay, StaticError, LockError, SubjectExists, Fingerprint, IsRun, ReleaseStillVisible,
         Enabled, Apply;
    var now := Step(db, c).0;
    AcceptedIsRemembered(db, c);
    FirstAnswer(db, c);
    AcceptGrows(db, c);
    StepKeepsInv(db, c);
    RunKeepsInv(now, events);
    RunKeepsReceipts(now, events, AuditKey(c));
    RunGrows(now, events);
    var later := After(now, events);
    LockFoundAgain(db, now, c);
    LockFoundAgain(now, later, c);
    TakenKeyNeverWrites(later, other);
    FingerprintInjective(c, other);
    if other == c {
      RepeatAnswer(later, c);
    }
  }
}
