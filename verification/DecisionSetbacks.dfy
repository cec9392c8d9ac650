/** The ticket store's own transactions on tickets and attempts: failing an attempt,
    retrying its Quality or its Engineering stage, sponsoring a ticket and releasing an
    attempt. The first three write an attempt's stage without looking at its candidate. */
module DecisionSetbacks {
  import opened Basics
  import opened Decision
  import opened DecisionInvariant
  import opened DecisionFrames
  import opened DecisionSafety
  import opened DecisionEvents

  /** Each carries its audit identity and fingerprint, and the revisions it expects. */
  datatype Move =
    | FailAttempt(key: (string, string), fingerprint: string, attempt: int, expectedAttempt: nat, expectedTicket: nat)
    | RetryQuality(key: (string, string), fingerprint: string, attempt: int, expectedAttempt: nat, expectedTicket: nat,
                   candidate: int)
    | RetryEngineering(key: (string, string), fingerprint: string, attempt: int, expectedAttempt: nat,
                       expectedTicket: nat)
    | SponsorRevision(key: (string, string), fingerprint: string, ticketRevision: int, expectedTicket: nat)
    | ReleaseAttempt(key: (string, string), fingerprint: string, attempt: int, expectedAttempt: nat,
                     expectedTicket: nat,
                     firstObservation: int, secondObservation: int)

  function OperationOf(m: Move): string {
    match m
    case FailAttempt(_, _, _, _, _) => "ticket_attempt.fail"
    case RetryQuality(_, _, _, _, _, _) => "ticket_attempt.retry_quality"
    case RetryEngineering(_, _, _, _, _) => "ticket_attempt.retry_engineering"
    case SponsorRevision(_, _, _, _) => "ticket.sponsor"
    case ReleaseAttempt(_, _, _, _, _, _, _) => "ticket_attempt.release"
  }

  predicate IsSetback(m: Move) { m.FailAttempt? || m.RetryQuality? || m.RetryEngineering? }

  /** The audit log already holds this retry of this attempt. */
  predicate Retried(db: Db, operation: string, attempt: int) {
    exists key :: key in db.audit && db.audit[key].operation == operation && db.audit[key].subjectId == attempt
  }

  /** `lock_ticket_attempt` and the checks every move of an attempt makes on it. */
  predicate Held(db: Db, attempt: int, expectedAttempt: nat, expectedTicket: nat) {
    && LoadAttempt(db, attempt).Ok?
    && var a := LoadAttempt(db, attempt).value;
       && a.row.revision == expectedAttempt && a.ticket.revision == expectedTicket
       && a.ticket.lifecycle == InFlight && !Exhausted(a.row.revision)
  }

  predicate Possible(db: Db, m: Move) {
    && m.key !in db.audit
    && match m
       case FailAttempt(_, _, a, ea, et) =>
         && Held(db, a, ea, et) && a in db.attempts
         && db.attempts[a].stage != AttemptDelivered && db.attempts[a].stage != AttemptFailed
         && db.attempts[a].stage != AttemptCancelled
       case RetryQuality(_, _, a, ea, et, k) =>
         && Held(db, a, ea, et) && a in db.attempts
         && k in db.candidates && db.candidates[k].attempt == a && db.candidates[k].lifecycle == Validated
         && db.candidates[k].commit.Some? && (db.attempts[a].stage == Quality || db.attempts[a].stage == AttemptFailed)
         && !Retried(db, OperationOf(m), a)
       case RetryEngineering(_, _, a, ea, et) =>
         && Held(db, a, ea, et) && a in db.attempts
         && !db.attempts[a].released && db.attempts[a].stage == AttemptFailed
         && LoadAttempt(db, a).value.campaign.lifecycle == CampaignRunning
         && LoadAttempt(db, a).value.campaign.costState == CostKnown
         && CandidatesOf(db, a) == {} && !Retried(db, OperationOf(m), a)
       case SponsorRevision(_, _, r, et) =>
         && TicketAgrees(db, r) && db.ticketRevisions[r].revision == et && db.ticketRevisions[r].lifecycle == Proposed
         && !Exhausted(et)
       case ReleaseAttempt(_, _, a, ea, et, first, second) =>
         && Held(db, a, ea, et) && a in db.attempts && !Exhausted(et) && !db.attempts[a].released
         && (db.attempts[a].stage == AttemptFailed || db.attempts[a].stage == AttemptCancelled)
         && Observed(db, LoadAttempt(db, a).value.ticket, first, second)
  }

  /** `recoverable_quality_failure`: the retry the campaign driver looks for. */
  predicate Recoverable(db: Db, campaign: int, a: int, k: int) {
    && LoadAttempt(db, a).Ok? && a in db.attempts && db.attempts[a].campaign == campaign
    && db.attempts[a].stage == AttemptFailed && LoadAttempt(db, a).value.ticket.lifecycle == InFlight
    && k in db.candidates && db.candidates[k].attempt == a && db.candidates[k].lifecycle == Validated
    && db.candidates[k].commit.Some? && !HasReview(db, k) && !Retried(db, "ticket_attempt.retry_quality", a)
    && !Superseded(db, db.attempts[a].ticketRevision, k)
  }

  /** A newer candidate of the same ticket revision. */
  predicate Superseded(db: Db, r: int, k: int) {
    exists m :: m in db.candidates && m > k && db.candidates[m].attempt in db.attempts
                && db.attempts[db.candidates[m].attempt].ticketRevision == r
  }

  predicate Observed(db: Db, t: TicketRevisionRow, first: int, second: int) {
    && t.expectedObservation in db.artifacts && t.discoveryObservation in db.artifacts
    && first in db.artifacts && second in db.artifacts
  }

  /** `classify_requalification` and the ticket state it leads to. */
  function StateAfterRelease(db: Db, t: TicketRevisionRow, first: int, second: int): TicketState
    requires Observed(db, t, first, second)
  {
    var digest := db.artifacts[first].digest;
    if digest != db.artifacts[second].digest then Blocked
    else if digest == db.artifacts[t.expectedObservation].digest then Resolved
    else if digest == db.artifacts[t.discoveryObservation].digest then TicketState.Sponsored
    else Blocked
  }

  function StageAfter(m: Move): Stage
    requires IsSetback(m)
  {
    match m
    case FailAttempt(_, _, _, _, _) => AttemptFailed
    case RetryQuality(_, _, _, _, _, _) => ReworkQuality
    case RetryEngineering(_, _, _, _, _) => Engineering
  }

  function Audited(db: Db, m: Move, subject: int, revision: nat): map<(string, string), AuditRow> {
    db.audit[m.key := AuditRow(db.nextId, OperationOf(m), m.fingerprint, OtherSubject, subject, revision)]
  }

  /** The one attempt row a setback writes, and its receipt. */
  function SetBack(db: Db, m: Move): Db
    requires IsSetback(m) && m.attempt in db.attempts
  {
    var a := db.attempts[m.attempt];
    db.(attempts := db.attempts[m.attempt := a.(stage := StageAfter(m), revision := a.revision + 1)],
        audit := Audited(db, m, m.attempt, a.revision + 1), nextId := db.nextId + 1)
  }

  function Moved(db: Db, m: Move): Db
    requires Possible(db, m) && TicketsAgree(db) && Linked(db)
  {
    match m
    case SponsorRevision(_, _, r, et) =>
      WithTicket(db, r, TicketState.Sponsored).(audit := Audited(db, m, r, et + 1), nextId := db.nextId + 1)
    case ReleaseAttempt(_, _, a, ea, _, first, second) =>
      var row := db.attempts[a];
      assert TicketAgrees(db, row.ticketRevision);
      WithTicket(db, row.ticketRevision, StateAfterRelease(db, db.ticketRevisions[row.ticketRevision], first, second))
        .(attempts := db.attempts[a := row.(released := true, revision := row.revision + 1)],
          audit := Audited(db, m, a, ea + 1), nextId := db.nextId + 1)
    case _ => SetBack(db, m)
  }

  lemma LoadedIsThere(db: Db, a: int)
    requires LoadAttempt(db, a).Ok?
    ensures a in db.attempts && LoadAttempt(db, a).value.row == db.attempts[a]
    ensures db.attempts[a].ticketRevision in db.ticketRevisions
            && LoadAttempt(db, a).value.ticket == db.ticketRevisions[db.attempts[a].ticketRevision]
  {
  }

  // ------------------------------------------------ what one setback keeps

  lemma SetbackKeepsIds(db: Db, m: Move)
    requires IsSetback(m) && m.attempt in db.attempts && FreshIds(db) && Linked(db)
    ensures FreshIds(SetBack(db, m)) && Linked(SetBack(db, m))
  {
  }

  lemma SetbackMoves(db: Db, m: Move)
    requires IsSetback(m) && Possible(db, m) && FreshIds(db) && Linked(db)
    ensures m.attempt in db.attempts && db.attempts[m.attempt].stage != AttemptDelivered
    ensures var after := SetBack(db, m);
            && FreshIds(after) && Linked(after)
            && (forall a :: a in db.attempts <==> a in after.attempts)
            && (forall a :: a in db.attempts && a != m.attempt ==> after.attempts[a] == db.attempts[a])
            && SameAttempt(db.attempts[m.attempt], after.attempts[m.attempt])
            && after.attempts[m.attempt].released == db.attempts[m.attempt].released
  {
    hide LoadAttempt, FreshIds, Linked, Retried;
    SetbackKeepsIds(db, m);
  }

  lemma SetbackKeepsStages(db: Db, m: Move)
    requires IsSetback(m) && Possible(db, m) && Linked(db) && StagesFilled(db)
    ensures m.attempt in db.attempts && StagesFilled(SetBack(db, m))
  {
    hide LoadAttempt, Retried;
    var after := SetBack(db, m);
    forall a | a in after.attempts && NeedsLive(after.attempts[a].stage)
      ensures HasLive(after, a)
    {
      if a == m.attempt {
        assert m.RetryQuality? && after.candidates[m.candidate].attempt == a;
      } else {
        assert HasLive(db, a);
        var k :| k in db.candidates && db.candidates[k].attempt == a && IsLive(db.candidates[k].lifecycle);
        assert k in after.candidates;
      }
    }
  }

  lemma SetbackKeepsTargets(db: Db, m: Move)
    requires IsSetback(m) && Possible(db, m) && FreshIds(db) && Linked(db) && TargetsKept(db)
    ensures m.attempt in db.attempts && TargetsKept(SetBack(db, m))
  {
    hide Possible, FreshIds, Linked;
    SetbackMoves(db, m);
    MoveKeepsTargets(db, SetBack(db, m), m.attempt);
  }

  lemma SetbackKeepsRows(db: Db, m: Move)
    requires IsSetback(m) && Possible(db, m) && FreshIds(db) && Linked(db)
    requires ValidationsExact(db) && ReviewsExact(db) && DecisionsExact(db) && DeliveriesExact(db)
             && CandidatesExact(db)
    ensures m.attempt in db.attempts
    ensures var after := SetBack(db, m);
            && Linked(after) && ValidationsExact(after) && ReviewsExact(after) && DecisionsExact(after)
            && DeliveriesExact(after)
            && CandidatesExact(after)
  {
    hide Possible, FreshIds;
    SetbackMoves(db, m);
    var after := SetBack(db, m);
    forall k | k in after.candidates
      ensures CandidateExact(after, k)
    {
      assert CandidateExact(db, k);
    }
  }

  lemma OperationsAreOther(m: Move)
    ensures !IsDecisionOperation(OperationOf(m))
  {
  }

  lemma SetbackKeepsReceipts(db: Db, m: Move)
    requires IsSetback(m) && m.attempt in db.attempts && ReceiptsSound(db)
    ensures ReceiptsSound(SetBack(db, m))
  {
    hide OperationOf;
    OperationsAreOther(m);
    var after := SetBack(db, m);
    forall key | key in after.audit
      ensures SubjectExists(after, after.audit[key])
    {
      assert key != m.key ==> SubjectExists(db, after.audit[key]);
    }
  }

  lemma SetbackKeepsTickets(db: Db, m: Move)
    requires IsSetback(m) && m.attempt in db.attempts && TicketsAgree(db) && OneLive(db) && OneOfEach(db)
    ensures TicketsAgree(SetBack(db, m)) && OneLive(SetBack(db, m)) && OneOfEach(SetBack(db, m))
  {
    TicketsAgreeFramed(db, SetBack(db, m));
  }

  // --------------------------------------------- one attempt at a time

  /** No two unfinished attempts work on one ticket revision. */
  ghost predicate OneUnfinished(db: Db) {
    forall a, b :: a in db.attempts && b in db.attempts && BothWork(db.attempts[a], db.attempts[b]) ==> a == b
  }

  /** One revision has at most one unreleased attempt. */
  ghost predicate HoldersUnique(db: Db) {
    forall a, b :: a in db.attempts && b in db.attempts && BothHold(db.attempts[a], db.attempts[b]) ==> a == b
  }

  predicate BothWork(a: AttemptRow, b: AttemptRow) {
    a.ticketRevision == b.ticketRevision && Unfinished(a.stage) && Unfinished(b.stage)
  }

  /** The move makes a finished attempt work again. */
  predicate Revives(db: Db, m: Move) {
    (m.RetryQuality? || m.RetryEngineering?) && m.attempt in db.attempts && !Unfinished(db.attempts[m.attempt].stage)
  }

  /** Another attempt is at work on the same ticket revision. */
  predicate HasRival(db: Db, a: int)
    requires a in db.attempts
  {
    exists b :: b in db.attempts && b != a && db.attempts[b].ticketRevision == db.attempts[a].ticketRevision
                && Unfinished(db.attempts[b].stage)
  }

  /** A setback lets a second attempt work on a ticket revision exactly when it revives a
      finished one while another is at work. */
  lemma OneUnfinishedExactly(db: Db, m: Move)
    requires IsSetback(m) && Possible(db, m) && OneUnfinished(db)
    ensures m.attempt in db.attempts
    ensures OneUnfinished(SetBack(db, m)) <==> !(Revives(db, m) && HasRival(db, m.attempt))
  {
    hide LoadAttempt, Retried;
    var a, after := m.attempt, SetBack(db, m);
    if Revives(db, m) && HasRival(db, a) {
      var b :| b in db.attempts && b != a && db.attempts[b].ticketRevision == db.attempts[a].ticketRevision
               && Unfinished(db.attempts[b].stage);
      assert BothWork(after.attempts[a], after.attempts[b]);
    } else {
      forall c, d | c in after.attempts && d in after.attempts && BothWork(after.attempts[c], after.attempts[d])
        ensures c == d
      {
        assert c != a && d != a ==> BothWork(db.attempts[c], db.attempts[d]);
        assert !Revives(db, m) ==> BothWork(db.attempts[c], db.attempts[d]);
      }
    }
  }

  /** While tickets are owned, only the Quality retry can do that, and only to an attempt
      that has been released: it is the one retry that does not ask. */
  lemma RivalMeansReleased(db: Db, m: Move)
    requires Linked(db) && TicketsOwned(db) && IsSetback(m) && Possible(db, m) && Revives(db, m)
             && HasRival(db, m.attempt)
    ensures m.RetryQuality? && db.attempts[m.attempt].released
  {
    hide LoadAttempt, Retried;
    var a := m.attempt;
    var b :| b in db.attempts && b != a && db.attempts[b].ticketRevision == db.attempts[a].ticketRevision
             && Unfinished(db.attempts[b].stage);
    assert !db.attempts[b].released;
    var works, held := db.attempts[a], db.attempts[b];
    assert !BothHold(works, held);
  }

  /** That a released attempt stays failed, and that an unfinished one has its ticket in
      flight, survive a setback exactly unless it is the Quality retry of a released attempt;
      that one revision has at most one unreleased attempt always does. */
  lemma OwnershipSurvivesExactly(db: Db, m: Move)
    requires FreshIds(db) && Linked(db) && TicketsOwned(db) && IsSetback(m) && Possible(db, m)
    ensures m.attempt in db.attempts && Linked(SetBack(db, m))
    ensures TicketsOwned(SetBack(db, m)) <==> !(m.RetryQuality? && db.attempts[m.attempt].released)
    ensures HoldersUnique(SetBack(db, m))
  {
    hide LoadAttempt, FreshIds, Retried;
    SetbackKeepsIds(db, m);
    LoadedIsThere(db, m.attempt);
    var after := SetBack(db, m);
    assert after.attempts[m.attempt].released == db.attempts[m.attempt].released;
    assert m.RetryQuality? && db.attempts[m.attempt].released ==> after.attempts[m.attempt].stage == ReworkQuality;
    forall a, b | a in after.attempts && b in after.attempts && BothHold(after.attempts[a], after.attempts[b])
      ensures a == b
    {
      assert BothHold(db.attempts[a], db.attempts[b]);
    }
  }

  /** What ties a candidate's evidence to its attempt's stage, and an attempt's ordinals to its
      stage, is untouched for every other attempt and its candidates. */
  lemma SetbackIsLocal(db: Db, m: Move, k: int, b: int)
    requires IsSetback(m) && Possible(db, m) && FreshIds(db) && Linked(db)
    requires k in db.candidates && db.candidates[k].attempt != m.attempt && b in db.attempts && b != m.attempt
    ensures m.attempt in db.attempts && Linked(SetBack(db, m))
    ensures var after := SetBack(db, m);
            && (Evidence(after, k) <==> Evidence(db, k)) && (Counted(after, b) <==> Counted(db, b))
            && after.candidates[k] == db.candidates[k]
            && after.attempts[db.candidates[k].attempt] == db.attempts[db.candidates[k].attempt]
  {
    hide Possible, FreshIds;
    SetbackMoves(db, m);
    var after := SetBack(db, m);
    assert CandidatesOf(after, b) == CandidatesOf(db, b);
    assert HasDecision(after, k) == HasDecision(db, k) && HasDeliverDecision(after, k) == HasDeliverDecision(db, k);
    assert HasReview(after, k) == HasReview(db, k) && HasDelivery(after, k) == HasDelivery(db, k);
    assert forall c :: HasScope(after, k, c) == HasScope(db, k, c) && HasPassed(after, k, c) == HasPassed(db, k, c);
  }
}
