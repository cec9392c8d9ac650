/** What holds in every reachable state, said without the invariant's vocabulary. */
module DecisionTheorems {
  import opened Basics
  import opened Commands
  import opened Decision
  import opened DecisionInvariant
  import opened DecisionFrames
  import opened DecisionSafety
  import opened DecisionEvents
  import Refs

  /** The complete record of a delivered candidate: one hard and one full-suite
      validation, both passed on exactly its tree, an attached commit, one review
      citing that full-suite run, one Architect decision, and one delivery row. */
  ghost predicate Record(db: Db, k: int, hard: int, quality: int, review: int, decision: int, delivery: int)
    requires k in db.candidates
  {
    var row := db.candidates[k];
    && hard in db.validations && quality in db.validations && review in db.reviews && decision in db.decisions
    && delivery in db.deliveries
    && PassedOn(db.validations[hard], k, HardCandidate, row.candidateTree)
    && PassedOn(db.validations[quality], k, QualityFullSuite, row.candidateTree)
    && db.reviews[review].candidate == k && db.reviews[review].validation == quality
    && db.decisions[decision] == CandidateDecision(Deliver, k, review, db.reviews[review].verdict == RejectReview)
    && db.deliveries[delivery].candidate == k && row.commit == Some(db.deliveries[delivery].candidateCommit)
    && db.deliveries[delivery].oldCommit == row.baseCommit && db.deliveries[delivery].resultingTree == row.candidateTree
  }

  predicate PassedOn(v: ValidationRow, k: int, scope: Scope, tree: string) {
    v.candidate == k && v.scope == scope && v.outcome == Passed && v.pristineTree == tree
  }

  /** No other row of any of these tables is about the candidate. */
  ghost predicate NothingElse(db: Db, k: int, hard: int, quality: int, review: int, decision: int, delivery: int) {
    && (forall v :: v in db.validations && db.validations[v].candidate == k ==> v == hard || v == quality)
    && (forall r :: r in db.reviews && db.reviews[r].candidate == k ==> r == review)
    && (forall d :: d in db.decisions && db.decisions[d].CandidateDecision? && db.decisions[d].candidate == k ==>
          d == decision)
    && (forall d :: d in db.deliveries && db.deliveries[d].candidate == k ==> d == delivery)
  }

  lemma DeliveredHasRecord(db: Db, k: int)
    returns (hard: int, quality: int, review: int, decision: int, delivery: int)
    requires Inv(db) && k in db.candidates && db.candidates[k].lifecycle == Delivered
    ensures Record(db, k, hard, quality, review, decision, delivery)
    ensures NothingElse(db, k, hard, quality, review, decision, delivery)
  {
    hide Inv, FreshIds, TicketsAgree, OneLive, LiveFits, StagesFilled, CandidatesExact, RoundsCounted, TicketsOwned,
         TargetsKept, ReceiptsSound, ValidationsExact, ReviewsExact, DecisionsExact, DeliveriesExact, OneOfEach;
    Parts(db);
    assert Evidence(db, k);
    hard :| hard in db.validations && db.validations[hard].candidate == k && db.validations[hard].scope == HardCandidate
            && db.validations[hard].outcome == Passed;
    quality :| quality in db.validations && db.validations[quality].candidate == k && db.validations[quality].scope == QualityFullSuite
               && db.validations[quality].outcome == Passed;
    decision :| decision in db.decisions && db.decisions[decision].CandidateDecision? && db.decisions[decision].candidate == k
                && db.decisions[decision].choice == Deliver;
    delivery :| delivery in db.deliveries && db.deliveries[delivery].candidate == k;
    review := db.decisions[decision].review;
    RecordIsExact(db, k, hard, quality, decision, delivery);
    RecordIsOnly(db, k, hard, quality, review, decision, delivery);
  }

  lemma RecordIsExact(db: Db, k: int, hard: int, quality: int, decision: int, delivery: int)
    requires Linked(db) && ValidationsExact(db) && ReviewsExact(db) && DecisionsExact(db) && DeliveriesExact(db)
             && OneOfEach(db)
    requires k in db.candidates && hard in db.validations && quality in db.validations && decision in db.decisions
             && delivery in db.deliveries
    requires db.validations[hard].candidate == k && db.validations[hard].scope == HardCandidate
             && db.validations[hard].outcome == Passed
    requires db.validations[quality].candidate == k && db.validations[quality].scope == QualityFullSuite
             && db.validations[quality].outcome == Passed
    requires db.decisions[decision].CandidateDecision? && db.decisions[decision].candidate == k
             && db.decisions[decision].choice == Deliver
    requires db.deliveries[delivery].candidate == k
    ensures Record(db, k, hard, quality, db.decisions[decision].review, decision, delivery)
  {
    var review := db.decisions[decision].review;
    var cited := db.reviews[review].validation;
    assert SameScope(db.validations[cited], db.validations[quality]);
  }

  lemma RecordIsOnly(db: Db, k: int, hard: int, quality: int, review: int, decision: int, delivery: int)
    requires OneOfEach(db) && k in db.candidates && Record(db, k, hard, quality, review, decision, delivery)
    ensures NothingElse(db, k, hard, quality, review, decision, delivery)
  {
    forall v | v in db.validations && db.validations[v].candidate == k
      ensures v == hard || v == quality
    {
      assert SameScope(db.validations[v], db.validations[hard]) || SameScope(db.validations[v], db.validations[quality]);
    }
    forall d | d in db.decisions && db.decisions[d].CandidateDecision? && db.decisions[d].candidate == k
      ensures d == decision
    {
      assert SameCandidate(db.decisions[d], db.decisions[decision]);
    }
  }

  /** An attempt has at most one candidate that is not rejected, it has one exactly in
      the stages that need one, and the stage fixes that candidate's state. */
  lemma StageFixesCandidate(db: Db, a: int)
    requires Inv(db) && a in db.attempts
    ensures NeedsLive(db.attempts[a].stage) <==> HasLive(db, a)
    ensures forall k :: k in db.candidates && db.candidates[k].attempt == a && IsLive(db.candidates[k].lifecycle) ==>
              Fits(db.attempts[a].stage, db.candidates[k].lifecycle)
              && forall m :: m in db.candidates && db.candidates[m].attempt == a && m != k ==>
                    db.candidates[m].lifecycle == Rejected
  {
    hide Inv, FreshIds, TicketsAgree, EvidenceClosed, OneOfEach, ValidationsExact, ReviewsExact, DecisionsExact,
         DeliveriesExact, CandidatesExact, RoundsCounted, TicketsOwned, TargetsKept, ReceiptsSound;
    Parts(db);
    forall k, m | k in db.candidates && m in db.candidates && db.candidates[k].attempt == a && db.candidates[m].attempt == a
                  && IsLive(db.candidates[k].lifecycle) && m != k
      ensures db.candidates[m].lifecycle == Rejected
    {
      assert Rivals(db.candidates[k], db.candidates[m]) ==> k == m;
    }
  }

  /** At most one rework, hence at most two candidates. */
  lemma RoundsAreBounded(db: Db, a: int)
    requires Inv(db) && a in db.attempts
    ensures db.attempts[a].reworkOrdinal <= 1
    ensures |CandidatesOf(db, a)| == db.attempts[a].candidateOrdinal <= 2
  {
    hide Inv, FreshIds, Linked, TicketsAgree, OneLive, LiveFits, StagesFilled, EvidenceClosed, OneOfEach,
         ValidationsExact, ReviewsExact, DecisionsExact, DeliveriesExact, CandidatesExact, TicketsOwned, TargetsKept,
         ReceiptsSound;
    Parts(db);
    assert Counted(db, a);
  }

  /** Two attached candidates never share a ref. */
  lemma RefsAreOwn(db: Db, k: int, m: int)
    requires Inv(db) && k in db.candidates && m in db.candidates
    requires db.candidates[k].ref.Some? && db.candidates[k].ref == db.candidates[m].ref
    ensures k == m
  {
    hide Inv, FreshIds, TicketsAgree, OneLive, LiveFits, StagesFilled, EvidenceClosed, OneOfEach, ValidationsExact,
         ReviewsExact, DecisionsExact, DeliveriesExact, RoundsCounted, TicketsOwned, TargetsKept, ReceiptsSound,
         Refs.IsCandidateRef, Refs.NamesCandidate;
    Parts(db);
    SharedRef(db, k, m);
  }

  lemma SharedRef(db: Db, k: int, m: int)
    requires Linked(db) && CandidatesExact(db) && k in db.candidates && m in db.candidates
    requires db.candidates[k].ref.Some? && db.candidates[k].ref == db.candidates[m].ref
    ensures k == m
  {
    hide Refs.IsCandidateRef, Refs.NamesCandidate;
    assert CandidateExact(db, k) && CandidateExact(db, m);
    var t, u := db.ticketRevisions[db.attempts[db.candidates[k].attempt].ticketRevision].ticket,
                db.ticketRevisions[db.attempts[db.candidates[m].attempt].ticketRevision].ticket;
    Refs.RefNamesOneCandidate(db.candidates[k].ref.value, t, k, u, m);
  }

  /** A running campaign is short of its target and no campaign exceeds it. */
  lemma TargetNeverExceeded(db: Db, campaign: int)
    requires Inv(db) && campaign in db.campaigns
    ensures |DeliveredAttempts(db, campaign)| <= db.campaigns[campaign].target
    ensures db.campaigns[campaign].lifecycle == CampaignRunning ==>
              |DeliveredAttempts(db, campaign)| < db.campaigns[campaign].target
    ensures db.campaigns[campaign].lifecycle == CampaignCompleted ==>
              |DeliveredAttempts(db, campaign)| == db.campaigns[campaign].target
  {
    hide Inv, FreshIds, Linked, TicketsAgree, OneLive, LiveFits, StagesFilled, EvidenceClosed, OneOfEach,
         ValidationsExact, ReviewsExact, DecisionsExact, DeliveriesExact, CandidatesExact, TicketsOwned, RoundsCounted,
         ReceiptsSound;
    Parts(db);
    assert TargetKept(db, campaign);
  }

  /** A delivery completes its campaign exactly when it is the one that reaches the target. */
  lemma DeliveryCompletesExactly(db: Db, c: Command)
    requires Inv(db) && Accepts(db, c) && c.RecordDelivery?
    ensures c.candidate in db.candidates && db.candidates[c.candidate].attempt in db.attempts
    ensures var campaign := db.attempts[db.candidates[c.candidate].attempt].campaign;
            var (after, answer) := Step(db, c);
            && campaign in after.campaigns && answer.Ok? && answer.value.DeliveryReceipt?
            && |DeliveredAttempts(after, campaign)| == |DeliveredAttempts(db, campaign)| + 1
            && (answer.value.completed <==> |DeliveredAttempts(after, campaign)| == after.campaigns[campaign].target)
            && (after.campaigns[campaign].lifecycle == CampaignCompleted <==> answer.value.completed)
  {
    hide HasArtifact, PaidSessionActive, HasDelivery, HasDeliverDecision, Fingerprint, Replay, Inv, FreshIds, OneLive, LiveFits, StagesFilled, EvidenceClosed, OneOfEach, ValidationsExact, ReviewsExact,
         DecisionsExact, DeliveriesExact, CandidatesExact, TicketsOwned, RoundsCounted, ReceiptsSound;
    Parts(db);
    var k := db.candidates[c.candidate];
    assert TicketAgrees(db, db.attempts[k.attempt].ticketRevision);
    var campaign := db.attempts[k.attempt].campaign;
    var after := Step(db, c).0;
    assert TargetKept(db, campaign);
    assert DeliveredAttempts(after, campaign) == DeliveredAttempts(db, campaign) + {k.attempt};
  }

  // ------------------------------------------------- deciding a candidate

  /** Everything `decide_candidate` asks for apart from the choice itself. */
  predicate ReadyToDecide(db: Db, c: Command) {
    && c.DecideCandidate?
    && Bounded(c.rationale, 0x2_0000, false) && IsArchitectPrincipal(c.principal) && IsAuditIdentity(c.commandId)
    && AuditKey(c) !in db.audit
    && c.candidate in db.candidates && c.review in db.reviews && db.reviews[c.review].candidate == c.candidate
    && HasArtifact(db, c.rationale)
    && var k := db.candidates[c.candidate];
       && k.lifecycle == Validated && k.commit.Some? && k.revision == c.expectedCandidate && !Exhausted(k.revision)
       && k.attempt in db.attempts
       && var a := db.attempts[k.attempt];
          && a.stage == AwaitingArchitect && a.revision == c.expectedAttempt && !Exhausted(a.revision)
          && a.ticketRevision in db.ticketRevisions
          && db.ticketRevisions[a.ticketRevision].revision == c.expectedTicket
          && !Exhausted(db.ticketRevisions[a.ticketRevision].revision)
  }

  /** The choices that succeed. After a rejecting review only an overriding Deliver
      does: the decisions table admits the override flag on no other kind of row, yet
      the store sets it on every decision about a rejected review. */
  predicate ChoiceSucceeds(db: Db, c: Command)
    requires ReadyToDecide(db, c)
  {
    var rejected := db.reviews[c.review].verdict == RejectReview;
    match c.choice
    case Deliver => rejected == (c.overrideReview == Some(c.review))
    case Rework => !rejected && c.overrideReview.None? && db.attempts[db.candidates[c.candidate].attempt].reworkOrdinal == 0
    case Reject => !rejected && c.overrideReview.None?
  }

  lemma ReadyIsGuarded(db: Db, c: Command)
    requires Linked(db) && TicketsAgree(db) && EvidenceClosed(db) && TicketsOwned(db) && ReadyToDecide(db, c)
    ensures Guard(db, c).None? <==> StaticError(c).None? && ChoiceSucceeds(db, c)
  {
    LoadSucceeds(db, db.candidates[c.candidate].attempt);
    assert Evidence(db, c.candidate);
    hide LoadAttempt, TicketsAgree;
  }

  lemma DecisionSucceedsExactly(db: Db, c: Command)
    requires Inv(db) && ReadyToDecide(db, c)
    ensures Accepts(db, c) <==> ChoiceSucceeds(db, c)
  {
    hide Inv, FreshIds, Linked, TicketsAgree, OneLive, LiveFits, StagesFilled, OneOfEach, ValidationsExact,
         EvidenceClosed, ReviewsExact, DecisionsExact, DeliveriesExact, CandidatesExact, TicketsOwned, RoundsCounted,
         ReceiptsSound, TargetsKept, Guard;
    Parts(db);
    ReadyIsGuarded(db, c);
  }

  /** After a rejecting review, rework and rejection fail in every state. */
  lemma RejectedReviewForcesDeliver(db: Db, c: Command)
    requires Inv(db) && ReadyToDecide(db, c) && db.reviews[c.review].verdict == RejectReview && c.choice != Deliver
    ensures Step(db, c).0 == db && Step(db, c).1.Err?
    ensures c.overrideReview.None?
            && (c.choice == Rework ==> db.attempts[db.candidates[c.candidate].attempt].reworkOrdinal == 0) ==>
              Step(db, c).1.error == ConstraintViolation
  {
    hide Inv, FreshIds, OneLive, LiveFits, StagesFilled, OneOfEach, ValidationsExact, ReviewsExact, DecisionsExact,
         DeliveriesExact, CandidatesExact, RoundsCounted, ReceiptsSound, TargetsKept;
    Parts(db);
    LoadSucceeds(db, db.candidates[c.candidate].attempt);
    assert Evidence(db, c.candidate);
    hide LoadAttempt, TicketsAgree, Linked;
  }
}
