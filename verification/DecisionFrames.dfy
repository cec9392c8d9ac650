/** How the invariant survives one transaction.

    Six of the eight commands have the same shape: they update or insert one
    candidate, update its attempt, and add evidence rows about that candidate
    only. Each lemma here carries one part of the invariant across such a move. */
module DecisionFrames {
  import opened Basics
  import opened Commands
  import opened Decision
  import opened DecisionInvariant

  predicate SameAttempt(a: AttemptRow, b: AttemptRow) {
    && a.ticketRevision == b.ticketRevision && a.campaign == b.campaign
    && a.claimedCommit == b.claimedCommit && a.claimedTree == b.claimedTree
  }

  /** Immutable columns, and a commit that is never replaced once attached. */
  predicate SameCandidateRow(k: CandidateRow, m: CandidateRow) {
    && k.attempt == m.attempt && k.baseCommit == m.baseCommit && k.baseTree == m.baseTree
    && k.candidateTree == m.candidateTree && k.session == m.session
    && (k.commit.Some? ==> m.commit == k.commit && m.ref == k.ref)
  }

  /** Ticket and campaign rows may advance; their identity and links may not change. */
  ghost predicate SameOwners(db: Db, after: Db) {
    && (forall t :: t in after.tickets <==> t in db.tickets)
    && (forall r :: r in after.ticketRevisions <==> r in db.ticketRevisions)
    && (forall r :: r in db.ticketRevisions ==> after.ticketRevisions[r].ticket == db.ticketRevisions[r].ticket)
    && (forall c :: c in after.campaigns <==> c in db.campaigns)
    && (forall c :: c in db.campaigns ==>
          after.campaigns[c].build == db.campaigns[c].build && after.campaigns[c].target == db.campaigns[c].target)
  }

  ghost predicate Moves(db: Db, after: Db, a: int, k: int) {
    && SameOwners(db, after)
    && a in db.attempts && a in after.attempts && after.attempts == db.attempts[a := after.attempts[a]]
    && SameAttempt(db.attempts[a], after.attempts[a])
    && k in after.candidates && after.candidates == db.candidates[k := after.candidates[k]]
    && after.candidates[k].attempt == a
    && (k in db.candidates ==>
          SameCandidateRow(db.candidates[k], after.candidates[k]) && IsLive(db.candidates[k].lifecycle))
    && (k !in db.candidates ==> !NeedsLive(db.attempts[a].stage))
  }

  /** Evidence rows are only added, and only about candidate `k`. */
  ghost predicate OnlyAbout(db: Db, after: Db, k: int) {
    && (forall v :: v in db.validations ==> v in after.validations && after.validations[v] == db.validations[v])
    && (forall v :: v in after.validations && v !in db.validations ==> after.validations[v].candidate == k)
    && (forall r :: r in db.reviews ==> r in after.reviews && after.reviews[r] == db.reviews[r])
    && (forall r :: r in after.reviews && r !in db.reviews ==> after.reviews[r].candidate == k)
    && (forall d :: d in db.decisions ==> d in after.decisions && after.decisions[d] == db.decisions[d])
    && (forall d :: d in after.decisions && d !in db.decisions ==>
          after.decisions[d].CandidateDecision? && after.decisions[d].candidate == k)
    && (forall d :: d in db.deliveries ==> d in after.deliveries && after.deliveries[d] == db.deliveries[d])
    && (forall d :: d in after.deliveries && d !in db.deliveries ==> after.deliveries[d].candidate == k)
  }

  /** The moved candidate and its attempt's stage agree again. */
  ghost predicate Settled(after: Db, a: int, k: int)
    requires a in after.attempts && k in after.candidates
  {
    if IsLive(after.candidates[k].lifecycle) then Fits(after.attempts[a].stage, after.candidates[k].lifecycle)
    else !NeedsLive(after.attempts[a].stage)
  }

  ghost predicate NewRowsExact(db: Db, after: Db, a: int, k: int)
    requires Linked(after) && a in after.attempts && k in after.candidates
  {
    && (forall v :: v in after.validations && v !in db.validations ==>
          after.validations[v].pristineTree == after.candidates[k].candidateTree
          && after.validations[v].build == after.campaigns[after.attempts[a].campaign].build)
    && (forall r :: r in after.reviews && r !in db.reviews ==>
          var v := after.validations[after.reviews[r].validation];
          v.candidate == k && v.scope == QualityFullSuite && v.outcome == Passed)
    && (forall d :: d in after.decisions && d !in db.decisions && after.decisions[d].CandidateDecision? ==>
          var r := after.reviews[after.decisions[d].review];
          r.candidate == k && after.decisions[d].overrides == (r.verdict == RejectReview)
          && (after.decisions[d].overrides ==> after.decisions[d].choice == Deliver))
    && (forall d :: d in after.deliveries && d !in db.deliveries ==>
          && after.candidates[k].commit == Some(after.deliveries[d].candidateCommit)
          && after.deliveries[d].oldCommit == after.candidates[k].baseCommit
          && after.deliveries[d].resultingTree == after.candidates[k].candidateTree)
  }

  /** The attempt is not released, and its own ticket only changes when it ends. */
  ghost predicate StaysOwned(db: Db, after: Db, a: int)
    requires Linked(db) && Linked(after) && SameOwners(db, after)
    requires a in db.attempts && a in after.attempts && SameAttempt(db.attempts[a], after.attempts[a])
  {
    && Unfinished(db.attempts[a].stage) && !db.attempts[a].released && !after.attempts[a].released
    && (forall r :: r in db.ticketRevisions && r != db.attempts[a].ticketRevision ==>
          after.ticketRevisions[r].lifecycle == db.ticketRevisions[r].lifecycle)
    && (Unfinished(after.attempts[a].stage) ==>
          after.ticketRevisions[after.attempts[a].ticketRevision].lifecycle == InFlight)
  }

  lemma MoveKeepsLiveness(db: Db, after: Db, a: int, k: int)
    requires Linked(db) && Linked(after) && OneLive(db) && LiveFits(db) && StagesFilled(db)
    requires Moves(db, after, a, k)
    requires Settled(after, a, k)
    ensures OneLive(after) && LiveFits(after) && StagesFilled(after)
  {
    forall m | m in db.candidates && m != k && db.candidates[m].attempt == a
      ensures !IsLive(db.candidates[m].lifecycle)
    {
      RivalsAreDead(db, after, a, k, m);
    }
    forall b | b in after.attempts && NeedsLive(after.attempts[b].stage)
      ensures HasLive(after, b)
    {
      if b == a {
        assert k in after.candidates && after.candidates[k].attempt == b && IsLive(after.candidates[k].lifecycle);
      } else {
        assert HasLive(db, b);
        var m :| m in db.candidates && db.candidates[m].attempt == b && IsLive(db.candidates[m].lifecycle);
        assert m in after.candidates && after.candidates[m] == db.candidates[m];
      }
    }
  }

  lemma RivalsAreDead(db: Db, after: Db, a: int, k: int, m: int)
    requires Linked(db) && OneLive(db) && LiveFits(db)
    requires Moves(db, after, a, k)
    requires m in db.candidates && m != k && db.candidates[m].attempt == a
    ensures db.candidates[m].lifecycle == Rejected
  {
    if k in db.candidates {
      assert Rivals(db.candidates[k], db.candidates[m]) ==> k == m;
    }
  }

  lemma EvidenceFramed(db: Db, after: Db, k: int, m: int)
    requires OnlyAbout(db, after, k) && m != k
    ensures forall s :: HasScope(after, m, s) == HasScope(db, m, s)
    ensures forall s :: HasPassed(after, m, s) == HasPassed(db, m, s)
    ensures HasReview(after, m) == HasReview(db, m) && HasDelivery(after, m) == HasDelivery(db, m)
    ensures HasDecision(after, m) == HasDecision(db, m) && HasDeliverDecision(after, m) == HasDeliverDecision(db, m)
  {
  }

  lemma EvidenceGrows(db: Db, after: Db, k: int)
    requires OnlyAbout(db, after, k)
    ensures forall s :: HasScope(db, k, s) ==> HasScope(after, k, s)
    ensures forall s :: HasPassed(db, k, s) ==> HasPassed(after, k, s)
    ensures HasReview(db, k) ==> HasReview(after, k)
    ensures HasDeliverDecision(db, k) ==> HasDeliverDecision(after, k)
  {
  }

  lemma MoveKeepsEvidence(db: Db, after: Db, a: int, k: int)
    requires Linked(db) && Linked(after) && OneLive(db) && LiveFits(db) && EvidenceClosed(db)
    requires Moves(db, after, a, k) && OnlyAbout(db, after, k)
    requires Evidence(after, k)
    ensures EvidenceClosed(after)
  {
    forall m | m in after.candidates && m != k
      ensures Evidence(after, m)
    {
      EvidenceFramed(db, after, k, m);
      assert Evidence(db, m);
      if db.candidates[m].attempt == a {
        RivalsAreDead(db, after, a, k, m);
      }
    }
  }

  lemma MoveKeepsRows(db: Db, after: Db, a: int, k: int)
    requires Linked(db) && Linked(after) && ValidationsExact(db) && ReviewsExact(db) && DecisionsExact(db)
    requires Moves(db, after, a, k) && OnlyAbout(db, after, k)
    requires NewRowsExact(db, after, a, k)
    ensures ValidationsExact(after) && ReviewsExact(after) && DecisionsExact(after)
  {
    forall v | v in after.validations
      ensures var m := after.candidates[after.validations[v].candidate];
              after.validations[v].pristineTree == m.candidateTree
              && after.validations[v].build == after.campaigns[after.attempts[m.attempt].campaign].build
    {
      if v in db.validations {
        var m := db.candidates[db.validations[v].candidate];
        assert db.validations[v].pristineTree == m.candidateTree;
        assert db.attempts[m.attempt].campaign in db.campaigns;
      }
    }
  }

  lemma MoveKeepsDeliveries(db: Db, after: Db, a: int, k: int)
    requires Linked(db) && Linked(after) && DeliveriesExact(db)
    requires Moves(db, after, a, k) && OnlyAbout(db, after, k)
    requires NewRowsExact(db, after, a, k)
    ensures DeliveriesExact(after)
  {
    forall d | d in after.deliveries
      ensures var m := after.candidates[after.deliveries[d].candidate];
              && m.commit == Some(after.deliveries[d].candidateCommit)
              && after.deliveries[d].oldCommit == m.baseCommit && after.deliveries[d].resultingTree == m.candidateTree
    {
      if d in db.deliveries {
        assert db.candidates[db.deliveries[d].candidate].commit == Some(db.deliveries[d].candidateCommit);
      }
    }
  }

  lemma MoveKeepsCandidates(db: Db, after: Db, a: int, k: int)
    requires Linked(db) && Linked(after) && CandidatesExact(db)
    requires Moves(db, after, a, k)
    requires CandidateExact(after, k)
    ensures CandidatesExact(after)
  {
    forall m | m in after.candidates && m != k
      ensures CandidateExact(after, m)
    {
      assert CandidateExact(db, m);
    }
  }

  lemma SameMembers(db: Db, after: Db, a: int)
    requires forall k :: k in after.candidates <==> k in db.candidates
    requires forall k :: k in db.candidates ==> after.candidates[k].attempt == db.candidates[k].attempt
    ensures CandidatesOf(after, a) == CandidatesOf(db, a)
  {
    forall k
      ensures k in CandidatesOf(after, a) <==> k in CandidatesOf(db, a)
    {
      assert k in db.candidates ==> after.candidates[k].attempt == db.candidates[k].attempt;
    }
  }

  /** An update inside one engineering round: nothing is delivered, claimed or released. */
  ghost predicate Quiet(db: Db, after: Db, a: int, k: int)
    requires a in db.attempts && a in after.attempts
  {
    && k in db.candidates && after.campaigns == db.campaigns
    && (forall r :: r in db.ticketRevisions && (r != db.attempts[a].ticketRevision || Unfinished(after.attempts[a].stage)) ==>
          r in after.ticketRevisions && after.ticketRevisions[r].lifecycle == db.ticketRevisions[r].lifecycle)
    && Unfinished(db.attempts[a].stage) && after.attempts[a].stage != AttemptDelivered
    && after.attempts[a].released == db.attempts[a].released
    && after.attempts[a].candidateOrdinal == db.attempts[a].candidateOrdinal
    && (OrdinalsFit(db.attempts[a]) ==> OrdinalsFit(after.attempts[a]))
  }

  lemma QuietMove(db: Db, after: Db, a: int, k: int)
    requires Linked(db) && Linked(after) && TicketsOwned(db) && TargetsKept(db) && RoundsCounted(db)
    requires Moves(db, after, a, k) && Quiet(db, after, a, k)
    ensures StaysOwned(db, after, a) && TargetsKept(after) && RoundsCounted(after)
  {
    MoveKeepsTargets(db, after, a);
    assert Counted(db, a);
    MoveKeepsRounds(db, after, a, k);
  }

  lemma MoveKeepsRounds(db: Db, after: Db, a: int, k: int)
    requires RoundsCounted(db) && Moves(db, after, a, k) && k in db.candidates
    requires after.attempts[a].candidateOrdinal == db.attempts[a].candidateOrdinal && OrdinalsFit(after.attempts[a])
    ensures RoundsCounted(after)
  {
    forall b | b in after.attempts
      ensures Counted(after, b)
    {
      SameMembers(db, after, b);
      assert Counted(db, b);
    }
  }

  lemma MoveKeepsOwnership(db: Db, after: Db, a: int, k: int)
    requires Linked(db) && Linked(after) && TicketsOwned(db) && Moves(db, after, a, k)
    requires StaysOwned(db, after, a)
    ensures TicketsOwned(after)
  {
    forall b | b in after.attempts && b != a && Unfinished(after.attempts[b].stage)
      ensures after.ticketRevisions[after.attempts[b].ticketRevision].lifecycle == InFlight
    {
      assert !db.attempts[b].released;
      assert BothHold(db.attempts[a], db.attempts[b]) ==> a == b;
    }
    forall b, c | b in after.attempts && c in after.attempts && BothHold(after.attempts[b], after.attempts[c])
      ensures b == c
    {
      assert BothHold(db.attempts[b], db.attempts[c]);
    }
  }

  /** For moves that deliver nothing and leave campaigns alone. */
  lemma MoveKeepsTargets(db: Db, after: Db, a: int)
    requires a in db.attempts && a in after.attempts && after.attempts == db.attempts[a := after.attempts[a]]
    requires db.attempts[a].campaign == after.attempts[a].campaign
    requires after.campaigns == db.campaigns && TargetsKept(db)
    requires db.attempts[a].stage != AttemptDelivered && after.attempts[a].stage != AttemptDelivered
    ensures TargetsKept(after)
  {
    forall c | c in after.campaigns
      ensures TargetKept(after, c)
    {
      assert DeliveredAttempts(after, c) == DeliveredAttempts(db, c);
      assert TargetKept(db, c);
    }
  }

  lemma MoveKeepsExact(db: Db, after: Db, a: int, k: int)
    requires Linked(db) && Linked(after) && Moves(db, after, a, k) && k in db.candidates && CandidatesExact(db)
    requires after.candidates[k].commit == db.candidates[k].commit && after.candidates[k].ref == db.candidates[k].ref
    ensures CandidateExact(after, k)
  {
    assert CandidateExact(db, k);
    hide OrdinalsFit, IsLive, NeedsLive, RefExact;
  }

  lemma SameRowsUnique(db: Db, after: Db)
    requires OneOfEach(db) && after.validations == db.validations && after.reviews == db.reviews
    requires after.decisions == db.decisions && after.deliveries == db.deliveries
    ensures OneOfEach(after)
  {
  }

  lemma NewValidationUnique(db: Db, after: Db, id: int, row: ValidationRow)
    requires OneOfEach(db) && !HasScope(db, row.candidate, row.scope) && after.validations == db.validations[id := row]
             && id !in db.validations
    requires after.reviews == db.reviews && after.decisions == db.decisions && after.deliveries == db.deliveries
    ensures OneOfEach(after)
  {
  }

  lemma NewReviewUnique(db: Db, after: Db, id: int, row: ReviewRow)
    requires OneOfEach(db) && !HasReview(db, row.candidate) && after.reviews == db.reviews[id := row]
             && id !in db.reviews
    requires after.validations == db.validations && after.decisions == db.decisions && after.deliveries == db.deliveries
    ensures OneOfEach(after)
  {
  }

  lemma NewDecisionUnique(db: Db, after: Db, id: int, row: DecisionRow)
    requires OneOfEach(db) && row.CandidateDecision? && !HasDecision(db, row.candidate)
    requires after.decisions == db.decisions[id := row] && id !in db.decisions
    requires after.validations == db.validations && after.reviews == db.reviews && after.deliveries == db.deliveries
    ensures OneOfEach(after)
  {
  }

  lemma NewDeliveryUnique(db: Db, after: Db, id: int, row: DeliveryRow)
    requires OneOfEach(db) && !HasDelivery(db, row.candidate) && after.deliveries == db.deliveries[id := row]
             && id !in db.deliveries
    requires after.validations == db.validations && after.reviews == db.reviews && after.decisions == db.decisions
    ensures OneOfEach(after)
  {
  }

  lemma FreshRow(db: Db)
    requires FreshIds(db)
    ensures db.nextId !in db.validations && db.nextId !in db.reviews && db.nextId !in db.decisions
            && db.nextId !in db.deliveries
    ensures db.nextId !in db.candidates
  {
  }

  /** One more receipt, for a row that exists; no row a receipt may name is removed. */
  ghost predicate Receipts(db: Db, after: Db, key: (string, string)) {
    && key in after.audit && after.audit == db.audit[key := after.audit[key]] && SubjectExists(after, after.audit[key])
    && (forall k :: k in db.candidates ==> k in after.candidates)
    && (forall a :: a in db.attempts ==> a in after.attempts)
    && (forall r :: r in db.ticketRevisions ==> r in after.ticketRevisions)
    && (forall v :: v in db.validations ==> v in after.validations && after.validations[v] == db.validations[v])
    && (forall r :: r in db.reviews ==> r in after.reviews && after.reviews[r] == db.reviews[r])
    && (forall d :: d in db.decisions ==> d in after.decisions && after.decisions[d] == db.decisions[d])
    && (forall d :: d in db.deliveries ==> d in after.deliveries && after.deliveries[d] == db.deliveries[d])
  }

  lemma WithTicketAgrees(db: Db, r: int, state: TicketState)
    requires TicketsAgree(db) && r in db.ticketRevisions && db.ticketRevisions[r].ticket in db.tickets
    ensures TicketsAgree(WithTicket(db, r, state))
  {
    forall other | other in WithTicket(db, r, state).ticketRevisions
      ensures TicketAgrees(WithTicket(db, r, state), other)
    {
      assert TicketAgrees(db, other) && TicketAgrees(db, r);
    }
  }

  lemma TicketsAgreeFramed(db: Db, after: Db)
    requires TicketsAgree(db) && after.tickets == db.tickets && after.ticketRevisions == db.ticketRevisions
    ensures TicketsAgree(after)
  {
    forall r | r in after.ticketRevisions
      ensures TicketAgrees(after, r)
    {
      assert TicketAgrees(db, r);
    }
  }

  lemma NewReceipt(db: Db, after: Db, key: (string, string))
    requires ReceiptsSound(db) && Receipts(db, after, key)
    ensures ReceiptsSound(after)
  {
    forall other | other in after.audit
      ensures SubjectExists(after, after.audit[other])
    {
      if other != key {
        assert SubjectExists(db, db.audit[other]);
      }
    }
  }

  lemma Parts(db: Db)
    requires Inv(db)
    ensures FreshIds(db) && Linked(db) && TicketsAgree(db) && OneLive(db) && LiveFits(db) && StagesFilled(db)
    ensures EvidenceClosed(db) && OneOfEach(db) && ValidationsExact(db) && ReviewsExact(db) && DecisionsExact(db)
    ensures DeliveriesExact(db) && CandidatesExact(db) && RoundsCounted(db) && TicketsOwned(db) && TargetsKept(db)
    ensures ReceiptsSound(db)
  {
  }

  /** All parts together: what one candidate move has to establish. */
  lemma MoveKeepsInv(db: Db, after: Db, a: int, k: int, key: (string, string))
    requires Inv(db) && FreshIds(after) && Linked(after) && TicketsAgree(after)
    requires Moves(db, after, a, k) && OnlyAbout(db, after, k) && Settled(after, a, k)
    requires Evidence(after, k) && NewRowsExact(db, after, a, k) && CandidateExact(after, k)
    requires StaysOwned(db, after, a) && Receipts(db, after, key)
    requires OneOfEach(after) && RoundsCounted(after) && TargetsKept(after)
    ensures Inv(after)
  {
    hide FreshIds, Linked, TicketsAgree, OneLive, LiveFits, StagesFilled, EvidenceClosed, OneOfEach, ValidationsExact,
         ReviewsExact, DecisionsExact, DeliveriesExact, CandidatesExact, RoundsCounted, TargetsKept, ReceiptsSound,
         TicketsOwned, Evidence, OnlyAbout, Settled, NewRowsExact, CandidateExact, StaysOwned, Receipts;
    MoveKeepsLiveness(db, after, a, k);
    MoveKeepsEvidence(db, after, a, k);
    MoveKeepsRows(db, after, a, k);
    MoveKeepsDeliveries(db, after, a, k);
    MoveKeepsCandidates(db, after, a, k);
    MoveKeepsOwnership(db, after, a, k);
    NewReceipt(db, after, key);
  }
}
