/** One ticket's way to the Architect: from any reachable state with a running campaign,
    a registered artifact and two unused sessions, a new ticket can be brought there. */
module DecisionJourney {
  import opened Basics
  import opened Commands
  import opened Decision
  import opened DecisionInvariant
  import opened DecisionFrames
  import opened DecisionSafety
  import opened DecisionEvents
  import opened DecisionTheorems
  import F = Fingerprints
  import R = DecisionRuns
  import Refs

  // -------------------------------------------------------------- the plan

  /** What one journey uses: its snapshot and trees, its sessions and its identities. */
  datatype Plan = Plan(
    campaign: RowId, build: Digest, artifact: F.Artifact, expected: RowId, engineer: RowId, judge: RowId, reproducer: int,
    base: Text, baseTree: Text, regressionTree: Text, tree: Text, commit: Text, principal: Text, prefix: string)

  predicate WellFormed(p: Plan) {
    && IsAuditIdentity(p.principal) && IsAuditIdentity(p.prefix) && |p.prefix| <= 150
    && 0 < p.artifact.byteLength <= 0x1_0000 && p.baseTree != p.tree && p.regressionTree != p.tree
  }

  function Key(p: Plan, letter: char): (string, string) { (p.principal, p.prefix + [letter]) }

  function Id(p: Plan, letter: char): (id: Text)
    requires WellFormed(p)
  {
    p.prefix + [letter]
  }

  lemma IdIsIdentity(p: Plan, letter: char)
    requires WellFormed(p) && IsIdentityChar(letter)
    ensures IsAuditIdentity(Id(p, letter)) && IsAuditIdentity(p.principal) && IsArchitectPrincipal(p.principal)
  {
  }

  lemma KeysDiffer(p: Plan, x: char, y: char)
    ensures Key(p, x) == Key(p, y) <==> x == y
  {
    assert (p.prefix + [x])[|p.prefix|] == x && (p.prefix + [y])[|p.prefix|] == y;
  }

  /** The rows a journey makes: ticket, its revision, attempt and candidate. */
  datatype Trip = Trip(ticket: RowId, revision: RowId, attempt: RowId, candidate: RowId)

  function Sponsoring(p: Plan, x: Trip): Command
    requires WellFormed(p)
  {
    SponsorTicket(p.principal, Id(p, 's'), x.revision, 0, p.artifact)
  }

  function Submitting(p: Plan, x: Trip): Command
    requires WellFormed(p)
  {
    SubmitCandidate(p.principal, Id(p, 'c'), x.attempt, 0, 2, p.engineer, p.base, p.baseTree, p.regressionTree, p.tree,
                    p.artifact, p.artifact, p.artifact, p.artifact, p.artifact, p.artifact, p.artifact, "subject", "", "test")
  }

  function Proving(p: Plan, x: Trip): Command
    requires WellFormed(p)
  {
    RecordValidation(p.principal, Id(p, 'h'), x.candidate, 0, 1, HardCandidate, p.build, p.engineer, "profile", p.tree,
                     p.artifact, Passed, 0, p.artifact)
  }

  function Ref(x: Trip): (ref: Text)
    ensures Refs.IsCandidateRef(ref) && Refs.NamesCandidate(ref, x.ticket, x.candidate)
  {
    Refs.PrintedRefsParse(seq(64, _ => '0'), x.ticket, x.candidate);
    Refs.LegacyRef(x.ticket, x.candidate)
  }

  function Attaching(p: Plan, x: Trip): Command
    requires WellFormed(p)
  {
    AttachCandidateCommit(p.principal, Id(p, 'a'), x.candidate, 1, p.commit, Ref(x))
  }

  function Suiting(p: Plan, x: Trip): Command
    requires WellFormed(p)
  {
    RecordValidation(p.principal, Id(p, 'f'), x.candidate, 2, 2, QualityFullSuite, p.build, p.judge, "profile", p.tree,
                     p.artifact, Passed, 0, p.artifact)
  }

  function Reviewing(p: Plan, x: Trip, validation: RowId, verdict: Verdict): Command
    requires WellFormed(p)
  {
    SubmitQualityReview(p.principal, Id(p, 'r'), x.candidate, 3, 3, p.judge, validation, verdict, p.artifact,
                        p.artifact, p.artifact)
  }

  function Deciding(p: Plan, x: Trip, review: RowId, choice: Choice): Command
    requires WellFormed(p)
  {
    DecideCandidate(p.principal, Id(p, 'd'), x.candidate, 4, 4, 2, review, choice, p.artifact, None)
  }

  // ------------------------------------------------------- where it stands

  ghost predicate Supplied(db: Db, p: Plan) {
    && WellFormed(p) && p.campaign in db.campaigns && db.campaigns[p.campaign].lifecycle == CampaignRunning
    && p.build in db.builds && db.builds[p.build] == db.campaigns[p.campaign].build && HasArtifact(db, p.artifact)
    && ViableSession(db, p.engineer, p.campaign, EngineeringOffice)
    && ViableSession(db, p.judge, p.campaign, QualityOffice)
  }

  /** Identities with other letters are still free. */
  ghost predicate Unspent(db: Db, p: Plan, letters: set<char>) {
    forall c: char :: c !in letters ==> Key(p, c) !in db.audit
  }

  ghost predicate Going(db: Db, p: Plan, letters: set<char>) {
    Inv(db) && Supplied(db, p) && Unspent(db, p, letters)
  }

  predicate InFlightAt(db: Db, x: Trip) {
    && x.revision in db.ticketRevisions && db.ticketRevisions[x.revision].ticket == x.ticket
    && db.ticketRevisions[x.revision].lifecycle == InFlight && db.ticketRevisions[x.revision].revision == 2
  }

  predicate AttemptAt(db: Db, p: Plan, x: Trip, stage: Stage, ordinal: nat, revision: nat) {
    && InFlightAt(db, x) && x.attempt in db.attempts
    && db.attempts[x.attempt] == AttemptRow(x.revision, p.campaign, p.base, p.baseTree, stage, ordinal, 0, false,
                                            revision)
  }

  predicate CandidateAt(db: Db, p: Plan, x: Trip, state: CandidateState, attached: bool, revision: nat) {
    && x.candidate in db.candidates
    && db.candidates[x.candidate] ==
         CandidateRow(x.attempt, p.base, p.baseTree, p.regressionTree, p.tree, p.engineer,
                      if attached then Some(p.commit) else None, if attached then Some(Ref(x)) else None, state, revision)
  }

  predicate Standing(db: Db, p: Plan, x: Trip, stage: Stage, state: CandidateState, attached: bool,
                     attemptRevision: nat, revision: nat)
  {
    AttemptAt(db, p, x, stage, 1, attemptRevision) && CandidateAt(db, p, x, state, attached, revision)
  }

  /** Everything new is marked with the plan's own identities, sessions and reproducer. */
  ghost predicate Uses(db: Db, after: Db, p: Plan) {
    && (forall key :: key in after.audit ==> key in db.audit || Own(p, key))
    && (forall r :: r in after.ticketRevisions && r in db.ticketRevisions ==>
          SameFailure(after.ticketRevisions[r], db.ticketRevisions[r]))
    && (forall r :: r in after.ticketRevisions && r !in db.ticketRevisions ==> OwnFailure(after.ticketRevisions[r], p))
    && (forall k :: k in after.candidates ==>
          after.candidates[k].session == (if k in db.candidates then db.candidates[k].session else p.engineer))
    && (forall r :: r in after.reviews ==>
          after.reviews[r].session == (if r in db.reviews then db.reviews[r].session else p.judge))
    && db.reviews.Keys <= after.reviews.Keys
  }

  /** A revision's reproducer and its two observations never change. */
  predicate SameFailure(r: TicketRevisionRow, s: TicketRevisionRow) {
    && r.reproducer == s.reproducer && r.expectedObservation == s.expectedObservation
    && r.discoveryObservation == s.discoveryObservation
  }

  predicate OwnFailure(r: TicketRevisionRow, p: Plan) {
    r.reproducer == p.reproducer && r.expectedObservation == p.expected && r.discoveryObservation == p.artifact.id
  }

  predicate Own(p: Plan, key: (string, string)) {
    key.0 == p.principal && |key.1| == |p.prefix| + 1 && key.1[..|p.prefix|] == p.prefix
  }

  /** Rows of other journeys, and everything a journey only reads, are as they were. */
  ghost predicate Apart(db: Db, after: Db, p: Plan, x: Trip) {
    && Uses(db, after, p) && (forall r :: r in after.ticketRevisions ==> r in db.ticketRevisions)
    && (forall a :: a in db.attempts && a != x.attempt ==> a in after.attempts && after.attempts[a] == db.attempts[a])
    && (forall k :: k in db.candidates && k != x.candidate ==>
          k in after.candidates && after.candidates[k] == db.candidates[k])
    && (forall r :: r in db.ticketRevisions && r != x.revision ==>
          r in after.ticketRevisions && after.ticketRevisions[r] == db.ticketRevisions[r])
    && (forall t :: t in db.tickets && t != x.ticket ==> t in after.tickets && after.tickets[t] == db.tickets[t])
    && after.campaigns == db.campaigns && after.sessions == db.sessions && after.artifacts == db.artifacts
    && after.builds == db.builds && after.deliveries == db.deliveries
  }

  /** One accepted command of the journey uses up its own letter and nothing else. */
  lemma LetterSpent(db: Db, after: Db, p: Plan, x: Trip, letters: set<char>, letter: char)
    requires Supplied(db, p) && Unspent(db, p, letters) && Apart(db, after, p, x)
    requires forall key :: key in after.audit ==> key in db.audit || key == Key(p, letter)
    ensures Supplied(after, p) && Unspent(after, p, letters + {letter})
  {
    forall c: char | c !in letters + {letter}
      ensures Key(p, c) !in after.audit
    {
      KeysDiffer(p, c, letter);
    }
  }

  // ------------------------------------------------------------- the steps

  /** A command of the journey that is accepted, and whose effect stays apart, goes on. */
  lemma GoesOn(db: Db, p: Plan, x: Trip, letters: set<char>, letter: char, c: Command)
    requires Going(db, p, letters) && letter !in letters && Accepts(db, c) && AuditKey(c) == Key(p, letter)
    requires Apart(db, Step(db, c).0, p, x)
             && Step(db, c).0.audit == db.audit[AuditKey(c) := Step(db, c).0.audit[AuditKey(c)]]
    ensures Going(Step(db, c).0, p, letters + {letter})
  {
    hide Inv, Step, Accepts, Supplied, Apart;
    StepKeepsInv(db, c);
    LetterSpent(db, Step(db, c).0, p, x, letters, letter);
  }

  lemma SponsorPasses(db: Db, p: Plan, x: Trip)
    requires Going(db, p, {}) && x.revision in db.ticketRevisions
    requires db.ticketRevisions[x.revision].ticket == x.ticket && db.ticketRevisions[x.revision].lifecycle == Proposed
             && db.ticketRevisions[x.revision].revision == 0 && !LiveReproducerTaken(db, x.revision)
    ensures Accepts(db, Sponsoring(p, x))
  {
    hide Inv, LoadAttempt, Fingerprint, LiveReproducerTaken, FreshIds, Linked, OneLive, LiveFits, StagesFilled,
         EvidenceClosed, OneOfEach, ValidationsExact, ReviewsExact, DecisionsExact, DeliveriesExact, CandidatesExact,
         RoundsCounted, TicketsOwned, TargetsKept, ReceiptsSound;
    Parts(db);
    IdIsIdentity(p, 's');
    assert TicketAgrees(db, x.revision);
    assert Key(p, 's') !in db.audit;
  }

  lemma SponsorLands(db: Db, p: Plan, x: Trip)
    requires WellFormed(p) && x.revision in db.ticketRevisions && db.ticketRevisions[x.revision].ticket == x.ticket
             && x.ticket in db.tickets
    ensures var after := SponsorEffect(db, Sponsoring(p, x)).0;
            && Apart(db, after, p, x) && after.candidates == db.candidates && after.attempts == db.attempts
            && after.reviews == db.reviews
            && after.ticketRevisions == db.ticketRevisions[x.revision :=
                 db.ticketRevisions[x.revision].(lifecycle := TicketState.Sponsored,
                                                 revision := db.ticketRevisions[x.revision].revision + 1)]
            && after.nextId == db.nextId + 2
  {
    hide Fingerprint, Operation;
  }

  lemma Sponsored(db: Db, p: Plan, x: Trip)
    requires Going(db, p, {}) && x.revision in db.ticketRevisions
    requires db.ticketRevisions[x.revision].ticket == x.ticket && db.ticketRevisions[x.revision].lifecycle == Proposed
             && db.ticketRevisions[x.revision].revision == 0 && !LiveReproducerTaken(db, x.revision)
    ensures Accepts(db, Sponsoring(p, x))
    ensures var after := Step(db, Sponsoring(p, x)).0;
            && Going(after, p, {'s'}) && Apart(db, after, p, x) && after.candidates == db.candidates
            && after.attempts == db.attempts
            && after.reviews == db.reviews && after.nextId == db.nextId + 2
            && after.ticketRevisions == db.ticketRevisions[x.revision :=
                 db.ticketRevisions[x.revision].(lifecycle := TicketState.Sponsored, revision := 1)]
  {
    hide Inv, Accepts, Step, Apart, Unspent, LiveReproducerTaken, SponsorEffect;
    var c := Sponsoring(p, x);
    SponsorPasses(db, p, x);
    R.AcceptedEffect(db, c);
    R.AcceptedIsRemembered(db, c);
    TicketOf(db, x.revision);
    SponsorLands(db, p, x);
    GoesOn(db, p, x, {}, 's', c);
    assert {} + {'s'} == {'s'};
  }

  lemma TicketOf(db: Db, r: int)
    requires Inv(db) && r in db.ticketRevisions
    ensures db.ticketRevisions[r].ticket in db.tickets && TicketAgrees(db, r)
  {
    hide Inv;
    Parts(db);
    assert TicketAgrees(db, r);
  }

  predicate EngineerFree(db: Db, p: Plan) { forall k :: k in db.candidates ==> db.candidates[k].session != p.engineer }

  predicate JudgeFree(db: Db, p: Plan) { forall r :: r in db.reviews ==> db.reviews[r].session != p.judge }

  lemma SubmitPassesFresh(db: Db, p: Plan, x: Trip)
    requires Going(db, p, {'s'}) && AttemptAt(db, p, x, Engineering, 0, 0) && EngineerFree(db, p)
    ensures Accepts(db, Submitting(p, x))
  {
    hide Inv, Fingerprint, FreshIds, OneLive, LiveFits, StagesFilled, EvidenceClosed, OneOfEach, ValidationsExact,
         ReviewsExact, DecisionsExact, DeliveriesExact, CandidatesExact, TicketsOwned, TargetsKept, ReceiptsSound;
    Parts(db);
    IdIsIdentity(p, 'c');
    LoadSucceeds(db, x.attempt);
    assert Key(p, 'c') !in db.audit;
    assert Counted(db, x.attempt);
    assert CandidatesOf(db, x.attempt) == {};
    forall k | k in db.candidates
      ensures db.candidates[k].attempt != x.attempt
    {
      assert k !in CandidatesOf(db, x.attempt);
    }
  }

  lemma SubmitLands(db: Db, p: Plan, x: Trip)
    requires WellFormed(p) && AttemptAt(db, p, x, Engineering, 0, 0) && x.candidate == db.nextId
             && x.candidate !in db.candidates
    ensures var after := SubmitEffect(db, Submitting(p, x)).0;
            && Apart(db, after, p, x) && Standing(after, p, x, HardValidation, Submitted, false, 1, 0)
            && after.candidates.Keys == db.candidates.Keys + {x.candidate} && after.reviews == db.reviews
            && after.nextId == db.nextId + 2
  {
    hide Fingerprint, Operation;
  }

  lemma Entered(db: Db, p: Plan, x: Trip)
    requires Going(db, p, {'s'}) && AttemptAt(db, p, x, Engineering, 0, 0) && EngineerFree(db, p)
             && x.candidate == db.nextId
    ensures Accepts(db, Submitting(p, x))
    ensures var after := Step(db, Submitting(p, x)).0;
            && Going(after, p, {'s', 'c'}) && Apart(db, after, p, x)
            && Standing(after, p, x, HardValidation, Submitted, false, 1, 0)
            && after.candidates.Keys == db.candidates.Keys + {x.candidate} && after.reviews == db.reviews
            && after.nextId == db.nextId + 2
  {
    hide Inv, Accepts, Step, Apart, Unspent, SubmitEffect, Standing, FreshIds;
    var c := Submitting(p, x);
    SubmitPassesFresh(db, p, x);
    R.AcceptedEffect(db, c);
    R.AcceptedIsRemembered(db, c);
    NextIsFresh(db);
    SubmitLands(db, p, x);
    GoesOn(db, p, x, {'s'}, 'c', c);
    assert {'s'} + {'c'} == {'s', 'c'};
  }

  lemma NextIsFresh(db: Db)
    requires Inv(db)
    ensures db.nextId !in db.candidates && db.nextId !in db.validations && db.nextId !in db.reviews
            && db.nextId !in db.decisions
            && db.nextId !in db.attempts && db.nextId !in db.ticketRevisions && db.nextId !in db.tickets
  {
    hide Inv;
    Parts(db);
  }

  lemma ProvePasses(db: Db, p: Plan, x: Trip)
    requires Going(db, p, {'s', 'c'}) && Standing(db, p, x, HardValidation, Submitted, false, 1, 0)
    ensures Accepts(db, Proving(p, x))
  {
    hide Inv, Fingerprint, FreshIds, OneLive, LiveFits, StagesFilled, OneOfEach, HasReview, HasDecision, HasDelivery,
         HasPassed, ValidationsExact, ReviewsExact, DecisionsExact, DeliveriesExact, CandidatesExact, RoundsCounted,
         TicketsOwned, TargetsKept, ReceiptsSound;
    Parts(db);
    IdIsIdentity(p, 'h');
    LoadSucceeds(db, x.attempt);
    assert Key(p, 'h') !in db.audit;
    assert Evidence(db, x.candidate);
  }

  lemma ProveLands(db: Db, p: Plan, x: Trip)
    requires WellFormed(p) && Standing(db, p, x, HardValidation, Submitted, false, 1, 0) && p.build in db.builds
    ensures var after := ValidationEffect(db, Proving(p, x)).0;
            && Apart(db, after, p, x) && Standing(after, p, x, Quality, Validated, false, 2, 1)
            && after.candidates.Keys == db.candidates.Keys && after.reviews == db.reviews
            && after.nextId == db.nextId + 2
  {
    hide Fingerprint, Operation;
  }

  lemma Proved(db: Db, p: Plan, x: Trip)
    requires Going(db, p, {'s', 'c'}) && Standing(db, p, x, HardValidation, Submitted, false, 1, 0)
    ensures Accepts(db, Proving(p, x))
    ensures var after := Step(db, Proving(p, x)).0;
            && Going(after, p, {'s', 'c', 'h'}) && Apart(db, after, p, x)
            && Standing(after, p, x, Quality, Validated, false, 2, 1)
            && after.candidates.Keys == db.candidates.Keys && after.reviews == db.reviews
            && after.nextId == db.nextId + 2
  {
    hide Inv, Accepts, Step, Apart, Unspent, ValidationEffect;
    var c := Proving(p, x);
    ProvePasses(db, p, x);
    R.AcceptedEffect(db, c);
    R.AcceptedIsRemembered(db, c);
    ProveLands(db, p, x);
    GoesOn(db, p, x, {'s', 'c'}, 'h', c);
    assert {'s', 'c'} + {'h'} == {'s', 'c', 'h'};
  }

  lemma AttachPassesOwn(db: Db, p: Plan, x: Trip)
    requires Going(db, p, {'s', 'c', 'h'}) && Standing(db, p, x, Quality, Validated, false, 2, 1)
    ensures Accepts(db, Attaching(p, x))
  {
    hide Inv, Fingerprint, FreshIds, OneLive, LiveFits, StagesFilled, OneOfEach, HasReview, HasDecision, HasDelivery,
         HasPassed, HasScope, ValidationsExact, ReviewsExact, DecisionsExact, DeliveriesExact, CandidatesExact,
         RoundsCounted, TicketsOwned, TargetsKept, ReceiptsSound, Refs.IsCandidateRef, Refs.NamesCandidate;
    Parts(db);
    IdIsIdentity(p, 'a');
    LoadSucceeds(db, x.attempt);
    assert Key(p, 'a') !in db.audit;
    assert Evidence(db, x.candidate);
  }

  lemma AttachLands(db: Db, p: Plan, x: Trip)
    requires WellFormed(p) && Standing(db, p, x, Quality, Validated, false, 2, 1)
    ensures var after := AttachEffect(db, Attaching(p, x)).0;
            && Apart(db, after, p, x) && Standing(after, p, x, Quality, Validated, true, 2, 2)
            && after.candidates.Keys == db.candidates.Keys && after.reviews == db.reviews
            && after.nextId == db.nextId + 2
  {
    hide Fingerprint, Operation, Refs.IsCandidateRef, Refs.NamesCandidate;
  }

  lemma Attached(db: Db, p: Plan, x: Trip)
    requires Going(db, p, {'s', 'c', 'h'}) && Standing(db, p, x, Quality, Validated, false, 2, 1)
    ensures Accepts(db, Attaching(p, x))
    ensures var after := Step(db, Attaching(p, x)).0;
            && Going(after, p, {'s', 'c', 'h', 'a'}) && Apart(db, after, p, x)
            && Standing(after, p, x, Quality, Validated, true, 2, 2)
            && after.candidates.Keys == db.candidates.Keys && after.reviews == db.reviews
            && after.nextId == db.nextId + 2
  {
    hide Inv, Accepts, Step, Apart, Unspent, AttachEffect, Refs.IsCandidateRef, Refs.NamesCandidate;
    var c := Attaching(p, x);
    AttachPassesOwn(db, p, x);
    R.AcceptedEffect(db, c);
    R.AcceptedIsRemembered(db, c);
    AttachLands(db, p, x);
    GoesOn(db, p, x, {'s', 'c', 'h'}, 'a', c);
    assert {'s', 'c', 'h'} + {'a'} == {'s', 'c', 'h', 'a'};
  }

  lemma SuitePasses(db: Db, p: Plan, x: Trip)
    requires Going(db, p, {'s', 'c', 'h', 'a'}) && Standing(db, p, x, Quality, Validated, true, 2, 2)
    ensures Accepts(db, Suiting(p, x))
  {
    hide Inv, Fingerprint, FreshIds, OneLive, LiveFits, StagesFilled, OneOfEach, HasReview, HasDecision, HasDelivery,
         HasPassed, ValidationsExact, ReviewsExact, DecisionsExact, DeliveriesExact, CandidatesExact, RoundsCounted,
         TicketsOwned, TargetsKept, ReceiptsSound, Refs.IsCandidateRef, Refs.NamesCandidate;
    Parts(db);
    IdIsIdentity(p, 'f');
    LoadSucceeds(db, x.attempt);
    assert Key(p, 'f') !in db.audit;
    assert Evidence(db, x.candidate);
  }

  /** The full-suite run `v` that the review cites. */
  predicate SuiteRan(db: Db, p: Plan, x: Trip, v: int) {
    && v in db.validations && p.campaign in db.campaigns
    && db.validations[v] == ValidationRow(x.candidate, db.campaigns[p.campaign].build, p.judge, QualityFullSuite,
                                          p.tree, Passed)
  }

  lemma SuiteLands(db: Db, p: Plan, x: Trip)
    requires Supplied(db, p) && Standing(db, p, x, Quality, Validated, true, 2, 2)
    ensures var after := ValidationEffect(db, Suiting(p, x)).0;
            && Apart(db, after, p, x) && Standing(after, p, x, AwaitingArchitect, Validated, true, 3, 3)
            && SuiteRan(after, p, x, db.nextId)
            && after.candidates.Keys == db.candidates.Keys && after.reviews == db.reviews
            && after.nextId == db.nextId + 2
  {
    hide Fingerprint, Operation, Refs.IsCandidateRef, Refs.NamesCandidate;
  }

  lemma Suited(db: Db, p: Plan, x: Trip)
    requires Going(db, p, {'s', 'c', 'h', 'a'}) && Standing(db, p, x, Quality, Validated, true, 2, 2)
    ensures Accepts(db, Suiting(p, x))
    ensures var after := Step(db, Suiting(p, x)).0;
            && Going(after, p, {'s', 'c', 'h', 'a', 'f'}) && Apart(db, after, p, x)
            && Standing(after, p, x, AwaitingArchitect, Validated, true, 3, 3) && SuiteRan(after, p, x, db.nextId)
            && after.candidates.Keys == db.candidates.Keys && after.reviews == db.reviews
            && after.nextId == db.nextId + 2
  {
    hide Inv, Accepts, Step, Apart, Unspent, ValidationEffect, Refs.IsCandidateRef, Refs.NamesCandidate;
    var c := Suiting(p, x);
    SuitePasses(db, p, x);
    R.AcceptedEffect(db, c);
    R.AcceptedIsRemembered(db, c);
    SuiteLands(db, p, x);
    GoesOn(db, p, x, {'s', 'c', 'h', 'a'}, 'f', c);
    assert {'s', 'c', 'h', 'a'} + {'f'} == {'s', 'c', 'h', 'a', 'f'};
  }

  predicate NoReview(db: Db, k: int) { forall r :: r in db.reviews ==> db.reviews[r].candidate != k }

  lemma ReviewPasses(db: Db, p: Plan, x: Trip, v: RowId, verdict: Verdict)
    requires Going(db, p, {'s', 'c', 'h', 'a', 'f'}) && Standing(db, p, x, AwaitingArchitect, Validated, true, 3, 3)
             && SuiteRan(db, p, x, v)
    requires JudgeFree(db, p) && NoReview(db, x.candidate)
    ensures Accepts(db, Reviewing(p, x, v, verdict))
  {
    hide Inv, Fingerprint, FreshIds, OneLive, LiveFits, StagesFilled, OneOfEach, HasDecision, HasDelivery, HasPassed,
         HasScope, ValidationsExact, DecisionsExact, DeliveriesExact, CandidatesExact, RoundsCounted, TicketsOwned,
         TargetsKept, ReceiptsSound, Refs.IsCandidateRef, Refs.NamesCandidate, EvidenceClosed;
    Parts(db);
    IdIsIdentity(p, 'r');
    LoadSucceeds(db, x.attempt);
    assert Key(p, 'r') !in db.audit;
  }

  /** The review of the journey's candidate. */
  predicate ReviewIs(db: Db, x: Trip, review: int, verdict: Verdict) {
    review in db.reviews && db.reviews[review].candidate == x.candidate && db.reviews[review].verdict == verdict
  }

  lemma ReviewLands(db: Db, p: Plan, x: Trip, v: RowId, verdict: Verdict)
    requires WellFormed(p) && Standing(db, p, x, AwaitingArchitect, Validated, true, 3, 3) && db.nextId !in db.reviews
    ensures var after := ReviewEffect(db, Reviewing(p, x, v, verdict)).0;
            && Apart(db, after, p, x) && Standing(after, p, x, AwaitingArchitect, Validated, true, 4, 4)
            && ReviewIs(after, x, db.nextId, verdict)
            && after.reviews == db.reviews[db.nextId := ReviewRow(x.candidate, p.judge, v, verdict)]
            && after.candidates.Keys == db.candidates.Keys && after.nextId == db.nextId + 2
  {
    hide Fingerprint, Operation, Refs.IsCandidateRef, Refs.NamesCandidate;
  }

  lemma Reviewed(db: Db, p: Plan, x: Trip, v: RowId, verdict: Verdict)
    requires Going(db, p, {'s', 'c', 'h', 'a', 'f'}) && Standing(db, p, x, AwaitingArchitect, Validated, true, 3, 3)
             && SuiteRan(db, p, x, v)
    requires JudgeFree(db, p) && NoReview(db, x.candidate)
    ensures Accepts(db, Reviewing(p, x, v, verdict))
    ensures var after := Step(db, Reviewing(p, x, v, verdict)).0;
            && Going(after, p, {'s', 'c', 'h', 'a', 'f', 'r'}) && Apart(db, after, p, x)
            && Standing(after, p, x, AwaitingArchitect, Validated, true, 4, 4)
            && ReviewIs(after, x, db.nextId, verdict)
            && after.reviews == db.reviews[db.nextId := ReviewRow(x.candidate, p.judge, v, verdict)]
            && after.candidates.Keys == db.candidates.Keys && after.nextId == db.nextId + 2
  {
    hide Inv, Accepts, Step, Apart, Unspent, ReviewEffect, Refs.IsCandidateRef, Refs.NamesCandidate;
    var c := Reviewing(p, x, v, verdict);
    ReviewPasses(db, p, x, v, verdict);
    R.AcceptedEffect(db, c);
    R.AcceptedIsRemembered(db, c);
    NextIsFresh(db);
    ReviewLands(db, p, x, v, verdict);
    GoesOn(db, p, x, {'s', 'c', 'h', 'a', 'f'}, 'r', c);
    assert {'s', 'c', 'h', 'a', 'f'} + {'r'} == {'s', 'c', 'h', 'a', 'f', 'r'};
  }

  // ------------------------------------------------------------ the journey

  predicate ReproducerFree(db: Db, p: Plan) {
    forall r :: r in db.ticketRevisions ==> db.ticketRevisions[r].reproducer != p.reproducer
  }

  /** A journey can start: its sessions and its reproducer are unused, and ids are left. */
  ghost predicate CanStart(db: Db, p: Plan) {
    Going(db, p, {}) && EngineerFree(db, p) && JudgeFree(db, p) && ReproducerFree(db, p) && db.nextId + 20 < TWO63
  }

  /** The rows a journey started in `db` makes. */
  function TripFrom(db: Db): Trip
    requires 0 < db.nextId && db.nextId + 20 < TWO63
  {
    Trip(db.nextId, db.nextId + 1, db.nextId + 4, db.nextId + 5)
  }

  /** Every old row of the journey's tables is as it was. */
  ghost predicate KeepsOld(db: Db, after: Db, p: Plan) {
    && Uses(db, after, p)
    && (forall a :: a in db.attempts ==> a in after.attempts && after.attempts[a] == db.attempts[a])
    && (forall k :: k in db.candidates ==> k in after.candidates && after.candidates[k] == db.candidates[k])
    && (forall r :: r in db.ticketRevisions ==>
          r in after.ticketRevisions && after.ticketRevisions[r] == db.ticketRevisions[r])
    && (forall t :: t in db.tickets ==> t in after.tickets && after.tickets[t] == db.tickets[t])
    && after.campaigns == db.campaigns && after.sessions == db.sessions && after.artifacts == db.artifacts
    && after.builds == db.builds && after.deliveries == db.deliveries
  }

  lemma StillOld(db: Db, now: Db, after: Db, p: Plan, x: Trip)
    requires KeepsOld(db, now, p) && Apart(now, after, p, x)
    requires x.attempt !in db.attempts && x.candidate !in db.candidates && x.revision !in db.ticketRevisions
             && x.ticket !in db.tickets
    ensures KeepsOld(db, after, p)
  {
  }

  function Publishing(p: Plan): Event { NewTicket(1, p.reproducer, p.expected, p.artifact.id) }

  /** The ticket has just been published. */
  ghost predicate FreshTicket(db: Db, after: Db, p: Plan, x: Trip) {
    && KeepsOld(db, after, p) && after.nextId == db.nextId + 2 && after.audit == db.audit
    && after.candidates == db.candidates && after.reviews == db.reviews && after.attempts == db.attempts
    && x.revision in after.ticketRevisions && after.ticketRevisions[x.revision].ticket == x.ticket
    && after.ticketRevisions[x.revision].lifecycle == Proposed && after.ticketRevisions[x.revision].revision == 0
    && !LiveReproducerTaken(after, x.revision)
    && (forall a :: a in after.attempts ==> after.attempts[a].ticketRevision != x.revision)
    && x.attempt !in db.attempts && x.candidate !in db.candidates && x.revision !in db.ticketRevisions
    && x.ticket !in db.tickets
  }

  lemma PublishLands(db: Db, p: Plan)
    requires FreshIds(db) && Linked(db) && ReproducerFree(db, p) && db.nextId + 20 < TWO63
    ensures Enabled(db, Publishing(p)) && FreshTicket(db, Apply(db, Publishing(p)), p, TripFrom(db))
  {
    hide Step;
  }

  lemma Published(db: Db, p: Plan)
    requires CanStart(db, p)
    ensures 0 < db.nextId && Enabled(db, Publishing(p))
    ensures FreshTicket(db, Apply(db, Publishing(p)), p, TripFrom(db)) && Going(Apply(db, Publishing(p)), p, {})
  {
    hide Inv, Enabled, Apply, FreshIds, Linked, TicketsAgree, OneLive, LiveFits, StagesFilled, EvidenceClosed,
         OneOfEach, ValidationsExact, ReviewsExact, DecisionsExact, DeliveriesExact, CandidatesExact, RoundsCounted,
         TicketsOwned, TargetsKept, ReceiptsSound, LiveReproducerTaken;
    Parts(db);
    IdsArePositive(db);
    PublishLands(db, p);
    EventKeepsInv(db, Publishing(p));
  }

  lemma IdsArePositive(db: Db)
    requires FreshIds(db)
    ensures 0 < db.nextId
  {
  }

  /** The sponsored ticket is claimed. */
  lemma ClaimedByPlan(db: Db, p: Plan, x: Trip)
    requires Going(db, p, {'s'}) && x.attempt == db.nextId && x.revision in db.ticketRevisions
    requires db.ticketRevisions[x.revision].ticket == x.ticket
             && db.ticketRevisions[x.revision].lifecycle == TicketState.Sponsored
             && db.ticketRevisions[x.revision].revision == 1
    requires forall a :: a in db.attempts ==> db.attempts[a].ticketRevision != x.revision
    ensures var e := Claim(x.revision, p.campaign, p.base, p.baseTree);
            && Enabled(db, e) && Going(Apply(db, e), p, {'s'}) && Apart(db, Apply(db, e), p, x)
            && AttemptAt(Apply(db, e), p, x, Engineering, 0, 0) && Apply(db, e).nextId == db.nextId + 1
            && Apply(db, e).candidates == db.candidates && Apply(db, e).reviews == db.reviews
  {
    hide Inv, Step;
    TicketOf(db, x.revision);
    EventKeepsInv(db, Claim(x.revision, p.campaign, p.base, p.baseTree));
  }

  lemma {:induction false} RunGoesOn(db: Db, events: seq<Event>, e: Event)
    requires IsRun(db, events) && Enabled(After(db, events), e)
    ensures IsRun(db, events + [e]) && After(db, events + [e]) == Apply(After(db, events), e)
    decreases |events|
  {
    hide Enabled, Apply;
    if events == [] {
      assert (events + [e])[0] == e && (events + [e])[1..] == [];
    } else {
      assert (events + [e])[0] == events[0] && (events + [e])[1..] == events[1..] + [e];
      RunGoesOn(Apply(db, events[0]), events[1..], e);
    }
  }

  lemma EmptyRun(db: Db)
    ensures IsRun(db, []) && After(db, []) == db
  {
  }

  /** The first half: publication, sponsoring, claim and submission. */
  lemma TicketIsSubmitted(db: Db, p: Plan) returns (events: seq<Event>)
    requires CanStart(db, p)
    ensures 0 < db.nextId && IsRun(db, events)
    ensures forall j :: 0 <= j < |events| && events[j].Ask? ==>
              !events[j].command.AttachCandidateCommit? && !events[j].command.RecordDelivery?
    ensures forall j :: 0 <= j < |events| ==> !events[j].OtherReceipt?
    ensures var after, x := After(db, events), TripFrom(db);
            && Going(after, p, {'s', 'c'}) && KeepsOld(db, after, p)
            && Standing(after, p, x, HardValidation, Submitted, false, 1, 0)
            && after.reviews == db.reviews && NoReview(after, x.candidate) && after.nextId == db.nextId + 7
            && after.candidates.Keys == db.candidates.Keys + {x.candidate}
            && x.attempt !in db.attempts && x.candidate !in db.candidates && x.revision !in db.ticketRevisions
            && x.ticket !in db.tickets
  {
    hide Inv, Enabled, Apply, Step, Supplied, Unspent, AttemptAt, Standing, KeepsOld, Apart, LiveReproducerTaken,
         Accepts, IsRun, After;
    Published(db, p);
    var x := TripFrom(db);
    events := [];
    EmptyRun(db);
    RunGoesOn(db, events, Publishing(p));
    events := events + [Publishing(p)];
    var s1 := After(db, events);
    SuppliedIsWellFormed(s1, p);
    Sponsored(s1, p, x);
    Asked(s1, Sponsoring(p, x));
    RunGoesOn(db, events, Ask(Sponsoring(p, x)));
    events := events + [Ask(Sponsoring(p, x))];
    var s2 := After(db, events);
    StillOld(db, s1, s2, p, x);
    ClaimedByPlan(s2, p, x);
    RunGoesOn(db, events, Claim(x.revision, p.campaign, p.base, p.baseTree));
    events := events + [Claim(x.revision, p.campaign, p.base, p.baseTree)];
    var s3 := After(db, events);
    StillOld(db, s2, s3, p, x);
    Entered(s3, p, x);
    Asked(s3, Submitting(p, x));
    RunGoesOn(db, events, Ask(Submitting(p, x)));
    events := events + [Ask(Submitting(p, x))];
    StillOld(db, s3, After(db, events), p, x);
    UnknownHasNoReview(db, x.candidate);
  }

  lemma SuppliedIsWellFormed(db: Db, p: Plan)
    requires Supplied(db, p)
    ensures WellFormed(p)
  {
  }

  lemma Asked(db: Db, c: Command)
    ensures Enabled(db, Ask(c)) && Apply(db, Ask(c)) == Step(db, c).0
  {
    hide Step;
  }

  lemma UnknownHasNoReview(db: Db, k: int)
    requires Inv(db) && k !in db.candidates
    ensures NoReview(db, k)
  {
    hide Inv;
    Parts(db);
  }

  /** The way from submission to the Architect's desk, with the commit attached on the way. */
  lemma CandidateIsReviewed(db: Db, p: Plan, x: Trip, verdict: Verdict) returns (events: seq<Event>, review: RowId)
    requires Going(db, p, {'s', 'c'}) && Standing(db, p, x, HardValidation, Submitted, false, 1, 0)
    requires JudgeFree(db, p) && NoReview(db, x.candidate) && db.nextId + 10 < TWO63
    ensures IsRun(db, events)
    ensures var after := After(db, events);
            && Going(after, p, {'s', 'c', 'h', 'a', 'f', 'r'})
            && Standing(after, p, x, AwaitingArchitect, Validated, true, 4, 4)
            && ReviewIs(after, x, review, verdict) && after.nextId == db.nextId + 8
  {
    hide Inv, Enabled, Apply, Step, Supplied, Unspent, Standing, Apart, Accepts;
    SuppliedIsWellFormed(db, p);
    Proved(db, p, x);
    Asked(db, Proving(p, x));
    RunGoesOn(db, [], Ask(Proving(p, x)));
    events := [] + [Ask(Proving(p, x))];
    var s1 := After(db, events);
    Attached(s1, p, x);
    Asked(s1, Attaching(p, x));
    RunGoesOn(db, events, Ask(Attaching(p, x)));
    events := events + [Ask(Attaching(p, x))];
    var s2 := After(db, events);
    Suited(s2, p, x);
    IdsGrow(s2);
    Asked(s2, Suiting(p, x));
    RunGoesOn(db, events, Ask(Suiting(p, x)));
    events := events + [Ask(Suiting(p, x))];
    var s3, v := After(db, events), s2.nextId;
    Reviewed(s3, p, x, v, verdict);
    Asked(s3, Reviewing(p, x, v, verdict));
    RunGoesOn(db, events, Ask(Reviewing(p, x, v, verdict)));
    events := events + [Ask(Reviewing(p, x, v, verdict))];
    review := s3.nextId;
  }

  lemma IdsGrow(db: Db)
    requires Inv(db)
    ensures 0 < db.nextId
  {
    hide Inv;
    Parts(db);
  }

  // -------------------------------------------------------- from the start

  const DIGEST: Digest := "00000000000000000000000000000000"

  const OTHER: Digest := "11111111111111111111111111111111"

  const NOTE := F.Artifact(1, DIGEST, 1)

  function Object(c: char): Text { seq(40, _ => c) }

  /** The plan of the `n`-th ticket of campaign 1, with sessions `2n` and `2n + 1`. */
  function PlanOf(n: nat, base: Text, baseTree: Text, tree: Text, commit: Text): Plan
    requires 0 < n < 4
  {
    Plan(1, DIGEST, NOTE, 2, 2 * n, 2 * n + 1, n, base, baseTree, Object('c'), tree, commit, "kernel",
         [['x', 'y', 'z'][n - 1]])
  }

  function SessionRows(): map<int, SessionRow> {
    map[2 := SessionRow(1, EngineeringOffice, SessionSucceeded), 3 := SessionRow(1, QualityOffice, SessionSucceeded),
        4 := SessionRow(1, EngineeringOffice, SessionSucceeded), 5 := SessionRow(1, QualityOffice, SessionSucceeded)]
  }

  /** Two artifacts, one build, a running campaign for two deliveries, and the finished
      sessions of two journeys. */
  const OPENED :=
    EMPTY.(artifacts := map[1 := ArtifactRow(DIGEST, 1), 2 := ArtifactRow(OTHER, 1)], builds := map[DIGEST := 1],
           campaigns := map[1 := CampaignRow(1, CampaignRunning, 0, 2, CostKnown, 0)], nextId := 2, sessions := SessionRows())

  lemma SessionRuns(db: Db, events: seq<Event>, session: int, row: SessionRow) returns (longer: seq<Event>)
    requires IsRun(db, events) && session !in After(db, events).sessions
    ensures longer == events + [SetSession(session, row)] && IsRun(db, longer)
    ensures After(db, longer) == After(db, events).(sessions := After(db, events).sessions[session := row])
  {
    hide Step;
    RunGoesOn(db, events, SetSession(session, row));
    longer := events + [SetSession(session, row)];
  }

  lemma ArtifactRegisters(db: Db, events: seq<Event>, id: int, row: ArtifactRow) returns (longer: seq<Event>)
    requires IsRun(db, events) && id !in After(db, events).artifacts
    ensures longer == events + [RegisterArtifact(id, row)] && IsRun(db, longer)
    ensures After(db, longer) == After(db, events).(artifacts := After(db, events).artifacts[id := row])
  {
    hide Step;
    RunGoesOn(db, events, RegisterArtifact(id, row));
    longer := events + [RegisterArtifact(id, row)];
  }

  lemma CampaignOpens() returns (events: seq<Event>)
    ensures IsRun(EMPTY, events) && After(EMPTY, events) == OPENED.(sessions := map[])
    ensures forall j :: 0 <= j < |events| ==> !events[j].Ask? && !events[j].OtherReceipt?
  {
    hide Step, IsRun, After;
    EmptyRun(EMPTY);
    events := ArtifactRegisters(EMPTY, [], 1, ArtifactRow(DIGEST, 1));
    events := ArtifactRegisters(EMPTY, events, 2, ArtifactRow(OTHER, 1));
    RunGoesOn(EMPTY, events, RegisterBuild(DIGEST, 1));
    events := events + [RegisterBuild(DIGEST, 1)];
    RunGoesOn(EMPTY, events, StartCampaign(1, 2));
    events := events + [StartCampaign(1, 2)];
  }

  lemma Opens() returns (events: seq<Event>)
    ensures IsRun(EMPTY, events) && After(EMPTY, events) == OPENED && Inv(OPENED)
    ensures forall j :: 0 <= j < |events| ==> !events[j].Ask? && !events[j].OtherReceipt?
  {
    hide Inv, Enabled, Apply, IsRun, After;
    events := CampaignOpens();
    events := SessionRuns(EMPTY, events, 2, SessionRow(1, EngineeringOffice, SessionSucceeded));
    events := SessionRuns(EMPTY, events, 3, SessionRow(1, QualityOffice, SessionSucceeded));
    events := SessionRuns(EMPTY, events, 4, SessionRow(1, EngineeringOffice, SessionSucceeded));
    events := SessionRuns(EMPTY, events, 5, SessionRow(1, QualityOffice, SessionSucceeded));
    EmptyIsInv();
    RunKeepsInv(EMPTY, events);
  }

  lemma PlanIsWellFormed(n: nat, base: Text, baseTree: Text, tree: Text, commit: Text)
    requires 0 < n < 3 && baseTree != tree && Object('c') != tree
    ensures WellFormed(PlanOf(n, base, baseTree, tree, commit))
  {
    hide Object;
    var p := PlanOf(n, base, baseTree, tree, commit);
    assert IsAuditIdentity(p.prefix) && IsAuditIdentity(p.principal);
  }

  lemma OpenedCanStart(n: nat, base: Text, baseTree: Text, tree: Text, commit: Text)
    requires 0 < n < 3 && baseTree != tree && Object('c') != tree
    ensures CanStart(OPENED, PlanOf(n, base, baseTree, tree, commit))
  {
    hide Inv, Object, WellFormed, IsRun, After;
    PlanIsWellFormed(n, base, baseTree, tree, commit);
    var events := Opens();
  }

  lemma ObjectsDiffer(c: char, d: char)
    ensures Object(c) == Object(d) <==> c == d
  {
    assert Object(c)[0] == c && Object(d)[0] == d;
  }

  lemma {:induction false} RunsJoin(db: Db, a: seq<Event>, b: seq<Event>)
    requires IsRun(db, a) && IsRun(After(db, a), b)
    ensures IsRun(db, a + b) && After(db, a + b) == After(After(db, a), b)
    decreases |a|
  {
    hide Enabled, Apply;
    if a == [] {
      assert a + b == b;
    } else {
      assert (a + b)[0] == a[0] && (a + b)[1..] == a[1..] + b;
      RunsJoin(Apply(db, a[0]), a[1..], b);
    }
  }

  /** The failing decision is reached: a run from the empty database brings a candidate
      that Quality rejected to the Architect, ready in every respect, and both Rework and
      Reject then end in the table constraint. */
  lemma RejectionFailsConcretely() returns (events: seq<Event>, rework: Command, reject: Command)
    ensures IsRun(EMPTY, events) && Inv(After(EMPTY, events))
    ensures var db := After(EMPTY, events);
            && ReadyToDecide(db, rework) && rework.choice == Rework
            && Step(db, rework) == (db, Err(ConstraintViolation))
            && ReadyToDecide(db, reject) && reject.choice == Reject
            && Step(db, reject) == (db, Err(ConstraintViolation))
  {
    hide Inv, Enabled, Apply, Step, Supplied, Unspent, Standing, Accepts, ReadyToDecide, CanStart;
    var opening := Opens();
    ObjectsDiffer('b', 'd');
    ObjectsDiffer('c', 'd');
    var p := PlanOf(1, Object('a'), Object('b'), Object('d'), Object('e'));
    OpenedCanStart(1, Object('a'), Object('b'), Object('d'), Object('e'));
    var first := TicketIsSubmitted(OPENED, p);
    RunsJoin(EMPTY, opening, first);
    var db1, x := After(OPENED, first), TripFrom(OPENED);
    var second, review := CandidateIsReviewed(db1, p, x, RejectReview);
    RunsJoin(EMPTY, opening + first, second);
    events := opening + first + second;
    var db := After(EMPTY, events);
    SuppliedIsWellFormed(db, p);
    rework, reject := Deciding(p, x, review, Rework), Deciding(p, x, review, Reject);
    DecisionIsReady(db, p, x, review, RejectReview, Rework);
    DecisionIsReady(db, p, x, review, RejectReview, Reject);
    RejectedReviewForcesDeliver(db, rework);
    RejectedReviewForcesDeliver(db, reject);
  }

  lemma DecisionIsReady(db: Db, p: Plan, x: Trip, review: RowId, verdict: Verdict, choice: Choice)
    requires Going(db, p, {'s', 'c', 'h', 'a', 'f', 'r'})
             && Standing(db, p, x, AwaitingArchitect, Validated, true, 4, 4) && ReviewIs(db, x, review, verdict)
    ensures ReadyToDecide(db, Deciding(p, x, review, choice))
            && db.attempts[db.candidates[x.candidate].attempt].reworkOrdinal == 0
  {
    hide Inv;
    IdIsIdentity(p, 'd');
    assert Key(p, 'd') !in db.audit;
  }

  // ---------------------------------------------------------- being accepted

  lemma DeliverLands(db: Db, p: Plan, x: Trip, review: RowId)
    requires WellFormed(p) && Standing(db, p, x, AwaitingArchitect, Validated, true, 4, 4) && review in db.reviews
    requires LoadAttempt(db, x.attempt).Ok? && LoadAttempt(db, x.attempt).value.row == db.attempts[x.attempt]
    ensures var after := DecideEffect(db, Deciding(p, x, review, Deliver)).0;
            && Apart(db, after, p, x) && Standing(after, p, x, AwaitingArchitect, Accepted, true, 5, 5)
            && after.candidates.Keys == db.candidates.Keys && after.reviews == db.reviews
            && after.nextId == db.nextId + 2
  {
    hide Fingerprint, Operation, LoadAttempt, Refs.IsCandidateRef, Refs.NamesCandidate;
  }

  /** A candidate whose review accepted it can be ordered for delivery. */
  lemma Ordered(db: Db, p: Plan, x: Trip, review: RowId)
    requires Going(db, p, {'s', 'c', 'h', 'a', 'f', 'r'})
             && Standing(db, p, x, AwaitingArchitect, Validated, true, 4, 4)
    requires ReviewIs(db, x, review, AcceptReview)
    ensures Accepts(db, Deciding(p, x, review, Deliver))
    ensures var after := Step(db, Deciding(p, x, review, Deliver)).0;
            && Going(after, p, {'s', 'c', 'h', 'a', 'f', 'r', 'd'}) && Apart(db, after, p, x)
            && Standing(after, p, x, AwaitingArchitect, Accepted, true, 5, 5)
            && after.candidates.Keys == db.candidates.Keys && after.reviews == db.reviews
            && after.nextId == db.nextId + 2
  {
    hide Inv, Accepts, Step, Apart, Unspent, DecideEffect, LoadAttempt, Refs.IsCandidateRef, Refs.NamesCandidate,
         ReadyToDecide;
    var c := Deciding(p, x, review, Deliver);
    DecisionIsReady(db, p, x, review, AcceptReview, Deliver);
    DecisionSucceedsExactly(db, c);
    R.AcceptedEffect(db, c);
    R.AcceptedIsRemembered(db, c);
    AttemptLoads(db, x.attempt);
    DeliverLands(db, p, x, review);
    GoesOn(db, p, x, {'s', 'c', 'h', 'a', 'f', 'r'}, 'd', c);
    assert {'s', 'c', 'h', 'a', 'f', 'r'} + {'d'} == {'s', 'c', 'h', 'a', 'f', 'r', 'd'};
  }

  lemma AttemptLoads(db: Db, a: int)
    requires Inv(db) && a in db.attempts
    ensures LoadAttempt(db, a).Ok? && LoadAttempt(db, a).value.row == db.attempts[a]
  {
    hide Inv;
    Parts(db);
    LoadSucceeds(db, a);
  }
}
