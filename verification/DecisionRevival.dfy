/** Two Quality retries that go wrong are reached from the empty database. In the first an
    attempt fails at Quality, is released as reproduced, its ticket is claimed again, and the
    driver then finds and retries the released attempt. In the second the attempt fails
    after its suite has passed. */
module DecisionRevival {
  import opened Basics
  import opened Commands
  import opened Decision
  import opened DecisionInvariant
  import opened DecisionFrames
  import opened DecisionSafety
  import opened DecisionEvents
  import opened DecisionSetbacks
  import opened DecisionEnduring
  import opened DecisionMixed
  import opened DecisionOwnership
  import opened DecisionStranding
  import opened DecisionJourney
  import R = DecisionRuns
  import Refs

  // ------------------------------------------------------ runs are mixed runs

  function Plainly(events: seq<Event>): seq<Act> {
    if events == [] then [] else [Plain(events[0])] + Plainly(events[1..])
  }

  lemma {:induction false} RunIsMixed(db: Db, events: seq<Event>)
    requires IsRun(db, events)
    ensures IsMixed(db, Plainly(events)) && Later(db, Plainly(events)) == After(db, events)
    decreases |events|
  {
    hide Enabled, Apply;
    if events != [] {
      assert Plainly(events)[0] == Plain(events[0]) && Plainly(events)[1..] == Plainly(events[1..]);
      RunIsMixed(Apply(db, events[0]), events[1..]);
    }
  }

  lemma {:induction false} MixedGoesOn(db: Db, acts: seq<Act>, x: Act)
    requires IsMixed(db, acts) && Allowed(Later(db, acts), x)
    ensures IsMixed(db, acts + [x]) && Later(db, acts + [x]) == Done(Later(db, acts), x)
    decreases |acts|
  {
    hide Allowed, Done;
    if acts == [] {
      assert (acts + [x])[0] == x && (acts + [x])[1..] == [];
    } else {
      assert (acts + [x])[0] == acts[0] && (acts + [x])[1..] == acts[1..] + [x];
      MixedGoesOn(Done(db, acts[0]), acts[1..], x);
    }
  }

  // ------------------------------------------------------------ its receipts

  ghost predicate OnlyDecisions(db: Db) {
    forall key :: key in db.audit ==> IsDecisionOperation(db.audit[key].operation)
  }

  lemma EventAuditsDecisions(db: Db, e: Event)
    requires Enabled(db, e) && !e.OtherReceipt? && OnlyDecisions(db)
    ensures OnlyDecisions(Apply(db, e))
  {
    hide Step, Accepts, Fingerprint;
    if e.Ask? {
      if Accepts(db, e.command) {
        R.AcceptedIsRemembered(db, e.command);
      } else {
        R.RefusedWritesNothing(db, e.command);
      }
    }
  }

  lemma {:induction false} RunAuditsDecisions(db: Db, events: seq<Event>)
    requires IsRun(db, events) && OnlyDecisions(db) && forall j :: 0 <= j < |events| ==> !events[j].OtherReceipt?
    ensures OnlyDecisions(After(db, events))
    decreases |events|
  {
    hide Enabled, Apply, OnlyDecisions;
    if events != [] {
      assert !events[0].OtherReceipt?;
      EventAuditsDecisions(db, events[0]);
      RunAuditsDecisions(Apply(db, events[0]), events[1..]);
    }
  }

  // ---------------------------------------------------------- where it stands

  function Failing(p: Plan, x: Trip, revision: nat): Move { FailAttempt(Key(p, 'k'), "", x.attempt, revision, 2) }

  function Releasing(p: Plan, x: Trip): Move {
    ReleaseAttempt(Key(p, 'l'), "", x.attempt, 3, 2, p.artifact.id, p.artifact.id)
  }

  function ClaimingAgain(p: Plan, x: Trip): Event { Claim(x.revision, p.campaign, p.base, p.baseTree) }

  function Retrying(p: Plan, x: Trip,
                    ticket: nat): Move { RetryQuality(Key(p, 'q'), "", x.attempt, 4, ticket, x.candidate) }

  /** The ticket, its attempt and its one candidate, awaiting a review that never comes. */
  ghost predicate Waits(db: Db, p: Plan, x: Trip, stage: Stage, released: bool, attempt: nat, state: TicketState,
                        ticket: nat)
  {
    && x.attempt in db.attempts && db.attempts[x.attempt] ==
         AttemptRow(x.revision, p.campaign, p.base, p.baseTree, stage, 1, 0, released, attempt)
    && x.revision in db.ticketRevisions && OwnFailure(db.ticketRevisions[x.revision], p)
    && db.ticketRevisions[x.revision].lifecycle == state && db.ticketRevisions[x.revision].revision == ticket
    && db.candidates.Keys == {x.candidate} && db.candidates[x.candidate].attempt == x.attempt
    && db.candidates[x.candidate].lifecycle == Validated && db.candidates[x.candidate].commit.Some?
    && NoReview(db, x.candidate)
  }

  /** The failure can be told from a repaired application, and the campaign runs. */
  ghost predicate Equipped(db: Db, p: Plan) {
    && p.artifact.id in db.artifacts && p.expected in db.artifacts
    && db.artifacts[p.artifact.id].digest != db.artifacts[p.expected].digest
    && p.campaign in db.campaigns && db.campaigns[p.campaign].lifecycle == CampaignRunning
  }

  ghost predicate Unretried(db: Db) {
    forall key :: key in db.audit ==> db.audit[key].operation != "ticket_attempt.retry_quality"
  }

  ghost predicate Free(db: Db, p: Plan, letters: set<char>) { forall c :: c in letters ==> Key(p, c) !in db.audit }

  ghost predicate Sound(db: Db) { Enduring(db) && Owned(db) }

  lemma StaysSound(db: Db, x: Act)
    requires Sound(db) && Allowed(db, x) && !RetriesReleased(db, x)
    ensures Sound(Done(db, x))
  {
    hide Enduring, Owned, Allowed, Done;
    OwnedExactly(db, x);
    ActEndures(db, x);
  }

  // --------------------------------------------------------------- the steps

  lemma AttemptIsHeld(db: Db, p: Plan, x: Trip, stage: Stage, released: bool, attempt: nat, ticket: nat)
    requires Sound(db) && Waits(db, p, x, stage, released, attempt, InFlight, ticket) && attempt < 10
    ensures Linked(db) && TicketsAgree(db) && Held(db, x.attempt, attempt, ticket)
  {
    hide Enduring, Linked, TicketsAgree;
    Facts(db);
    LoadSucceeds(db, x.attempt);
  }

  lemma FailingIsAllowed(db: Db, p: Plan, x: Trip, stage: Stage, revision: nat)
    requires Sound(db) && Waits(db, p, x, stage, false, revision, InFlight, 2) && Free(db, p, {'k', 'l', 'q'})
    requires (stage == Quality || stage == AwaitingArchitect) && revision < 10
    ensures Allowed(db, Ticketed(Failing(p, x, revision)))
  {
    hide Sound, Linked, TicketsAgree, Held;
    AttemptIsHeld(db, p, x, stage, false, revision, 2);
    assert Key(p, 'k') !in db.audit;
  }

  lemma FailingLands(db: Db, p: Plan, x: Trip, stage: Stage, revision: nat)
    requires Allowed(db, Ticketed(Failing(p, x, revision))) && Waits(db, p, x, stage, false, revision, InFlight, 2)
    requires Unretried(db) && Free(db, p, {'k', 'l', 'q'})
    ensures var after := Done(db, Ticketed(Failing(p, x, revision)));
            && Waits(after, p, x, AttemptFailed, false, revision + 1, InFlight, 2) && Unretried(after)
            && Free(after, p, {'l', 'q'}) && after.artifacts == db.artifacts && after.campaigns == db.campaigns
            && after.validations == db.validations
  {
    hide Linked, TicketsAgree, Possible;
    KeysDiffer(p, 'k', 'l');
    KeysDiffer(p, 'k', 'q');
  }

  lemma ReleasingIsAllowed(db: Db, p: Plan, x: Trip)
    requires Sound(db) && Waits(db, p, x, AttemptFailed, false, 3, InFlight, 2) && Equipped(db, p)
             && Free(db, p, {'l', 'q'})
    ensures Allowed(db, Ticketed(Releasing(p, x)))
  {
    hide Sound, Linked, TicketsAgree, Held;
    AttemptIsHeld(db, p, x, AttemptFailed, false, 3, 2);
    LoadedIsThere(db, x.attempt) by { HeldIsLoaded(db, x.attempt, 3, 2); }
    hide LoadAttempt;
    assert Key(p, 'l') !in db.audit;
  }

  lemma HeldIsLoaded(db: Db, a: int, expectedAttempt: nat, expectedTicket: nat)
    requires Held(db, a, expectedAttempt, expectedTicket)
    ensures LoadAttempt(db, a).Ok?
  {
  }

  lemma ReleasingLands(db: Db, p: Plan, x: Trip)
    requires Allowed(db, Ticketed(Releasing(p, x))) && Waits(db, p, x, AttemptFailed, false, 3, InFlight, 2)
    requires Equipped(db, p) && Unretried(db) && Free(db, p, {'l', 'q'})
    ensures var after := Done(db, Ticketed(Releasing(p, x)));
            && Waits(after, p, x, AttemptFailed, true, 4, TicketState.Sponsored, 3) && Equipped(after, p)
            && Unretried(after)
            && Free(after, p, {'q'})
  {
    hide Linked, TicketsAgree, Possible, LoadAttempt;
    KeysDiffer(p, 'l', 'q');
  }

  lemma ReleasingFrees(db: Db, p: Plan, x: Trip)
    requires Allowed(db, Ticketed(Releasing(p, x))) && x.attempt in db.attempts
    ensures var after := Done(db, Ticketed(Releasing(p, x)));
            && after.attempts.Keys == db.attempts.Keys && after.attempts[x.attempt].released
            && forall a :: a in db.attempts && a != x.attempt ==> after.attempts[a] == db.attempts[a]
  {
    hide Linked, TicketsAgree, Possible, LoadAttempt;
  }

  /** Nobody else held the ticket, so nobody holds it once its attempt is released. */
  lemma ReleasingVacates(db: Db, p: Plan, x: Trip)
    requires Sound(db) && Allowed(db, Ticketed(Releasing(p, x)))
    requires Waits(db, p, x, AttemptFailed, false, 3, InFlight, 2)
    ensures Vacant(Done(db, Ticketed(Releasing(p, x))), x.revision)
  {
    hide Enduring, Linked, TicketsAgree, Allowed, Done;
    Facts(db);
    var after := Done(db, Ticketed(Releasing(p, x)));
    ReleasingFrees(db, p, x);
    forall a | a in after.attempts && after.attempts[a].ticketRevision == x.revision
      ensures after.attempts[a].released
    {
      assert BothHold(db.attempts[a], db.attempts[x.attempt]) ==> a == x.attempt;
    }
  }

  lemma ClaimingIsAllowed(db: Db, p: Plan, x: Trip)
    requires Sound(db) && Waits(db, p, x, AttemptFailed, true, 4, TicketState.Sponsored, 3) && Equipped(db, p)
    requires Vacant(db, x.revision)
    ensures Allowed(db, Plain(ClaimingAgain(p, x)))
  {
    hide Enduring, Linked, TicketsAgree;
    Facts(db);
    assert TicketAgrees(db, x.revision) by { RevisionAgrees(db, x.revision); }
  }

  /** Attempt `b` is at work on the ticket. */
  predicate AtWork(db: Db, x: Trip, b: int) {
    b in db.attempts && b != x.attempt && db.attempts[b].ticketRevision == x.revision
    && db.attempts[b].stage == Engineering
  }

  lemma ClaimingLands(db: Db, p: Plan, x: Trip)
    requires Allowed(db, Plain(ClaimingAgain(p, x))) && db.nextId !in db.attempts
    requires Waits(db, p, x, AttemptFailed, true, 4, TicketState.Sponsored, 3) && Unretried(db) && Free(db, p, {'q'})
    ensures var after := Done(db, Plain(ClaimingAgain(p, x)));
            && Waits(after, p, x, AttemptFailed, true, 4, InFlight, 4) && Unretried(after) && Free(after, p, {'q'})
            && AtWork(after, x, db.nextId)
  {
  }

  lemma RetryingIsAllowed(db: Db, p: Plan, x: Trip, released: bool, ticket: nat)
    requires Sound(db) && Waits(db, p, x, AttemptFailed, released, 4, InFlight, ticket) && Unretried(db)
             && Free(db, p, {'q'})
    ensures Allowed(db, Ticketed(Retrying(p, x, ticket))) && Recoverable(db, p.campaign, x.attempt, x.candidate)
  {
    hide Sound, Linked, TicketsAgree, Held;
    AttemptIsHeld(db, p, x, AttemptFailed, released, 4, ticket);
    HeldIsLoaded(db, x.attempt, 4, ticket);
    LoadedIsThere(db, x.attempt);
    hide LoadAttempt;
    assert Key(p, 'q') !in db.audit;
  }

  /** After the retry two unfinished attempts work on one ticket revision. */
  lemma RetryingMakesRivals(db: Db, p: Plan, x: Trip, b: int)
    requires Sound(db) && Allowed(db, Ticketed(Retrying(p, x, 4)))
    requires Waits(db, p, x, AttemptFailed, true, 4, InFlight, 4) && AtWork(db, x, b)
    ensures var after := Done(db, Ticketed(Retrying(p, x, 4)));
            && x.attempt in after.attempts && b in after.attempts && b != x.attempt
            && BothWork(after.attempts[x.attempt], after.attempts[b]) && !OneUnfinished(after) && !Owned(after)
  {
    hide Enduring, Linked, TicketsAgree, Possible, Owned;
    OwnedExactly(db, Ticketed(Retrying(p, x, 4)));
    var after := Done(db, Ticketed(Retrying(p, x, 4)));
    assert BothWork(after.attempts[x.attempt], after.attempts[b]);
  }

  lemma StaysEquipped(db: Db, after: Db, p: Plan)
    requires Equipped(db, p) && after.artifacts == db.artifacts && after.campaigns == db.campaigns
    ensures Equipped(after, p)
  {
  }

  // ------------------------------------------------------------ the journey

  /** From a candidate waiting at Quality to the second claim. */
  lemma ReleasedAndClaimed(start: Db, acts: seq<Act>, p: Plan, x: Trip) returns (longer: seq<Act>)
    requires IsMixed(start, acts)
    requires var db := Later(start, acts);
             && Sound(db) && Waits(db, p, x, Quality, false, 2, InFlight, 2) && Equipped(db, p) && Unretried(db)
             && Free(db, p, {'k', 'l', 'q'})
    ensures IsMixed(start, longer)
    ensures var after := Later(start, longer);
            && Sound(after) && Waits(after, p, x, AttemptFailed, true, 4, InFlight, 4) && Unretried(after)
            && Free(after, p, {'q'}) && exists b :: AtWork(after, x, b)
  {
    hide IsMixed, Later, Sound, Waits, Equipped, Unretried, Free, Allowed, Done, AtWork, Vacant;
    var db := Later(start, acts);
    FailingIsAllowed(db, p, x, Quality, 2);
    FailingLands(db, p, x, Quality, 2);
    StaysSound(db, Ticketed(Failing(p, x, 2)));
    MixedGoesOn(start, acts, Ticketed(Failing(p, x, 2)));
    longer := acts + [Ticketed(Failing(p, x, 2))];
    var failed := Later(start, longer);
    StaysEquipped(db, failed, p);
    ReleasingIsAllowed(failed, p, x);
    ReleasingLands(failed, p, x);
    ReleasingVacates(failed, p, x);
    StaysSound(failed, Ticketed(Releasing(p, x)));
    MixedGoesOn(start, longer, Ticketed(Releasing(p, x)));
    longer := longer + [Ticketed(Releasing(p, x))];
    var freed := Later(start, longer);
    ClaimingIsAllowed(freed, p, x);
    SoundNextIsUnused(freed);
    ClaimingLands(freed, p, x);
    StaysSound(freed, Plain(ClaimingAgain(p, x)));
    MixedGoesOn(start, longer, Plain(ClaimingAgain(p, x)));
    longer := longer + [Plain(ClaimingAgain(p, x))];
  }

  lemma SoundNextIsUnused(db: Db)
    requires Sound(db)
    ensures db.nextId !in db.attempts
  {
    hide Enduring;
    Facts(db);
  }

  lemma StandingWaits(db: Db, after: Db, p: Plan, x: Trip, stage: Stage, revision: nat)
    requires Standing(after, p, x, stage, Validated, true, revision, revision) && Uses(db, after, p)
             && x.revision !in db.ticketRevisions
    requires after.candidates.Keys == {x.candidate} && NoReview(after, x.candidate)
    ensures Waits(after, p, x, stage, false, revision, InFlight, 2)
  {
    hide Refs.IsCandidateRef, Refs.NamesCandidate;
  }

  lemma StartHasIds(db: Db, p: Plan)
    requires CanStart(db, p)
    ensures 0 < db.nextId && db.nextId + 20 < TWO63
  {
    hide Inv;
    IdsGrow(db);
  }

  lemma GoingIsWellFormed(db: Db, p: Plan, letters: set<char>)
    requires Going(db, p, letters)
    ensures WellFormed(p)
  {
    hide Inv;
  }

  /** The two steps from submission to the attached commit. */
  lemma ProvedAndAttached(db: Db, p: Plan, x: Trip) returns (after: Db)
    requires Going(db, p, {'s', 'c'}) && Standing(db, p, x, HardValidation, Submitted, false, 1, 0)
    ensures WellFormed(p) && after == Step(Step(db, Proving(p, x)).0, Attaching(p, x)).0
    ensures Going(after, p, {'s', 'c', 'h', 'a'}) && Standing(after, p, x, Quality, Validated, true, 2, 2)
    ensures after.candidates.Keys == db.candidates.Keys && after.reviews == db.reviews
    ensures forall start: Db :: KeepsOld(start, db, p) && IsNew(start, x) ==> KeepsOld(start, after, p)
  {
    hide Inv, Step, Supplied, Unspent, Standing, KeepsOld, Accepts, Apart;
    GoingIsWellFormed(db, p, {'s', 'c'});
    Proved(db, p, x);
    var proved := Step(db, Proving(p, x)).0;
    Attached(proved, p, x);
    after := Step(proved, Attaching(p, x)).0;
    forall start: Db | KeepsOld(start, db, p) && IsNew(start, x)
      ensures KeepsOld(start, after, p)
    {
      StillOld(start, db, proved, p, x);
      StillOld(start, proved, after, p, x);
    }
  }

  predicate IsNew(db: Db, x: Trip) {
    x.attempt !in db.attempts && x.candidate !in db.candidates && x.revision !in db.ticketRevisions
    && x.ticket !in db.tickets
  }

  /** Publication to the attached commit, as a run of the decision store. */
  lemma CandidateIsAttached(db: Db, p: Plan) returns (events: seq<Event>)
    requires CanStart(db, p) && db.candidates == map[]
    ensures IsRun(db, events) && 0 < db.nextId
    ensures forall j :: 0 <= j < |events| ==> !events[j].OtherReceipt?
    ensures var after, x := After(db, events), TripFrom(db);
            && Going(after, p, {'s', 'c', 'h', 'a'}) && KeepsOld(db, after, p) && IsNew(db, x)
            && after.artifacts == db.artifacts && after.campaigns == db.campaigns
            && Standing(after, p, x, Quality, Validated, true, 2, 2)
            && Waits(after, p, x, Quality, false, 2, InFlight, 2)
  {
    hide Inv, Enabled, Apply, Step, Standing, KeepsOld, Waits, IsRun, After, CanStart, Uses, Going;
    StartHasIds(db, p);
    events := TicketIsSubmitted(db, p);
    var x, s1 := TripFrom(db), After(db, events);
    var s3 := ProvedAndAttached(s1, p, x);
    Asked(s1, Proving(p, x));
    RunGoesOn(db, events, Ask(Proving(p, x)));
    events := events + [Ask(Proving(p, x))];
    Asked(After(db, events), Attaching(p, x));
    RunGoesOn(db, events, Ask(Attaching(p, x)));
    events := events + [Ask(Attaching(p, x))];
    OldIsUsed(db, s3, p);
    StandingWaits(db, s3, p, x, Quality, 2);
  }

  lemma OldIsUsed(db: Db, after: Db, p: Plan)
    requires KeepsOld(db, after, p)
    ensures Uses(db, after, p) && after.artifacts == db.artifacts && after.campaigns == db.campaigns
  {
  }

  lemma EmptyIsAudited()
    ensures OnlyDecisions(EMPTY)
  {
  }

  lemma DecisionsAreNoRetries(db: Db)
    requires OnlyDecisions(db)
    ensures Unretried(db)
  {
  }

  lemma UnspentIsFree(db: Db, p: Plan, letters: set<char>)
    requires Unspent(db, p, letters) && letters <= {'s', 'c', 'h', 'a', 'f'}
    ensures Free(db, p, {'k', 'l', 'q'})
  {
  }

  lemma SoundAfter(events: seq<Event>, p: Plan, letters: set<char>)
    requires IsRun(EMPTY, events) && forall j :: 0 <= j < |events| ==> !events[j].OtherReceipt?
    requires var db := After(EMPTY, events);
             && Going(db, p, letters) && db.artifacts == OPENED.artifacts && db.campaigns == OPENED.campaigns
    requires letters <= {'s', 'c', 'h', 'a', 'f'}
    requires p.artifact == NOTE && p.expected == 2 && p.campaign == 1
    ensures var db := After(EMPTY, events);
            Sound(db) && Equipped(db, p) && Unretried(db) && Free(db, p, {'k', 'l', 'q'})
  {
    hide Inv, IsRun, After, Enduring, Linked, TicketsOwned, OnlyDecisions, Unretried, Unspent, Free, IsMixed, Later,
         Supplied;
    var db := After(EMPTY, events);
    RunIsMixed(EMPTY, events);
    EmptyEndures();
    MixedRunEndures(EMPTY, Plainly(events));
    Parts(db);
    EmptyIsAudited();
    RunAuditsDecisions(EMPTY, events);
    DecisionsAreNoRetries(db);
    UnspentIsFree(db, p, letters);
    assert DIGEST[0] != OTHER[0];
  }

  lemma ReleasedThere(db: Db, p: Plan, x: Trip)
    requires Waits(db, p, x, AttemptFailed, true, 4, InFlight, 4)
    ensures x.attempt in db.attempts && db.attempts[x.attempt].released
  {
  }

  /** A run from the empty database after which the driver's own query finds a released
      attempt, its retry is accepted, and two attempts work on one ticket revision. */
  lemma TwoAttemptsWork() returns (acts: seq<Act>, retry: Move, other: int)
    ensures IsMixed(EMPTY, acts) && retry.RetryQuality?
    ensures var db := Later(EMPTY, acts);
            && Owned(db) && Recoverable(db, 1, retry.attempt, retry.candidate) && Allowed(db, Ticketed(retry))
            && db.attempts[retry.attempt].released
    ensures var after := Done(Later(EMPTY, acts), Ticketed(retry));
            && retry.attempt in after.attempts && other in after.attempts && other != retry.attempt
            && BothWork(after.attempts[retry.attempt], after.attempts[other]) && !OneUnfinished(after) && !Owned(after)
  {
    hide Inv, IsRun, After, IsMixed, Later, Enduring, Owned, CanStart, Going, Waits, Equipped, Unretried, OnlyDecisions,
         Free, Allowed, Done, AtWork, Object, Recoverable;
    var opening := Opens();
    ObjectsDiffer('b', 'd');
    ObjectsDiffer('c', 'd');
    var p := PlanOf(1, Object('a'), Object('b'), Object('d'), Object('e'));
    OpenedCanStart(1, Object('a'), Object('b'), Object('d'), Object('e'));
    var rest := CandidateIsAttached(OPENED, p);
    RunsJoin(EMPTY, opening, rest);
    acts := Plainly(opening + rest);
    RunIsMixed(EMPTY, opening + rest);
    SoundAfter(opening + rest, p, {'s', 'c', 'h', 'a'});
    acts := ReleasedAndClaimed(EMPTY, acts, p, TripFrom(OPENED));
    var db, x := Later(EMPTY, acts), TripFrom(OPENED);
    retry := Retrying(p, x, 4);
    other :| AtWork(db, x, other);
    RetryingIsAllowed(db, p, x, true, 4);
    RetryingMakesRivals(db, p, x, other);
    ReleasedThere(db, p, x);
  }

  // ------------------------------------------------------- the stranded one

  /** The candidate's suite has passed, and no review has been given. */
  lemma CandidateIsSuited(db: Db, p: Plan) returns (events: seq<Event>)
    requires CanStart(db, p) && db.candidates == map[]
    ensures IsRun(db, events) && 0 < db.nextId
    ensures forall j :: 0 <= j < |events| ==> !events[j].OtherReceipt?
    ensures var after, x := After(db, events), TripFrom(db);
            && Going(after, p, {'s', 'c', 'h', 'a', 'f'}) && after.artifacts == db.artifacts
            && after.campaigns == db.campaigns
            && Waits(after, p, x, AwaitingArchitect, false, 3, InFlight, 2)
            && HasScope(after, x.candidate, QualityFullSuite)
  {
    hide Inv, Enabled, Apply, Step, Supplied, Unspent, Standing, Accepts, Waits, Apart, IsRun, After, Uses, KeepsOld;
    events := CandidateIsAttached(db, p);
    var x, s1 := TripFrom(db), After(db, events);
    SuppliedIsWellFormed(s1, p);
    WaitsForReview(s1, p, x);
    Suited(s1, p, x);
    var s2 := Step(s1, Suiting(p, x)).0;
    Asked(s1, Suiting(p, x));
    RunGoesOn(db, events, Ask(Suiting(p, x)));
    events := events + [Ask(Suiting(p, x))];
    StillOld(db, s1, s2, p, x);
    OldIsUsed(db, s2, p);
    StandingWaits(db, s2, p, x, AwaitingArchitect, 3);
    SuiteIsScope(s2, p, x, s1.nextId);
  }

  lemma WaitsForReview(db: Db, p: Plan, x: Trip)
    requires Waits(db, p, x, Quality, false, 2, InFlight, 2)
    ensures db.candidates.Keys == {x.candidate} && NoReview(db, x.candidate)
  {
  }

  lemma SuiteIsScope(db: Db, p: Plan, x: Trip, v: int)
    requires SuiteRan(db, p, x, v)
    ensures HasScope(db, x.candidate, QualityFullSuite)
  {
  }

  /** A run from the empty database after which the driver's own query finds a failed
      attempt whose suite has passed, its retry is accepted, and the attempt is stranded. */
  lemma AttemptIsStranded() returns (acts: seq<Act>, retry: Move)
    ensures IsMixed(EMPTY, acts) && retry.RetryQuality?
    ensures var db := Later(EMPTY, acts);
            Recoverable(db, 1, retry.attempt, retry.candidate) && Allowed(db, Ticketed(retry))
    ensures var after := Done(Later(EMPTY, acts), Ticketed(retry));
            Enduring(after) && Stranded(after, retry.attempt, retry.candidate)
  {
    hide Inv, IsRun, After, IsMixed, Later, Enduring, Owned, CanStart, Going, Waits, Equipped, Unretried, OnlyDecisions,
         Free, Allowed, Done, Object, Recoverable, Stranded;
    var opening := Opens();
    ObjectsDiffer('b', 'd');
    ObjectsDiffer('c', 'd');
    var p := PlanOf(1, Object('a'), Object('b'), Object('d'), Object('e'));
    OpenedCanStart(1, Object('a'), Object('b'), Object('d'), Object('e'));
    var rest := CandidateIsSuited(OPENED, p);
    RunsJoin(EMPTY, opening, rest);
    acts := Plainly(opening + rest);
    RunIsMixed(EMPTY, opening + rest);
    SoundAfter(opening + rest, p, {'s', 'c', 'h', 'a', 'f'});
    var db, x := Later(EMPTY, acts), TripFrom(OPENED);
    FailingIsAllowed(db, p, x, AwaitingArchitect, 3);
    FailingLands(db, p, x, AwaitingArchitect, 3);
    StaysSound(db, Ticketed(Failing(p, x, 3)));
    MixedGoesOn(EMPTY, acts, Ticketed(Failing(p, x, 3)));
    acts := acts + [Ticketed(Failing(p, x, 3))];
    var failed := Later(EMPTY, acts);
    retry := Retrying(p, x, 2);
    FewerFree(failed, p);
    RetryingIsAllowed(failed, p, x, false, 2);
    AllowedIsPossible(failed, retry);
    RetryStrands(failed, retry);
    ActEndures(failed, Ticketed(retry));
  }

  lemma FewerFree(db: Db, p: Plan)
    requires Free(db, p, {'l', 'q'})
    ensures Free(db, p, {'q'})
  {
  }

  lemma AllowedIsPossible(db: Db, m: Move)
    requires Allowed(db, Ticketed(m))
    ensures Possible(db, m) && Linked(db) && TicketsAgree(db) && Done(db, Ticketed(m)) == Moved(db, m)
  {
  }
}
