/** The whole way of a ticket through database and Git, and one advance of the branch that
    two candidates share. */
module DeliveryJourney {
  import opened Basics
  import opened Commands
  import opened Custody
  import opened Messages
  import opened DeliveryProtocol
  import opened DeliverySafety
  import opened DeliveryTheorems
  import opened DeliveryCompletion
  import D = Decision
  import I = DecisionInvariant
  import E = DecisionEvents
  import J = DecisionJourney
  import R = DecisionRuns
  import Fr = DecisionFrames

  // ---------------------------------------------------------- reachability

  ghost predicate Reaches(name: Naming, w: World, v: World) {
    w.trail != [] && exists events :: IsRun(name, w, events) && After(name, w, events) == v
  }

  lemma ReachesItself(name: Naming, w: World)
    requires w.trail != []
    ensures Reaches(name, w, w)
  {
    assert IsRun(name, w, []) && After(name, w, []) == w;
  }

  lemma ReachesOn(name: Naming, w: World, v: World, u: World)
    requires Reaches(name, w, v) && Reaches(name, v, u)
    ensures Reaches(name, w, u)
  {
    hide IsRun, After;
    var a :| IsRun(name, w, a) && After(name, w, a) == v;
    var b :| IsRun(name, v, b) && After(name, v, b) == u;
    RunAppends(name, w, a, b);
    assert IsRun(name, w, a + b) && After(name, w, a + b) == u;
  }

  lemma ReachesByEvent(name: Naming, w: World, e: Event)
    requires w.trail != [] && Enabled(name, w, e) && Apply(name, w, e).trail != []
    ensures Reaches(name, w, Apply(name, w, e))
  {
    hide Enabled, Apply;
    OneEvent(name, w, e);
    assert IsRun(name, w, [e]);
  }

  lemma ReachedIsSafe(name: Naming, w: World, v: World)
    requires Safe(name, w) && Reaches(name, w, v)
    ensures Safe(name, v)
  {
    hide Safe, IsRun, After;
    var events :| IsRun(name, w, events) && After(name, w, events) == v;
    RunKeepsSafe(name, w, events);
  }

  predicate ByOthers(e: E.Event) {
    e.Ask? ==> !e.command.AttachCandidateCommit? && !e.command.RecordDelivery?
  }

  /** A run of the decision store in which no actor takes part is a run of the world. */
  lemma {:induction false} StoreRunReaches(name: Naming, w: World, es: seq<E.Event>)
    requires w.trail != [] && E.IsRun(w.db, es) && forall j :: 0 <= j < |es| ==> ByOthers(es[j])
    ensures Reaches(name, w, w.(db := E.After(w.db, es)))
    decreases |es|
  {
    hide E.Enabled, E.Apply, Reaches;
    if es == [] {
      ReachesItself(name, w);
    } else {
      assert ByOthers(es[0]);
      ReachesByEvent(name, w, Elsewhere(es[0]));
      var v := w.(db := E.Apply(w.db, es[0]));
      StoreRunReaches(name, v, es[1..]);
      ReachesOn(name, w, v, w.(db := E.After(w.db, es)));
    }
  }

  lemma CommandReaches(name: Naming, w: World, c: Command)
    requires w.trail != [] && !c.AttachCandidateCommit? && !c.RecordDelivery?
    ensures Reaches(name, w, w.(db := D.Step(w.db, c).0))
  {
    hide D.Step, Reaches;
    ReachesByEvent(name, w, Elsewhere(E.Ask(c)));
  }

  // ------------------------------------------------ building a candidate

  /** The one actor of a world with nobody else in it. */
  function With(w: World, a: Actor): World { w.(actors := map[1 := a]) }

  lemma TurnReaches(name: Naming, w: World, a: Actor, s: Shared, next: Actor)
    requires w.trail != [] && ActorStep(Shared(Head(w), w.refs), a, 0) == (s, Some(next)) && s.head == Head(w)
    ensures Reaches(name, With(w, a), With(w.(refs := s.refs), next))
  {
    hide ActorStep, Reaches;
    var v := With(w, a);
    assert Stepped(v, 1, 0) == With(w.(refs := s.refs), next);
    ReachesByEvent(name, v, Turn(1, 0));
  }

  lemma BuildReaches(name: Naming, w: World, k: int, r: Request)
    requires w.trail != [] && r.ref !in w.refs && r.tree != Head(w).tree
    ensures var built := CandidateCommit(Head(w), r);
            Reaches(name, With(w, Builder(k, Head(w), r, Head(w), Snapshot)),
                    With(w.(refs := w.refs[r.ref := built]), Builder(k, Head(w), r, built, Holding)))
  {
    hide Reaches;
    var head, built := Head(w), CandidateCommit(Head(w), r);
    var s, bound := Shared(Head(w), w.refs), Shared(Head(w), w.refs[r.ref := built]);
    var a0, a1, a2 := Builder(k, head, r, head, Snapshot), Builder(k, head, r, head, LookUp), Builder(k, head, r, head, Construct);
    var a3, a4, a5 := Builder(k, head, r, built, Bind), Builder(k, head, r, built, Swap), Builder(k, head, r, built, Holding);
    TurnReaches(name, w, a0, s, a1);
    TurnReaches(name, w, a1, s, a2);
    ReachesOn(name, With(w, a0), With(w, a1), With(w, a2));
    TurnReaches(name, w, a2, s, a3);
    ReachesOn(name, With(w, a0), With(w, a2), With(w, a3));
    TurnReaches(name, w, a3, s, a4);
    ReachesOn(name, With(w, a0), With(w, a3), With(w, a4));
    TurnReaches(name, w, a4, bound, a5);
    ReachesOn(name, With(w, a0), With(w, a4), With(w.(refs := bound.refs), a5));
  }

  function RequestOf(p: J.Plan, x: J.Trip, message: string): Request { Request(J.Ref(x), p.tree, message, 0) }

  /** Builder 1 constructs the candidate's commit, binds its ref and attaches it. */
  lemma AttachReaches(name: Naming, w: World, p: J.Plan, x: J.Trip, message: string)
    requires w.trail != [] && w.actors == map[] && J.WellFormed(p) && J.Ref(x) !in w.refs && p.tree != Head(w).tree
    requires J.Standing(w.db, p, x, D.Quality, D.Validated, false, 2, 1)
    requires p.base == name(Head(w)) && p.commit == name(CandidateCommit(Head(w), RequestOf(p, x, message)))
    ensures var built := CandidateCommit(Head(w), RequestOf(p, x, message));
            Reaches(name, w, w.(refs := w.refs[J.Ref(x) := built], db := D.Step(w.db, J.Attaching(p, x)).0))
  {
    hide Reaches, D.Step;
    var r := RequestOf(p, x, message);
    var built := CandidateCommit(Head(w), r);
    var started := With(w, Builder(x.candidate, Head(w), r, Head(w), Snapshot));
    var held := With(w.(refs := w.refs[r.ref := built]), Builder(x.candidate, Head(w), r, built, Holding));
    StartReaches(name, w, p, x, r);
    BuildReaches(name, w, x.candidate, r);
    ReachesOn(name, w, started, held);
    HolderAttaches(name, w, held, p, x, r, built);
    ReachesOn(name, w, held, w.(refs := w.refs[J.Ref(x) := built], db := D.Step(w.db, J.Attaching(p, x)).0));
  }

  lemma StartReaches(name: Naming, w: World, p: J.Plan, x: J.Trip, r: Request)
    requires w.trail != [] && w.actors == map[] && J.Standing(w.db, p, x, D.Quality, D.Validated, false, 2, 1)
    requires p.base == name(Head(w)) && r.tree == p.tree
    ensures Reaches(name, w, With(w, Builder(x.candidate, Head(w), r, Head(w), Snapshot)))
  {
    hide Reaches;
    var start := StartBuild(1, x.candidate, Head(w), r);
    assert Apply(name, w, start) == With(w, Builder(x.candidate, Head(w), r, Head(w), Snapshot));
    ReachesByEvent(name, w, start);
  }

  lemma HolderAttaches(name: Naming, w: World, held: World, p: J.Plan, x: J.Trip, r: Request, built: Commit)
    requires w.trail != [] && w.actors == map[] && J.WellFormed(p)
    requires r.ref == J.Ref(x) && p.commit == name(built)
    requires held == With(w.(refs := w.refs[r.ref := built]), Builder(x.candidate, Head(w), r, built, Holding))
    ensures Reaches(name, held, w.(refs := w.refs[r.ref := built], db := D.Step(w.db, J.Attaching(p, x)).0))
  {
    hide Reaches, D.Step;
    var attach := AttachCommit(1, p.principal, J.Id(p, 'a'), 1);
    assert AttachCommand(name, held.actors[1], attach) == Some(J.Attaching(p, x));
    assert Without(held.actors, 1) == map[];
    assert Apply(name, held, attach) == w.(refs := w.refs[r.ref := built], db := D.Step(w.db, J.Attaching(p, x)).0);
    ReachesByEvent(name, held, attach);
  }

  // --------------------------------------------------- to the Architect

  /** A world in which only the journey will move, and what it needs. */
  ghost predicate CanTravel(name: Naming, w: World, p: J.Plan, message: string) {
    && w.trail != [] && w.actors == map[] && J.CanStart(w.db, p) && p.tree != Head(w).tree && p.base == name(Head(w))
    && 0 < w.db.nextId && var x := J.TripFrom(w.db);
       J.Ref(x) !in w.refs && p.commit == name(CandidateCommit(Head(w), RequestOf(p, x, message)))
  }

  /** The same branch, one more bound ref, and the old rows of the database. */
  ghost predicate Travelled(w: World, v: World, p: J.Plan, x: J.Trip, built: Commit) {
    && v.trail == w.trail && v.actors == map[] && v.refs == w.refs[J.Ref(x) := built] && J.KeepsOld(w.db, v.db, p)
  }

  const DECIDED := {'s', 'c', 'h', 'a', 'f', 'r', 'd'}

  lemma CandidateIsProved(name: Naming, w: World, p: J.Plan, message: string) returns (v: World)
    requires CanTravel(name, w, p, message)
    ensures Reaches(name, w, v) && v == w.(db := v.db)
    ensures var x := J.TripFrom(w.db);
            && J.Going(v.db, p, {'s', 'c', 'h'}) && J.Standing(v.db, p, x, D.Quality, D.Validated, false, 2, 1)
            && J.KeepsOld(w.db, v.db, p) && J.JudgeFree(v.db, p) && J.NoReview(v.db, x.candidate)
            && v.db.nextId == w.db.nextId + 9
            && x.attempt !in w.db.attempts && x.candidate !in w.db.candidates && x.revision !in w.db.ticketRevisions
            && x.ticket !in w.db.tickets
  {
    hide Reaches, D.Step, I.Inv, J.Standing, J.Supplied, J.Unspent, J.KeepsOld, J.Apart, D.Accepts, J.WellFormed;
    var x := J.TripFrom(w.db);
    var es := J.TicketIsSubmitted(w.db, p);
    assert forall j :: 0 <= j < |es| ==> ByOthers(es[j]);
    StoreRunReaches(name, w, es);
    var submitted := w.(db := E.After(w.db, es));
    J.SuppliedIsWellFormed(submitted.db, p);
    J.Proved(submitted.db, p, x);
    CommandReaches(name, submitted, J.Proving(p, x));
    v := submitted.(db := D.Step(submitted.db, J.Proving(p, x)).0);
    ReachesOn(name, w, submitted, v);
    J.StillOld(w.db, submitted.db, v.db, p, x);
  }

  /** From the start of its journey, a ticket's candidate is built, judged and accepted. */
  lemma TicketIsAccepted(name: Naming, w: World, p: J.Plan, message: string) returns (v: World)
    requires CanTravel(name, w, p, message)
    ensures Reaches(name, w, v)
    ensures var x := J.TripFrom(w.db);
            && Travelled(w, v, p, x, CandidateCommit(Head(w), RequestOf(p, x, message)))
            && J.Going(v.db, p, DECIDED) && J.Standing(v.db, p, x, D.AwaitingArchitect, D.Accepted, true, 5, 5)
            && v.db.nextId == w.db.nextId + 17
  {
    hide Reaches, D.Step, I.Inv, J.Standing, J.Supplied, J.Unspent, J.KeepsOld, J.Apart, D.Accepts, J.WellFormed,
         CandidateCommit;
    var x := J.TripFrom(w.db);
    var proved := CandidateIsProved(name, w, p, message);
    J.SuppliedIsWellFormed(proved.db, p);
    AttachReaches(name, proved, p, x, message);
    J.Attached(proved.db, p, x);
    var built := CandidateCommit(Head(w), RequestOf(p, x, message));
    var attached := proved.(refs := proved.refs[J.Ref(x) := built], db := D.Step(proved.db, J.Attaching(p, x)).0);
    ReachesOn(name, w, proved, attached);
    J.StillOld(w.db, proved.db, attached.db, p, x);
    J.Suited(attached.db, p, x);
    CommandReaches(name, attached, J.Suiting(p, x));
    var suited := attached.(db := D.Step(attached.db, J.Suiting(p, x)).0);
    ReachesOn(name, w, attached, suited);
    J.StillOld(w.db, attached.db, suited.db, p, x);
    var run, judged := attached.db.nextId, suited.db.nextId;
    J.Reviewed(suited.db, p, x, run, AcceptReview);
    CommandReaches(name, suited, J.Reviewing(p, x, run, AcceptReview));
    var reviewed := suited.(db := D.Step(suited.db, J.Reviewing(p, x, run, AcceptReview)).0);
    ReachesOn(name, w, suited, reviewed);
    J.StillOld(w.db, suited.db, reviewed.db, p, x);
    J.Ordered(reviewed.db, p, x, judged);
    CommandReaches(name, reviewed, J.Deciding(p, x, judged, Deliver));
    v := reviewed.(db := D.Step(reviewed.db, J.Deciding(p, x, judged, Deliver)).0);
    ReachesOn(name, w, reviewed, v);
    J.StillOld(w.db, reviewed.db, v.db, p, x);
  }

  // --------------------------------------------------- ready for delivery

  /** What a delivery reads for a candidate that has travelled. */
  function RowOf(p: J.Plan, x: J.Trip, base: Commit, built: Commit): Row
    requires J.WellFormed(p)
  {
    Row(x.candidate, Job(base, built, p.tree, J.Ref(x), 0), p.principal, J.Id(p, 'v'), 5, 5, 2, 0)
  }

  /** The campaign and the sessions are as they were opened. */
  predicate AsOpened(db: D.Db) { db.campaigns == J.OPENED.campaigns && db.sessions == J.OPENED.sessions }

  ghost predicate Accepted(db: D.Db, p: J.Plan, x: J.Trip) {
    J.Going(db, p, DECIDED) && J.Standing(db, p, x, D.AwaitingArchitect, D.Accepted, true, 5, 5)
  }

  lemma AcceptedIsRead(name: Naming, db: D.Db, p: J.Plan, x: J.Trip, base: Commit, built: Commit)
    requires Accepted(db, p, x) && AsOpened(db) && p.campaign == 1 && p.base == name(base) && p.commit == name(built)
    ensures ReadsRow(name, db, RowOf(p, x, base, built))
  {
    hide I.Inv, D.LoadAttempt;
    J.AttemptLoads(db, x.attempt);
    LoadedView(db, x.attempt);
  }

  lemma LoadedView(db: D.Db, a: int)
    requires D.LoadAttempt(db, a).Ok?
    ensures a in db.attempts && db.attempts[a].ticketRevision in db.ticketRevisions
            && db.attempts[a].campaign in db.campaigns
    ensures D.LoadAttempt(db, a).value.row == db.attempts[a]
    ensures D.LoadAttempt(db, a).value.ticket == db.ticketRevisions[db.attempts[a].ticketRevision]
    ensures D.LoadAttempt(db, a).value.campaign == db.campaigns[db.attempts[a].campaign]
  {
  }

  lemma AcceptedIsRecordable(name: Naming, db: D.Db, p: J.Plan, x: J.Trip, base: Commit, built: Commit, made: Commit)
    requires Accepted(db, p, x) && AsOpened(db) && p.campaign == 1 && p.base == name(base) && p.commit == name(built)
    requires ReadsRow(name, db, RowOf(p, x, base, built)) && |name(made)| < TWO64 && |made.tree| < TWO64
    ensures RecordReady(name, db, RowOf(p, x, base, built), made, p.artifact)
  {
    hide I.Inv, D.LoadAttempt, D.Completes;
    J.AttemptLoads(db, x.attempt);
    LoadedView(db, x.attempt);
    J.IdIsIdentity(p, 'v');
    assert J.Key(p, 'v') !in db.audit;
    assert !D.PaidSessionActive(db);
  }

  /** Before the first delivery no attempt is delivered. */
  lemma NothingDelivered(db: D.Db, c: int)
    requires I.Inv(db) && db.deliveries == map[]
    ensures D.DeliveredAttempts(db, c) == {}
  {
    hide I.Inv, I.FreshIds, I.TicketsAgree, I.OneOfEach, I.ValidationsExact, I.ReviewsExact, I.DecisionsExact,
         I.DeliveriesExact, I.CandidatesExact, I.RoundsCounted, I.TicketsOwned, I.TargetsKept, I.ReceiptsSound;
    Fr.Parts(db);
    forall k | k in db.candidates
      ensures db.candidates[k].lifecycle != D.Delivered
    {
      assert I.Evidence(db, k);
    }
    forall a | a in db.attempts
      ensures db.attempts[a].stage != D.AttemptDelivered
    {
      assert I.NeedsLive(db.attempts[a].stage) ==> I.HasLive(db, a);
    }
  }

  /** A first delivery touches no other candidate, and not yet the campaign. */
  lemma FirstDeliveryIsApart(db: D.Db, c: Command, p: J.Plan, x: J.Trip)
    requires I.Inv(db) && D.Accepts(db, c) && c.RecordDelivery? && db.deliveries == map[] && AsOpened(db)
    requires Accepted(db, p, x) && p.campaign == 1 && c.candidate in db.candidates
    requires forall letter: char :: D.AuditKey(c) != J.Key(p, letter)
    requires var a := db.candidates[c.candidate].attempt;
             c.candidate != x.candidate && a != x.attempt && a in db.attempts && db.attempts[a].campaign == 1
             && db.attempts[a].ticketRevision != x.revision
    ensures var after := D.Step(db, c).0;
            && AsOpened(after) && J.Standing(after, p, x, D.AwaitingArchitect, D.Accepted, true, 5, 5)
            && J.Supplied(after, p) && J.Unspent(after, p, DECIDED)
  {
    hide I.Inv, D.Step, D.Accepts, D.LoadAttempt, D.Completes, D.Guard;
    R.AcceptedEffect(db, c);
    AcceptedDelivery(db, c);
    NothingDelivered(db, 1);
    NotYetComplete(db, db.candidates[c.candidate].attempt);
    LoadedView(db, db.candidates[c.candidate].attempt);
    R.AcceptedIsRemembered(db, c);
  }

  lemma NotYetComplete(db: D.Db, a: int)
    requires D.LoadAttempt(db, a).Ok? && AsOpened(db) && D.DeliveredAttempts(db, 1) == {} && a in db.attempts
             && db.attempts[a].campaign == 1
    ensures !D.Completes(db, D.LoadAttempt(db, a).value)
  {
    hide D.LoadAttempt, D.DeliveredAttempts;
    LoadedView(db, a);
  }

  // --------------------------------------------------- a shared advance

  const FIRST := Commit([], J.Object('b'), "first", 0)
  const ONE := Commit([FIRST], J.Object('d'), "one", 0)
  const TWO := Commit([FIRST], J.Object('d'), "two", 0)

  const TRIP_ONE := J.Trip(2, 3, 6, 7)
  const TRIP_TWO := J.Trip(19, 20, 23, 24)

  /** The names of the commits in play are printable. */
  predicate NamesFit(name: Naming, stamp: int) {
    |name(FIRST)| < TWO64 && |name(ONE)| < TWO64 && |name(TWO)| < TWO64
    && |name(DeliveryCommit(ONE, FIRST, 0, stamp))| < TWO64
  }

  function PlanOne(name: Naming): J.Plan
    requires |name(FIRST)| < TWO64 && |name(ONE)| < TWO64
  {
    J.PlanOf(1, name(FIRST), J.Object('b'), J.Object('d'), name(ONE))
  }

  function PlanTwo(name: Naming): J.Plan
    requires |name(FIRST)| < TWO64 && |name(TWO)| < TWO64
  {
    J.PlanOf(2, name(FIRST), J.Object('b'), J.Object('d'), name(TWO))
  }

  function Opened(): World { World([FIRST], map[], J.OPENED, map[]) }

  lemma OpenedIsReached(name: Naming)
    requires Injective(name)
    ensures Reaches(name, World([FIRST], map[], E.EMPTY, map[]), Opened()) && Safe(name, Opened())
  {
    hide Reaches, Safe, J.OPENED, E.EMPTY;
    var es := J.Opens();
    assert forall j :: 0 <= j < |es| ==> ByOthers(es[j]);
    StartIsSafe(name, FIRST);
    StoreRunReaches(name, World([FIRST], map[], E.EMPTY, map[]), es);
    ReachedIsSafe(name, World([FIRST], map[], E.EMPTY, map[]), Opened());
  }

  lemma TreesDiffer()
    ensures J.Object('b') != J.Object('d') && J.Object('c') != J.Object('d')
  {
    J.ObjectsDiffer('b', 'd');
    J.ObjectsDiffer('c', 'd');
  }

  lemma FirstTicket(name: Naming, stamp: int) returns (w: World)
    requires Injective(name) && NamesFit(name, stamp)
    ensures Reaches(name, Opened(), w)
    ensures w.trail == [FIRST] && w.actors == map[] && w.refs == map[J.Ref(TRIP_ONE) := ONE]
    ensures J.KeepsOld(J.OPENED, w.db, PlanOne(name)) && Accepted(w.db, PlanOne(name), TRIP_ONE) && w.db.nextId == 19
  {
    hide Reaches, J.CanStart, J.KeepsOld, J.Going, J.Standing, J.Object;
    TreesDiffer();
    J.OpenedCanStart(1, name(FIRST), J.Object('b'), J.Object('d'), name(ONE));
    w := TicketIsAccepted(name, Opened(), PlanOne(name), "one");
  }

  /** Another plan's identities, sessions and reproducer are still free after a journey. */
  lemma OtherPlanCanStart(name: Naming, db: D.Db, stamp: int)
    requires NamesFit(name, stamp) && J.KeepsOld(J.OPENED, db, PlanOne(name)) && I.Inv(db) && db.nextId == 19
    ensures J.CanStart(db, PlanTwo(name))
  {
    hide I.Inv, J.Object, J.WellFormed;
    TreesDiffer();
    J.OpenedCanStart(2, name(FIRST), J.Object('b'), J.Object('d'), name(TWO));
    var p, q := PlanOne(name), PlanTwo(name);
    assert p.prefix == "x" && q.prefix == "y";
    forall c: char
      ensures J.Key(q, c) !in db.audit
    {
      KeyIsNotOwn(p, q, c);
    }
  }

  lemma KeyIsNotOwn(p: J.Plan, q: J.Plan, c: char)
    requires |p.prefix| == |q.prefix| && p.prefix != q.prefix
    ensures !J.Own(p, J.Key(q, c))
  {
    assert (q.prefix + [c])[..|q.prefix|] == q.prefix;
  }

  lemma RefsDiffer()
    ensures J.Ref(TRIP_ONE) != J.Ref(TRIP_TWO)
  {
    assert J.Ref(TRIP_ONE)[19] == '2'
           && J.Ref(TRIP_TWO)[19] == '1' by { assert Decimal(2) == "2" && Decimal(19) == "19"; }
  }

  lemma SecondCanTravel(name: Naming, one: World, stamp: int)
    requires NamesFit(name, stamp) && one.trail == [FIRST] && one.actors == map[]
             && one.refs == map[J.Ref(TRIP_ONE) := ONE]
    requires J.KeepsOld(J.OPENED, one.db, PlanOne(name)) && I.Inv(one.db) && one.db.nextId == 19
    ensures CanTravel(name, one, PlanTwo(name), "two")
    ensures CandidateCommit(FIRST, RequestOf(PlanTwo(name), TRIP_TWO, "two")) == TWO && J.TripFrom(one.db) == TRIP_TWO
  {
    hide I.Inv, J.KeepsOld, J.CanStart, J.Object, J.WellFormed, J.Ref;
    TreesDiffer();
    RefsDiffer();
    OtherPlanCanStart(name, one.db, stamp);
  }

  lemma BothTickets(name: Naming, stamp: int) returns (w: World)
    requires Injective(name) && NamesFit(name, stamp)
    ensures Reaches(name, Opened(), w) && w.trail == [FIRST] && w.actors == map[] && AsOpened(w.db)
            && w.db.deliveries == map[]
    ensures Accepted(w.db, PlanOne(name), TRIP_ONE) && Accepted(w.db, PlanTwo(name), TRIP_TWO) && HasArtifactOne(w.db)
  {
    hide Reaches, CanTravel, J.Object, J.Going, J.Standing, Safe, J.KeepsOld, J.WellFormed, J.PlanOf, J.TripFrom, J.Ref,
         CandidateCommit, RequestOf, I.Inv, AsOpened, HasArtifactOne, Accepted;
    var one := FirstTicket(name, stamp);
    OpenedIsReached(name);
    ReachedIsSafe(name, Opened(), one);
    SafeHasInv(name, one);
    SecondCanTravel(name, one, stamp);
    w := TicketIsAccepted(name, one, PlanTwo(name), "two");
    ReachesOn(name, Opened(), one, w);
    AcceptedAtLast(w.db, PlanTwo(name), TRIP_TWO);
    StillAccepted(name, one.db, w.db, stamp);
    StillOpened(name, one.db, w.db, stamp);
  }

  lemma AcceptedAtLast(db: D.Db, p: J.Plan, x: J.Trip)
    requires J.Going(db, p, DECIDED) && J.Standing(db, p, x, D.AwaitingArchitect, D.Accepted, true, 5, 5)
    ensures Accepted(db, p, x) && I.Inv(db)
  {
    hide I.Inv, J.Standing;
  }

  lemma StillOpened(name: Naming, db: D.Db, after: D.Db, stamp: int)
    requires NamesFit(name, stamp) && J.KeepsOld(J.OPENED, db, PlanOne(name)) && J.KeepsOld(db, after, PlanTwo(name))
    ensures AsOpened(after) && after.deliveries == map[] && HasArtifactOne(after)
  {
    hide J.Object, J.WellFormed, J.Uses;
  }

  predicate HasArtifactOne(db: D.Db) { db.artifacts == J.OPENED.artifacts }

  lemma SafeHasInv(name: Naming, w: World)
    requires Safe(name, w)
    ensures I.Inv(w.db)
  {
    hide I.Inv;
  }

  lemma StillAccepted(name: Naming, db: D.Db, after: D.Db, stamp: int)
    requires NamesFit(name, stamp) && Accepted(db, PlanOne(name), TRIP_ONE) && J.KeepsOld(db, after, PlanTwo(name))
             && I.Inv(after)
    ensures Accepted(after, PlanOne(name), TRIP_ONE)
  {
    hide I.Inv, J.Object, J.WellFormed;
    var p, q := PlanOne(name), PlanTwo(name);
    forall c: char | c !in DECIDED
      ensures J.Key(p, c) !in after.audit
    {
      KeyIsNotOwn(q, p, c);
    }
  }

  lemma ShortMessagesNameNoCost(s: string)
    requires |s| < |COST_KEY|
    ensures !NamesCost(s)
  {
  }

  /** Both deliveries are ready, one after the other, from the same base. */
  lemma ReadyAtBase(name: Naming, w: World, stamp: int)
    requires NamesFit(name, stamp) && w.trail == [FIRST] && AsOpened(w.db) && Accepted(w.db, PlanOne(name), TRIP_ONE)
    ensures J.WellFormed(PlanOne(name))
    ensures var row, made := RowOf(PlanOne(name), TRIP_ONE, FIRST, ONE), DeliveryCommit(ONE, FIRST, 0, stamp);
            && ReadsRow(name, w.db, row) && GitReady(Head(w), row.job) && Target(Head(w), row.job, stamp) == made
            && RecordReady(name, w.db, row, made, J.NOTE)
  {
    hide J.Going, J.Standing, J.Object, RecordReady, ReadsRow, NamesCost, AppendTrailer;
    AcceptedIsWellFormed(w.db, PlanOne(name), TRIP_ONE);
    var row, made := RowOf(PlanOne(name), TRIP_ONE, FIRST, ONE), DeliveryCommit(ONE, FIRST, 0, stamp);
    AcceptedIsRead(name, w.db, PlanOne(name), TRIP_ONE, FIRST, ONE);
    ShortMessagesNameNoCost(Shown(ONE));
    TreeFits();
    AcceptedIsRecordable(name, w.db, PlanOne(name), TRIP_ONE, FIRST, ONE, made);
  }

  lemma AcceptedIsWellFormed(db: D.Db, p: J.Plan, x: J.Trip)
    requires Accepted(db, p, x)
    ensures J.WellFormed(p)
  {
  }

  lemma TreeFits()
    ensures |J.Object('d')| < TWO64
  {
  }

  lemma ReadyAtAdvance(name: Naming, w: World, stamp: int)
    requires NamesFit(name, stamp) && w.trail != [] && Head(w) == DeliveryCommit(ONE, FIRST, 0, stamp) && AsOpened(w.db)
    requires Accepted(w.db, PlanTwo(name), TRIP_TWO)
    ensures J.WellFormed(PlanTwo(name))
    ensures var row := RowOf(PlanTwo(name), TRIP_TWO, FIRST, TWO);
            && ReadsRow(name, w.db, row) && GitReady(Head(w), row.job) && Target(Head(w), row.job, stamp) == Head(w)
            && RecordReady(name, w.db, row, Head(w), J.NOTE)
  {
    hide J.Going, J.Standing, J.Object, RecordReady, ReadsRow, NamesCost, HasLine, Trailer, AppendTrailer;
    AcceptedIsWellFormed(w.db, PlanTwo(name), TRIP_TWO);
    AcceptedIsRead(name, w.db, PlanTwo(name), TRIP_TWO, FIRST, TWO);
    DeliveryCommitIsExact(ONE, FIRST, 0, stamp);
    NotOwnChild(FIRST, Head(w));
    TreeFits();
    AcceptedIsRecordable(name, w.db, PlanTwo(name), TRIP_TWO, FIRST, TWO, Head(w));
  }

  lemma SecondStillAccepted(name: Naming, db: D.Db, c: Command, stamp: int)
    requires NamesFit(name, stamp) && D.Accepts(db, c) && c.RecordDelivery? && c.candidate == 7 && AsOpened(db)
             && db.deliveries == map[]
    requires Accepted(db, PlanOne(name), TRIP_ONE) && Accepted(db, PlanTwo(name), TRIP_TWO)
             && D.AuditKey(c) == J.Key(PlanOne(name), 'v')
    requires I.Inv(D.Step(db, c).0)
    ensures AsOpened(D.Step(db, c).0) && Accepted(D.Step(db, c).0, PlanTwo(name), TRIP_TWO)
  {
    hide I.Inv, D.Accepts, D.Step, J.Object, J.Unspent;
    forall letter: char
      ensures D.AuditKey(c) != J.Key(PlanTwo(name), letter)
    {
      KeyIsNotOwn(PlanTwo(name), PlanOne(name), 'v');
      KeyIsOwn(PlanTwo(name), letter);
    }
    FirstDeliveryIsApart(db, c, PlanTwo(name), TRIP_TWO);
  }

  lemma KeyIsOwn(p: J.Plan, letter: char)
    ensures J.Own(p, J.Key(p, letter))
  {
    assert (p.prefix + [letter])[..|p.prefix|] == p.prefix;
  }

  lemma RunReaches(name: Naming, w: World, events: seq<Event>)
    requires w.trail != [] && IsRun(name, w, events)
    ensures Reaches(name, w, After(name, w, events))
  {
  }

  lemma FirstIsDelivered(name: Naming, w: World, stamp: int) returns (v: World)
    requires Safe(name, w) && NamesFit(name, stamp) && w.trail == [FIRST] && w.actors == map[] && AsOpened(w.db)
             && w.db.deliveries == map[]
    requires Accepted(w.db, PlanOne(name), TRIP_ONE) && Accepted(w.db, PlanTwo(name), TRIP_TWO)
    ensures Reaches(name, w, v) && v.trail != [] && Head(v) == DeliveryCommit(ONE, FIRST, 0, stamp) && 1 !in v.actors
    ensures AsOpened(v.db) && Accepted(v.db, PlanTwo(name), TRIP_TWO) && Records(w.db, v.db, 7, name(Head(v)))
  {
    hide Safe, Reaches, IsRun, After, Accepted, AsOpened, ReadsRow, GitReady, Target, RecordReady, D.Step, D.Accepts,
         J.WellFormed, Printable, Records, J.PlanOf;
    ReadyAtBase(name, w, stamp);
    var row := RowOf(PlanOne(name), TRIP_ONE, FIRST, ONE);
    var n := ReadyCompletes(name, w, 1, row, stamp, J.NOTE);
    var events := DeliveryRun(1, row, stamp, J.NOTE, n);
    v := After(name, w, events);
    RunReaches(name, w, events);
    ReachedIsSafe(name, w, v);
    SafeHasInv(name, v);
    SecondStillAccepted(name, w.db, Recording(name, row, Target(Head(w), row.job, stamp), J.NOTE), stamp);
  }

  lemma SecondIsDelivered(name: Naming, w: World, stamp: int) returns (v: World)
    requires Safe(name, w) && NamesFit(name, stamp) && w.trail != [] && Head(w) == DeliveryCommit(ONE, FIRST, 0, stamp)
             && 1 !in w.actors
    requires AsOpened(w.db) && Accepted(w.db, PlanTwo(name), TRIP_TWO)
    ensures Reaches(name, w, v) && v.trail != [] && Head(v) == Head(w) && Records(w.db, v.db, 24, name(Head(v)))
    ensures forall d :: d in w.db.deliveries ==> d in v.db.deliveries && v.db.deliveries[d] == w.db.deliveries[d]
  {
    hide Safe, Reaches, IsRun, After, Accepted, AsOpened, ReadsRow, GitReady, Target, RecordReady, D.Step, D.Accepts,
         J.WellFormed, Printable, J.PlanOf;
    ReadyAtAdvance(name, w, stamp);
    var row := RowOf(PlanTwo(name), TRIP_TWO, FIRST, TWO);
    var n := ReadyCompletes(name, w, 1, row, stamp, J.NOTE);
    var events := DeliveryRun(1, row, stamp, J.NOTE, n);
    v := After(name, w, events);
    RunReaches(name, w, events);
    SafeHasInv(name, w);
    InvHasFreshIds(w.db);
    RecordKeepsCommits(w.db, Recording(name, row, Target(Head(w), row.job, stamp), J.NOTE));
  }

  /** One advance, two delivery rows, reached from a fresh repository and an empty database:
      two accepted candidates with one base, tree and cost, of which the second adopts the
      head that the first one's delivery made. */
  lemma AdvanceIsShared(name: Naming, stamp: int) returns (w: World, d: int, e: int)
    requires Injective(name) && NamesFit(name, stamp)
    ensures Reaches(name, World([FIRST], map[], E.EMPTY, map[]), w)
    ensures d in w.db.deliveries && e in w.db.deliveries && d != e
    ensures w.db.deliveries[d].candidate != w.db.deliveries[e].candidate
            && w.db.deliveries[d].resultingCommit == w.db.deliveries[e].resultingCommit == name(Head(w))
  {
    hide Safe, Reaches, Accepted, AsOpened, E.EMPTY, J.OPENED;
    OpenedIsReached(name);
    var both := BothTickets(name, stamp);
    ReachedIsSafe(name, Opened(), both);
    var one := FirstIsDelivered(name, both, stamp);
    ReachedIsSafe(name, both, one);
    w := SecondIsDelivered(name, one, stamp);
    ReachesOn(name, World([FIRST], map[], E.EMPTY, map[]), Opened(), both);
    ReachesOn(name, World([FIRST], map[], E.EMPTY, map[]), both, one);
    ReachesOn(name, World([FIRST], map[], E.EMPTY, map[]), one, w);
    d :| d in one.db.deliveries && d !in both.db.deliveries && one.db.deliveries[d].candidate == 7
         && one.db.deliveries[d].resultingCommit == name(Head(one));
    e :| e in w.db.deliveries && e !in one.db.deliveries && w.db.deliveries[e].candidate == 24
         && w.db.deliveries[e].resultingCommit == name(Head(w));
  }
}
