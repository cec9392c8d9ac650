/** A delivery from reading its row to recording it, started in any state that crashes,
    other runners and other transactions may have left behind. */
module DeliveryCompletion {
  import opened Basics
  import opened Commands
  import opened Custody
  import opened Messages
  import opened DeliveryProtocol
  import opened DeliverySafety
  import opened DeliveryTheorems
  import D = Decision
  import I = DecisionInvariant
  import E = DecisionEvents
  import F = Fingerprints
  import R = DecisionRuns
  import Fr = DecisionFrames

  // ------------------------------------------------------- what Git allows

  /** The facts of a row that is ready for delivery always describe its bound commit. */
  lemma RowIsAttached(name: Naming, w: World, row: Row)
    requires Safe(name, w) && ReadsRow(name, w.db, row)
    ensures Attached(w.refs, row.job)
  {
    hide I.Inv, DeliveriesOnBranch, ActorsOk, D.LoadAttempt, BasesOnBranch, AdvancesOk;
    var k := w.db.candidates[row.candidate];
    var c: Commit :| AttachedAs(name, w.refs, k, c);
    assert name(c) == name(row.job.commit);
    assert name(c.parents[0]) == name(row.job.base);
    assert c.parents == [c.parents[0]];
  }

  /** The heads from which a delivery can be carried out or recognised: the candidate's
      base, if its message names no cost; the candidate itself; or a child of the base
      with the candidate's tree that shows the cost just read. */
  predicate GitReady(head: Commit, job: Job) {
    || (head == job.base && !NamesCost(Shown(job.commit)))
    || head == job.commit
    || (head.parents == [job.base] && head.tree == job.tree && HasLine(Shown(head), Trailer(job.cost)))
  }

  /** The commit that delivery leaves at the head. */
  function Target(head: Commit, job: Job, stamp: int): Commit {
    if head == job.base then DeliveryCommit(job.commit, head, job.cost, stamp) else head
  }

  lemma DeliverySucceedsExactly(head: Commit, refs: Refs, job: Job, stamp: int)
    requires Attached(refs, job)
    ensures var (after, answer) := Delivery(head, refs, job, stamp);
            && (answer.Ok? <==> GitReady(head, job))
            && (answer.Ok? ==>
                  after == Target(head, job, stamp) && answer.value.delivered == after && after.tree == job.tree)
  {
    hide HasLine, NamesCost, Trailer, AppendTrailer;
    NotOwnChild(job.base, job.commit);
  }

  // ------------------------------------------------------ turns of one actor

  function Turns(i: int, stamp: int, n: nat): seq<Event> {
    if n == 0 then [] else [Turn(i, stamp)] + Turns(i, stamp, n - 1)
  }

  ghost predicate RunnerIn(w: World, i: int) { w.trail != [] && i in w.actors && w.actors[i].Runner? }

  ghost function Alone(w: World, i: int, stamp: int): (Shared, Option<Actor>)
    requires RunnerIn(w, i)
  {
    Solo(Shared(Head(w), w.refs), w.actors[i], stamp)
  }

  /** One turn in the world is one step of the undisturbed runner. */
  lemma TurnIsStep(name: Naming, w: World, i: int, stamp: int)
    requires RunnerIn(w, i)
    ensures var (s, next) := RunnerStep(Shared(Head(w), w.refs), w.actors[i], stamp);
            var after := Apply(name, w, Turn(i, stamp));
            && Enabled(name, w, Turn(i, stamp)) && after.trail != [] && after.db == w.db && Head(after) == s.head
            && after.refs == s.refs
            && (next.Some? ==> RunnerIn(after, i) && after.actors[i] == next.value)
            && (next.None? ==> i !in after.actors)
  {
    hide FastForward, CandidateError, DeliveryError, NamesCost, DeliveryCommit;
  }

  /** Left alone for long enough, a runner in the world seals, or stops, where the
      undisturbed runner does. */
  lemma {:induction false} TurnsReachSolo(name: Naming, w: World, i: int, stamp: int) returns (n: nat)
    requires RunnerIn(w, i)
    ensures IsRun(name, w, Turns(i, stamp, n))
    ensures var after, solo := After(name, w, Turns(i, stamp, n)), Alone(w, i, stamp);
            && after.db == w.db && Head(after) == solo.0.head && after.refs == solo.0.refs
            && (solo.1.Some? ==> RunnerIn(after, i) && after.actors[i] == solo.1.value)
            && (solo.1.None? ==> i !in after.actors)
    decreases Left(w.actors[i].runStep)
  {
    hide RunnerStep, Apply, Enabled;
    if Left(w.actors[i].runStep) == 0 {
      n := 0;
    } else {
      TurnIsStep(name, w, i, stamp);
      StepGoesOn(Shared(Head(w), w.refs), w.actors[i], stamp);
      var w1 := Apply(name, w, Turn(i, stamp));
      var rest := 0;
      if i in w1.actors {
        rest := TurnsReachSolo(name, w1, i, stamp);
      }
      n := 1 + rest;
      assert Turns(i, stamp, n)[1..] == Turns(i, stamp, rest);
    }
  }

  lemma StepGoesOn(s: Shared, a: Actor, stamp: int)
    requires a.Runner? && Left(a.runStep) > 0
    ensures var next := RunnerStep(s, a, stamp).1; next.Some? ==>
              next.value.Runner? && Left(next.value.runStep) < Left(a.runStep)
  {
  }

  lemma FinishedStays(s: Shared, a: Actor, stamp: int)
    requires a.Runner? && Left(a.runStep) == 0
    ensures RunnerStep(s, a, stamp) == (s, Some(a)) && Solo(s, a, stamp) == (s, Some(a))
  {
  }

  /** However many turns it has had, what a runner can still reach alone has not changed. */
  lemma {:induction false} TurnsFollowSolo(name: Naming, w: World, i: int, stamp: int, n: nat)
    requires RunnerIn(w, i) && IsRun(name, w, Turns(i, stamp, n))
    ensures var after := After(name, w, Turns(i, stamp, n));
            && after.db == w.db
            && (i in after.actors ==> RunnerIn(after, i) && Alone(after, i, stamp) == Alone(w, i, stamp))
    decreases n
  {
    hide RunnerStep, Apply;
    if n > 0 {
      TurnIsStep(name, w, i, stamp);
      var w1 := Apply(name, w, Turn(i, stamp));
      assert Turns(i, stamp, n)[0] == Turn(i, stamp) && Turns(i, stamp, n)[1..] == Turns(i, stamp, n - 1);
      assert n > 1 ==> Turns(i, stamp, n - 1)[0] == Turn(i, stamp);
      if i in w1.actors {
        assert RunnerStep(Shared(Head(w), w.refs), w.actors[i], stamp).1.Some?;
        if Left(w.actors[i].runStep) == 0 {
          FinishedStays(Shared(Head(w), w.refs), w.actors[i], stamp);
        }
        TurnsFollowSolo(name, w1, i, stamp, n - 1);
      }
    }
  }

  // ------------------------------------------------------------- the record

  /** What recording asks for beyond the row: names and counters that fit, a new and well
      formed command identity, a registered receipt, and no paid session running. */
  ghost predicate RecordReady(name: Naming, db: D.Db, row: Row, made: Commit, receipt: F.Artifact)
    requires ReadsRow(name, db, row)
  {
    var k := db.candidates[row.candidate];
    var view := D.LoadAttempt(db, k.attempt).value;
    && row.job.cost < TWO63 && |name(row.job.base)| < TWO64 && |name(row.job.commit)| < TWO64 && |name(made)| < TWO64
    && |made.tree| < TWO64
    && IsAuditIdentity(row.principal) && IsAuditIdentity(row.commandId) && (row.principal, row.commandId) !in db.audit
    && D.Bounded(receipt, 0x100_0000, false) && D.HasArtifact(db, receipt) && !D.PaidSessionActive(db)
    && !D.Exhausted(k.revision) && !D.Exhausted(view.row.revision) && !D.Exhausted(view.ticket.revision)
    && !(D.Completes(db, view) && D.Exhausted(view.campaign.revision))
  }

  /** The last step of a delivery is accepted exactly when it is `RecordReady`. */
  lemma RecordSucceedsExactly(name: Naming, db: D.Db, a: Actor)
    requires I.Inv(db) && a.Runner? && ReadsRow(name, db, a.row) && a.receipt.Some? && a.made.tree == a.row.job.tree
    ensures RecordReady(name, db, a.row, a.made, a.receipt.value)
            <==> DeliveryCommand(name, a).Some? && D.Accepts(db, DeliveryCommand(name, a).value)
  {
    hide I.Inv, I.FreshIds, I.OneLive, I.LiveFits, I.StagesFilled, I.OneOfEach, I.ValidationsExact, I.ReviewsExact,
         I.DecisionsExact, I.DeliveriesExact, I.CandidatesExact, I.RoundsCounted, I.TargetsKept, I.ReceiptsSound,
         D.HasPassed, D.HasReview, Fingerprint;
    Fr.Parts(db);
    var k := db.candidates[a.row.candidate];
    assert I.Evidence(db, a.row.candidate);
    assert D.TicketAgrees(db, db.attempts[k.attempt].ticketRevision);
  }

  /** A delivery row of `candidate` that was not there before, naming `commit`. */
  ghost predicate Records(db: D.Db, after: D.Db, candidate: int, commit: string) {
    exists d :: d in after.deliveries && d !in db.deliveries
                && after.deliveries[d].candidate == candidate && after.deliveries[d].resultingCommit == commit
  }

  lemma AcceptedIsRecorded(db: D.Db, c: Command)
    requires I.Inv(db) && c.RecordDelivery?
    ensures D.Accepts(db, c) ==> Records(db, D.Step(db, c).0, c.candidate, c.resultingCommit)
    ensures !D.Accepts(db, c) ==> D.Step(db, c).0 == db
  {
    hide D.Step, D.Accepts, I.Inv, D.Guard, D.LoadAttempt, Fingerprint, D.Completes;
    if D.Accepts(db, c) {
      R.AcceptedEffect(db, c);
      InvHasFreshIds(db);
      FreshCandidate(db);
      AcceptedDelivery(db, c);
    } else {
      R.RefusedWritesNothing(db, c);
    }
  }

  lemma AcceptedDelivery(db: D.Db, c: Command)
    requires D.Accepts(db, c) && c.RecordDelivery?
    ensures c.candidate in db.candidates && D.LoadAttempt(db, db.candidates[c.candidate].attempt).Ok?
    ensures D.Effect(db, c) == D.DeliveryEffect(db, c)
    ensures D.DeliveryEffect(db, c).0.deliveries == db.deliveries[db.nextId :=
      D.DeliveryRow(c.candidate, c.candidateCommit, c.expectedOldCommit, c.resultingCommit, c.resultingTree,
                    c.factoryCost)]
  {
    hide D.LoadAttempt, Fingerprint, D.StaticError, D.FindAudit;
  }

  // ------------------------------------------------------------ whole runs

  lemma {:induction false} RunAppends(name: Naming, w: World, a: seq<Event>, b: seq<Event>)
    requires w.trail != []
    ensures IsRun(name, w, a + b) <==> IsRun(name, w, a) && IsRun(name, After(name, w, a), b)
    ensures IsRun(name, w, a + b) ==> After(name, w, a + b) == After(name, After(name, w, a), b)
    decreases |a|
  {
    hide Enabled, Apply;
    if a == [] {
      assert a + b == b;
    } else {
      assert (a + b)[0] == a[0] && (a + b)[1..] == a[1..] + b;
      if Enabled(name, w, a[0]) && Apply(name, w, a[0]).trail != [] {
        RunAppends(name, Apply(name, w, a[0]), a[1..], b);
      }
    }
  }

  /** One delivery attempt with no crash: read the row, take `n` turns, seal, record. */
  function DeliveryRun(i: int, row: Row, stamp: int, receipt: F.Artifact, n: nat): seq<Event> {
    [StartDelivery(i, row)] + (Turns(i, stamp, n) + [SealReceipt(i, receipt), RecordRow(i)])
  }

  /** That attempt runs to its end and leaves a row naming the head of the branch. */
  ghost predicate Completes(name: Naming, w: World, i: int, row: Row, stamp: int, receipt: F.Artifact, n: nat)
    requires w.trail != []
  {
    var events := DeliveryRun(i, row, stamp, receipt, n);
    IsRun(name, w, events)
    && var after := After(name, w, events); Records(w.db, after.db, row.candidate, name(Head(after)))
  }

  ghost function Started(name: Naming, w: World, i: int, row: Row): World
    requires w.trail != [] && Enabled(name, w, StartDelivery(i, row))
  {
    Apply(name, w, StartDelivery(i, row))
  }

  function Sealed(a: Actor, receipt: F.Artifact): Actor
    requires a.Runner?
  {
    a.(receipt := Some(receipt), runStep := Record)
  }

  lemma OneEvent(name: Naming, w: World, e: Event)
    requires w.trail != []
    ensures IsRun(name, w, [e]) <==> Enabled(name, w, e) && Apply(name, w, e).trail != []
    ensures IsRun(name, w, [e]) ==> After(name, w, [e]) == Apply(name, w, e)
  {
    hide Enabled, Apply;
    assert [e][0] == e && [e][1..] == [];
  }

  /** The two events that end an attempt, from a runner that has something to seal. */
  lemma EndOfRun(name: Naming, w: World, i: int, receipt: F.Artifact)
    requires w.trail != []
    ensures var ending := [SealReceipt(i, receipt), RecordRow(i)];
            && (IsRun(name, w, ending) <==> RunnerIn(w, i) && w.actors[i].runStep == Seal
                                            && DeliveryCommand(name, Sealed(w.actors[i], receipt)).Some?)
            && (IsRun(name, w, ending) ==>
                  && After(name, w, ending).trail == w.trail && i !in After(name, w, ending).actors
                  && After(name, w, ending).db == D.Step(w.db,
                                                         DeliveryCommand(name, Sealed(w.actors[i], receipt)).value).0)
  {
    hide D.Step, DeliveryCommand, Turns;
    var seal, record := SealReceipt(i, receipt), RecordRow(i);
    assert [seal, record][0] == seal && [seal, record][1..] == [record] && [record][0] == record && [record][1..] == [];
    if Enabled(name, w, seal) {
      var sealed := Apply(name, w, seal);
      assert sealed.actors[i] == Sealed(w.actors[i], receipt) && sealed.db == w.db && sealed.trail == w.trail;
      OneEvent(name, sealed, record);
    }
  }

  /** What an attempt can do alone once it has started. */
  lemma StartedIsAlone(name: Naming, w: World, i: int, row: Row, stamp: int)
    requires Safe(name, w) && ReadsRow(name, w.db, row) && i !in w.actors
    ensures w.trail != [] && Enabled(name, w, StartDelivery(i, row))
    ensures var started := Started(name, w, i, row);
            && RunnerIn(started, i) && started.db == w.db && started.trail == w.trail && started.refs == w.refs
            && var solo := Alone(started, i, stamp);
               && (solo.1.Some? <==> GitReady(Head(w), row.job))
               && (solo.1.Some? ==>
                     && var a := solo.1.value;
                        && a.Runner? && a.runStep == Seal && a.row == row
                        && a.made == Target(Head(w), row.job, stamp) == solo.0.head && a.made.tree == row.job.tree)
  {
    hide Safe, ReadsRow, Solo, Delivery, GitReady, Target;
    HeadExists(name, w);
    RowIsAttached(name, w, row);
    var started := Started(name, w, i, row);
    SoloIsDelivery(Shared(Head(started), started.refs), started.actors[i], stamp);
    DeliverySucceedsExactly(Head(w), w.refs, row.job, stamp);
  }

  /** From every state that builders, runners, crashes and other transactions can leave,
      one attempt at a ready delivery ends with a row naming the head exactly when the
      head is one that delivery can start from or recognise, and recording is ready. */
  lemma DeliveryCompletesExactly(name: Naming, w: World, i: int, row: Row, stamp: int, receipt: F.Artifact)
    requires Safe(name, w) && ReadsRow(name, w.db, row) && i !in w.actors
    ensures w.trail != []
    ensures (exists n: nat :: Completes(name, w, i, row, stamp, receipt, n))
            <==> GitReady(Head(w), row.job) && RecordReady(name, w.db, row, Target(Head(w), row.job, stamp), receipt)
  {
    hide Safe, ReadsRow, GitReady, RecordReady, Target, Completes;
    StartedIsAlone(name, w, i, row, stamp);
    if n: nat :| Completes(name, w, i, row, stamp, receipt, n) {
      CompletedWasReady(name, w, i, row, stamp, receipt, n);
    }
    if GitReady(Head(w), row.job) && RecordReady(name, w.db, row, Target(Head(w), row.job, stamp), receipt) {
      var n := ReadyCompletes(name, w, i, row, stamp, receipt);
    }
  }

  lemma RunParts(name: Naming, w: World, i: int, row: Row, stamp: int, receipt: F.Artifact, n: nat)
    requires w.trail != [] && Enabled(name, w, StartDelivery(i, row)) && Started(name, w, i, row).trail != []
    ensures var started, ending := Started(name, w, i, row), [SealReceipt(i, receipt), RecordRow(i)];
            && (IsRun(name, w, DeliveryRun(i, row, stamp, receipt, n))
                <==> IsRun(name, started, Turns(i, stamp, n)) && IsRun(name, After(name, started, Turns(i, stamp, n)), ending))
            && (IsRun(name, w, DeliveryRun(i, row, stamp, receipt, n)) ==>
                  After(name, w, DeliveryRun(i, row, stamp, receipt, n)) == After(name, After(name, started, Turns(i, stamp, n)), ending))
  {
    hide Enabled, Apply, Turns;
    var events := DeliveryRun(i, row, stamp, receipt, n);
    var rest := Turns(i, stamp, n) + [SealReceipt(i, receipt), RecordRow(i)];
    assert events[0] == StartDelivery(i, row) && events[1..] == rest;
    RunAppends(name, Started(name, w, i, row), Turns(i, stamp, n), [SealReceipt(i, receipt), RecordRow(i)]);
  }

  lemma CompletedWasReady(name: Naming, w: World, i: int, row: Row, stamp: int, receipt: F.Artifact, n: nat)
    requires Safe(name, w) && ReadsRow(name, w.db, row) && i !in w.actors && w.trail != []
    requires Completes(name, w, i, row, stamp, receipt, n)
    ensures GitReady(Head(w), row.job) && RecordReady(name, w.db, row, Target(Head(w), row.job, stamp), receipt)
  {
    hide ReadsRow, GitReady, RecordReady, Target, Enabled, Apply, IsRun, After, Solo, D.Step, I.Inv, IsTrail, D.Accepts,
         DeliveryCommand, RefsChangeTrees, CommitsAttached, BasesOnBranch, AdvancesOk, DeliveriesOnBranch, ActorsOk;
    StartedIsAlone(name, w, i, row, stamp);
    var started := Started(name, w, i, row);
    RunParts(name, w, i, row, stamp, receipt, n);
    TurnsFollowSolo(name, started, i, stamp, n);
    var reached := After(name, started, Turns(i, stamp, n));
    EndOfRun(name, reached, i, receipt);
    FinishedStays(Shared(Head(reached), reached.refs), reached.actors[i], stamp);
    var a := Sealed(reached.actors[i], receipt);
    AcceptedIsRecorded(w.db, DeliveryCommand(name, a).value) by { CommandIsDelivery(name, a); }
    RecordSucceedsExactly(name, w.db, a);
  }

  lemma CommandIsDelivery(name: Naming, a: Actor)
    requires a.Runner? && DeliveryCommand(name, a).Some?
    ensures var c := DeliveryCommand(name, a).value;
            c.RecordDelivery? && c.candidate == a.row.candidate && c.resultingCommit == name(a.made)
  {
  }

  predicate Printable(name: Naming, row: Row, made: Commit) {
    row.job.cost < TWO64 && |name(row.job.base)| < TWO64 && |name(row.job.commit)| < TWO64 && |name(made)| < TWO64 && |made.tree| < TWO64
  }

  /** The command that records `made` for a row. */
  function Recording(name: Naming, row: Row, made: Commit, receipt: F.Artifact): Command
    requires Printable(name, row, made)
  {
    RecordDelivery(row.principal, row.commandId, row.candidate, row.candidateRevision, row.attemptRevision,
                   row.ticketRevision,
                   row.campaignRevision, name(row.job.base), name(row.job.commit), name(made), made.tree, row.job.cost, receipt)
  }

  lemma CommandIsRecording(name: Naming, a: Actor)
    requires a.Runner? && DeliveryCommand(name, a).Some?
    ensures a.receipt.Some? && Printable(name, a.row, a.made)
            && DeliveryCommand(name, a).value == Recording(name, a.row, a.made, a.receipt.value)
  {
  }

  lemma ReadyCompletes(name: Naming, w: World, i: int, row: Row, stamp: int, receipt: F.Artifact) returns (n: nat)
    requires Safe(name, w) && ReadsRow(name, w.db, row) && i !in w.actors && w.trail != []
    requires GitReady(Head(w), row.job) && RecordReady(name, w.db, row, Target(Head(w), row.job, stamp), receipt)
    ensures Completes(name, w, i, row, stamp, receipt, n)
    ensures Printable(name, row, Target(Head(w), row.job, stamp))
    ensures var after := After(name, w, DeliveryRun(i, row, stamp, receipt, n));
            && Head(after) == Target(Head(w), row.job, stamp) && i !in after.actors
            && D.Accepts(w.db, Recording(name, row, Target(Head(w), row.job, stamp), receipt))
            && after.db == D.Step(w.db, Recording(name, row, Target(Head(w), row.job, stamp), receipt)).0
  {
    hide ReadsRow, GitReady, RecordReady, Target, Enabled, Apply, IsRun, After, Solo, D.Step, I.Inv, IsTrail, D.Accepts,
         DeliveryCommand, RefsChangeTrees, CommitsAttached, BasesOnBranch, AdvancesOk, DeliveriesOnBranch, ActorsOk;
    StartedIsAlone(name, w, i, row, stamp);
    var started := Started(name, w, i, row);
    n := TurnsReachSolo(name, started, i, stamp);
    var reached := After(name, started, Turns(i, stamp, n));
    var a := Sealed(reached.actors[i], receipt);
    RecordSucceedsExactly(name, w.db, a);
    CommandIsDelivery(name, a);
    CommandIsRecording(name, a);
    AcceptedIsRecorded(w.db, DeliveryCommand(name, a).value);
    EndOfRun(name, reached, i, receipt);
    RunParts(name, w, i, row, stamp, receipt, n);
  }

  // -------------------------------------------------------- after a crash

  /** The head that a crash past the merge leaves: when the branch is one past the base of
      a ready row, its head is the delivery, at some cost, of an attached candidate on that
      base, and the row's delivery recognises it exactly when it is the candidate itself or
      has its tree and the cost just read is the delivered one or the one its subject spells. */
  lemma ResumedDelivery(name: Naming, w: World, row: Row) returns (k: int, c: Commit, cost: nat)
    requires Safe(name, w) && ReadsRow(name, w.db, row) && Head(w).parents == [row.job.base]
    ensures k in w.db.candidates && Delivers(name, w.db.candidates[k], row.job.base, Head(w), c, cost)
    ensures GitReady(Head(w), row.job)
            <==> || Head(w) == row.job.commit
                 || (Head(w).tree == row.job.tree && (row.job.cost == cost || FirstLineIs(Shown(c), Trailer(row.job.cost))))
  {
    hide I.Inv, CommitsAttached, DeliveriesOnBranch, ActorsOk, RefsChangeTrees, HasLine, FirstLineIs, NamesCost,
         Trailer, AppendTrailer;
    BaseIsVisited(name, w, row);
    NotOwnChild(row.job.base, Head(w));
    var last := |w.trail| - 1;
    assert last > 0;
    assert AdvanceOk(name, w.db, w.trail[last - 1], w.trail[last]);
    k, c, cost :| k in w.db.candidates && Delivers(name, w.db.candidates[k], w.trail[last - 1], w.trail[last], c, cost);
    assert [w.trail[last - 1]] == [row.job.base];
    assert w.trail[last - 1] == row.job.base;
    DeliveryShows(c, row.job.base, cost, Head(w).stamp, row.job.cost);
  }

  lemma BaseIsVisited(name: Naming, w: World, row: Row)
    requires Injective(name) && BasesOnBranch(name, w.trail, w.db) && ReadsRow(name, w.db, row)
    ensures row.job.base in w.trail
  {
    hide D.LoadAttempt;
    assert BaseOnBranch(name, w.trail, w.db.candidates[row.candidate]);
    var j :| 0 <= j < |w.trail| && name(w.trail[j]) == name(row.job.base);
    assert w.trail[j] == row.job.base;
  }

  /** The costs a delivery commit shows: its own, and the one its subject line spells. */
  lemma DeliveryShows(c: Commit, base: Commit, cost: nat, stamp: int, other: nat)
    requires !NamesCost(Shown(c))
    ensures HasLine(Shown(DeliveryCommit(c, base, cost, stamp)), Trailer(other)) <==>
              other == cost || FirstLineIs(Shown(c), Trailer(other))
  {
    hide HasLine, FirstLineIs, NamesCost, Trailer;
    assert Shown(DeliveryCommit(c, base, cost, stamp)) == Delivered(Shown(c), cost);
    ShownCosts(Shown(c), cost, other);
  }

  lemma EventExtends(name: Naming, w: World, e: Event)
    requires Safe(name, w) && Enabled(name, w, e)
    ensures Extends(w, Apply(name, w, e))
  {
    hide I.Inv, CommitsAttached, DeliveriesOnBranch, ActorsOk, BasesOnBranch, AdvancesOk, D.Step, E.Apply, E.Enabled,
         CommitsKept, ReadsRow;
    EventOnlyGrows(name, w, e);
    var after := Apply(name, w, e);
    InvHasFreshIds(w.db);
    if e.Elsewhere? {
      EventKeepsCommits(w.db, e.event);
      KeptColumns(w.db, after.db);
    } else if e.RecordRow? {
      RecordKeepsCommits(w.db, DeliveryCommand(name, w.actors[e.actor]).value);
      KeptColumns(w.db, after.db);
    } else if e.AttachCommit? {
      AttachKeepsOthers(w.db, AttachCommand(name, w.actors[e.actor], e).value);
    }
  }

  lemma KeptColumns(db: D.Db, after: D.Db)
    requires CommitsKept(db, after)
    ensures forall k :: k in db.candidates ==>
              k in after.candidates && ColumnsStay(db.candidates[k], after.candidates[k])
  {
  }

  lemma {:induction false} RunExtends(name: Naming, w: World, events: seq<Event>)
    requires Safe(name, w) && w.trail != [] && IsRun(name, w, events)
    ensures Extends(w, After(name, w, events))
    decreases |events|
  {
    hide Safe, Enabled, Apply;
    if events != [] {
      EventExtends(name, w, events[0]);
      EventKeepsSafe(name, w, events[0]);
      RunExtends(name, Apply(name, w, events[0]), events[1..]);
    }
  }

  /** The facts of a delivery do not change under a runner that read them. */
  lemma SameJob(name: Naming, w: World, after: World, job: Job, candidate: int, row: Row)
    requires Injective(name) && candidate in w.db.candidates && Describes(name, w.db.candidates[candidate], job)
             && Extends(w, after)
    requires ReadsRow(name, after.db, row) && row.candidate == candidate && row.job.cost == job.cost
    ensures row.job == job
  {
    hide D.LoadAttempt;
    assert name(row.job.commit) == name(job.commit) && name(row.job.base) == name(job.base);
  }

  /** An unrecorded delivery whose head nobody has moved on: either the branch is still on
      the base, or the runner has merged, or recognised, the commit that is now the head. */
  predicate Unrecorded(head: Commit, a: Actor)
    requires a.Runner?
  {
    head == a.row.job.base || ((a.runStep == Confirm || a.runStep == Seal || a.runStep == Record) && a.made == head)
  }

  /** Delivery is crash-safe: wherever a runner is interrupted before its record, and
      whatever happens afterwards, as long as head and cost are what they were, one more
      attempt completes exactly when recording is ready (and, if the branch had not moved
      yet, the candidate's message names no cost). */
  lemma InterruptedDeliveryCompletes(name: Naming, w: World, j: int, events: seq<Event>, i: int, row: Row, stamp: int,
                                     receipt: F.Artifact)
    requires Safe(name, w) && RunnerIn(w, j) && Unrecorded(Head(w), w.actors[j]) && IsRun(name, w, events)
    requires var after := After(name, w, events);
             && Head(after) == Head(w) && i !in after.actors && ReadsRow(name, after.db, row)
             && row.candidate == w.actors[j].row.candidate && row.job.cost == w.actors[j].row.job.cost
    ensures var after := After(name, w, events);
            (exists n: nat :: Completes(name, after, i, row, stamp, receipt, n))
            <==> && (Head(w) == row.job.base ==> !NamesCost(Shown(row.job.commit)))
                 && RecordReady(name, after.db, row, Target(Head(w), row.job, stamp), receipt)
  {
    hide ReadsRow, RecordReady, Target, Completes, IsRun, After, I.Inv, RefsChangeTrees, CommitsAttached, BasesOnBranch,
         AdvancesOk, DeliveriesOnBranch, ActorsOk, Enabled, Apply, HasLine, NamesCost, Trailer, AppendTrailer, Extends;
    var after, a := After(name, w, events), w.actors[j];
    OneActorOk(name, w, j);
    RunKeepsSafe(name, w, events);
    RunExtends(name, w, events);
    SameJob(name, w, after, a.row.job, a.row.candidate, row);
    RowIsAttached(name, after, row);
    HeadIsRecognised(name, w, a);
    DeliveryCompletesExactly(name, after, i, row, stamp, receipt);
  }

  lemma HeadIsRecognised(name: Naming, w: World, a: Actor)
    requires w.trail != [] && a.Runner? && RunnerOk(name, w.trail, w.refs, w.db, a) && Unrecorded(Head(w), a)
    requires a.row.job.commit.parents == [a.row.job.base]
    ensures GitReady(Head(w), a.row.job) <==> (Head(w) == a.row.job.base ==> !NamesCost(Shown(a.row.job.commit)))
  {
    hide HasLine, NamesCost, Trailer, AppendTrailer;
    NotOwnChild(a.row.job.base, a.row.job.commit);
    if Head(w).parents == [a.row.job.base] {
      NotOwnChild(a.row.job.base, Head(w));
    }
    if a.runStep == Confirm {
      DeliveryCommitIsExact(a.row.job.commit, a.row.job.base, a.row.job.cost, a.made.stamp);
    }
  }

  // ------------------------------------------------------- one advance, two rows

  lemma ChildIsNotFirst(trail: seq<Commit>, base: Commit, c: Commit) returns (i: int)
    requires IsTrail(trail) && base in trail && c in trail && c.parents == [base]
    ensures 0 < i < |trail| && trail[i] == c && trail[i - 1] == base
  {
    i :| 0 <= i < |trail| && trail[i] == c;
    var j :| 0 <= j < |trail| && trail[j] == base;
    ParentIsSmaller(c.parents, 0);
    assert Size(base) < Size(c);
    TrailGrows(trail, 0, j);
    assert i > 0;
    assert [trail[i - 1]] == [base];
  }

  lemma BaseFoundOnBranch(name: Naming, w: World, k: int, base: Commit)
    requires Injective(name) && BasesOnBranch(name, w.trail, w.db) && k in w.db.candidates
             && w.db.candidates[k].commit.Some?
    requires w.db.candidates[k].baseCommit == name(base)
    ensures base in w.trail
  {
    assert BaseOnBranch(name, w.trail, w.db.candidates[k]);
    var j :| 0 <= j < |w.trail| && name(w.trail[j]) == name(base);
    assert w.trail[j] == base;
  }

  /** Two delivery rows name one commit exactly when their candidates were built on one base,
      for the branch leaves a base once. They then also agree on the tree, and the shared
      commit shows both their costs (unless it is the candidate's own commit). */
  lemma RowsShareCommitExactly(name: Naming, w: World, d: int, e: int) returns (c: Commit)
    requires Safe(name, w) && d in w.db.deliveries && e in w.db.deliveries
    requires w.db.deliveries[d].candidate in w.db.candidates && w.db.deliveries[e].candidate in w.db.candidates
    ensures var x, y := w.db.deliveries[d], w.db.deliveries[e];
            && (x.resultingCommit == y.resultingCommit
                <==> w.db.candidates[x.candidate].baseCommit == w.db.candidates[y.candidate].baseCommit)
            && RecordedAs(name, w.trail, x, c)
            && (x.resultingCommit == y.resultingCommit ==>
                  x.resultingTree == y.resultingTree && RecordedAs(name, w.trail, y, c))
  {
    hide I.Inv, CommitsAttached, ActorsOk, AdvancesOk, BasesOnBranch, RefsChangeTrees, HasLine, Trailer;
    var x, y := w.db.deliveries[d], w.db.deliveries[e];
    DeliveredColumns(w.db, d);
    DeliveredColumns(w.db, e);
    c :| RecordedAs(name, w.trail, x, c);
    var g: Commit :| RecordedAs(name, w.trail, y, g);
    if x.resultingCommit == y.resultingCommit {
      assert c == g;
    }
    if w.db.candidates[x.candidate].baseCommit == w.db.candidates[y.candidate].baseCommit {
      var base := c.parents[0];
      assert g.parents[0] == base;
      BaseFoundOnBranch(name, w, x.candidate, base);
      assert c.parents == [base] && g.parents == [base];
      var i := ChildIsNotFirst(w.trail, base, c);
      var j := ChildIsNotFirst(w.trail, base, g);
      BranchAdvancesOnce(name, w, base, i, j);
    }
  }

  lemma DeliveredColumns(db: D.Db, d: int)
    requires I.Inv(db) && d in db.deliveries
    ensures db.deliveries[d].candidate in db.candidates
    ensures var k := db.candidates[db.deliveries[d].candidate];
            k.commit == Some(db.deliveries[d].candidateCommit) && db.deliveries[d].oldCommit == k.baseCommit
            && db.deliveries[d].resultingTree == k.candidateTree
  {
    hide I.Inv, I.FreshIds;
    Fr.Parts(db);
  }
}
