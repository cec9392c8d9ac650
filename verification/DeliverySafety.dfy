/** What every interleaving of builders, runners, crashes and other transactions keeps. */
module DeliverySafety {
  import opened Basics
  import opened Commands
  import opened Custody
  import opened DeliveryProtocol
  import opened Messages
  import D = Decision
  import I = DecisionInvariant
  import E = DecisionEvents
  import R = DecisionRuns
  import Fr = DecisionFrames

  // --------------------------------------- what transactions do to candidates

  predicate SameColumns(k: D.CandidateRow, m: D.CandidateRow) {
    k.baseCommit == m.baseCommit && k.candidateTree == m.candidateTree && k.commit == m.commit && k.ref == m.ref
  }

  /** No commit is attached or replaced; new candidates have none. */
  ghost predicate CommitsKept(db: D.Db, after: D.Db) {
    && (forall k :: k in db.candidates ==> k in after.candidates && SameColumns(db.candidates[k], after.candidates[k]))
    && (forall k :: k in after.candidates && k !in db.candidates ==>
          after.candidates[k].commit.None? && after.candidates[k].ref.None?)
  }

  lemma AcceptKeepsCommits(db: D.Db, c: Command)
    requires I.FreshIds(db) && D.Accepts(db, c) && !c.AttachCandidateCommit?
    ensures CommitsKept(db, D.Effect(db, c).0)
    ensures !c.RecordDelivery? ==> D.Effect(db, c).0.deliveries == db.deliveries
  {
    hide D.Accepts, D.Effect, CommitsKept, I.FreshIds;
    if c.SubmitCandidate? || c.SponsorTicket? || c.ReleaseTicketAttempt? {
      OtherCommandKeepsCommits(db, c);
    } else {
      CandidateCommandKeepsCommits(db, c);
    }
  }

  lemma OtherCommandKeepsCommits(db: D.Db, c: Command)
    requires I.FreshIds(db) && D.Accepts(db, c) && (c.SubmitCandidate? || c.SponsorTicket? || c.ReleaseTicketAttempt?)
    ensures CommitsKept(db, D.Effect(db, c).0) && D.Effect(db, c).0.deliveries == db.deliveries
  {
    hide D.Guard, D.StaticError, D.LockError, D.FindAudit, D.Classify, Fingerprint, D.LoadAttempt,
         D.ObservationsRegistered, D.Receipted, I.FreshIds;
    assert db.nextId !in db.candidates by { FreshCandidate(db); }
  }

  lemma CandidateCommandKeepsCommits(db: D.Db, c: Command)
    requires I.FreshIds(db) && D.Accepts(db, c)
    requires c.RecordValidation? || c.SubmitQualityReview? || c.DecideCandidate? || c.RecordDelivery?
    ensures CommitsKept(db, D.Effect(db, c).0)
    ensures !c.RecordDelivery? ==> D.Effect(db, c).0.deliveries == db.deliveries
  {
    hide D.Guard, D.StaticError, D.LockError, D.FindAudit, D.Classify, Fingerprint, D.LoadAttempt,
         D.ObservationsRegistered, D.Completes, D.StageAfterValidation, D.Receipted, I.FreshIds;
    FoundCandidate(db, c);
  }

  lemma FreshCandidate(db: D.Db)
    requires I.FreshIds(db)
    ensures db.nextId !in db.candidates && db.nextId !in db.deliveries
  {
  }

  lemma FoundCandidate(db: D.Db, c: Command)
    requires D.Accepts(db, c)
    ensures c.RecordValidation? || c.SubmitQualityReview? || c.DecideCandidate? || c.RecordDelivery? ==>
              c.candidate in db.candidates
  {
  }

  lemma EventKeepsCommits(db: D.Db, e: E.Event)
    requires I.FreshIds(db) && E.Enabled(db, e)
             && (e.Ask? ==> !e.command.AttachCandidateCommit? && !e.command.RecordDelivery?)
    ensures CommitsKept(db, E.Apply(db, e)) && E.Apply(db, e).deliveries == db.deliveries
  {
    hide D.Effect, D.Accepts, D.Step, D.Guard;
    if e.Ask? {
      if D.Accepts(db, e.command) {
        AcceptKeepsCommits(db, e.command);
        R.AcceptedEffect(db, e.command);
      } else {
        R.RefusedWritesNothing(db, e.command);
      }
    }
  }

  /** Recording adds at most one row, and exactly the one the command describes. */
  lemma RecordKeepsCommits(db: D.Db, c: Command)
    requires I.FreshIds(db) && c.RecordDelivery?
    ensures var after := D.Step(db, c).0;
            && CommitsKept(db, after)
            && (forall d :: d in db.deliveries ==> d in after.deliveries && after.deliveries[d] == db.deliveries[d])
            && (forall d :: d in after.deliveries && d !in db.deliveries ==>
                  after.deliveries[d] == D.DeliveryRow(c.candidate, c.candidateCommit, c.expectedOldCommit,
                                                       c.resultingCommit,
                                                       c.resultingTree, c.factoryCost))
  {
    if D.Accepts(db, c) {
      R.AcceptedEffect(db, c);
      AcceptKeepsCommits(db, c);
      FreshCandidate(db);
      FoundCandidate(db, c);
      hide D.Accepts, D.Step, D.Guard, I.FreshIds, D.LoadAttempt, D.Completes, Fingerprint, CommitsKept, D.StaticError;
    } else {
      R.RefusedWritesNothing(db, c);
      hide D.Step;
    }
  }

  /** Row `k` is as it was, or it is the one that got the command's commit and ref. */
  predicate AttachesAt(k: D.CandidateRow, m: D.CandidateRow, c: Command, id: int)
    requires c.AttachCandidateCommit?
  {
    || SameColumns(k, m)
    || (id == c.candidate && m.commit == Some(c.candidateCommit) && m.ref == Some(c.candidateRef) && k.commit.None?
        && m.baseCommit == k.baseCommit && m.candidateTree == k.candidateTree)
  }

  lemma AttachKeepsOthers(db: D.Db, c: Command)
    requires c.AttachCandidateCommit?
    ensures var after := D.Step(db, c).0;
            && after.deliveries == db.deliveries && (forall k :: k in db.candidates <==> k in after.candidates)
            && (forall k :: k in db.candidates ==> AttachesAt(db.candidates[k], after.candidates[k], c, k))
  {
    if D.Accepts(db, c) {
      R.AcceptedEffect(db, c);
      hide D.Step, D.LoadAttempt, Fingerprint, D.StaticError, D.FindAudit;
    } else {
      R.RefusedWritesNothing(db, c);
      hide D.Step;
    }
  }

  // ------------------------------------------------------------- invariant

  ghost predicate IsTrail(trail: seq<Commit>) {
    trail != [] && forall j :: 0 < j < |trail| ==> trail[j].parents == [trail[j - 1]]
  }

  /** Candidate `k`'s attached commit: one parent, the base; the candidate tree; bound by its ref. */
  ghost predicate AttachedAs(name: Naming, refs: Refs, row: D.CandidateRow, c: Commit) {
    && row.commit == Some(name(c)) && |c.parents| == 1 && name(c.parents[0]) == row.baseCommit
    && c.tree == row.candidateTree
    && row.ref.Some? && row.ref.value in refs && refs[row.ref.value] == c
  }

  ghost predicate CommitsAttached(name: Naming, refs: Refs, db: D.Db) {
    forall k :: k in db.candidates && db.candidates[k].commit.Some? ==> exists c: Commit :: AttachedAs(name, refs, db.candidates[k], c)
  }

  /** A delivery row names a commit of the branch whose only parent is the base it replaced. */
  ghost predicate RecordedAs(name: Naming, trail: seq<Commit>, row: D.DeliveryRow, c: Commit) {
    && c in trail && row.resultingCommit == name(c) && |c.parents| == 1 && name(c.parents[0]) == row.oldCommit
    && c.tree == row.resultingTree && (row.candidateCommit == name(c) || HasLine(Shown(c), Trailer(row.cost)))
  }

  ghost predicate DeliveriesOnBranch(name: Naming, trail: seq<Commit>, db: D.Db) {
    forall d :: d in db.deliveries ==> exists c: Commit :: RecordedAs(name, trail, db.deliveries[d], c)
  }

  /** An attached candidate was built on a commit of the branch. */
  ghost predicate BaseOnBranch(name: Naming, trail: seq<Commit>, row: D.CandidateRow) {
    exists j :: 0 <= j < |trail| && name(trail[j]) == row.baseCommit
  }

  ghost predicate BasesOnBranch(name: Naming, trail: seq<Commit>, db: D.Db) {
    forall k :: k in db.candidates && db.candidates[k].commit.Some? ==> BaseOnBranch(name, trail, db.candidates[k])
  }

  /** `made` is the delivery commit, at some cost, of the candidate in `row`, whose attached
      commit `c` names no cost on a later line. */
  ghost predicate Delivers(name: Naming, row: D.CandidateRow, base: Commit, made: Commit, c: Commit, cost: nat) {
    && made == DeliveryCommit(c, base, cost, made.stamp) && !NamesCost(Shown(c))
    && row.commit == Some(name(c)) && row.baseCommit == name(base) && row.candidateTree == made.tree
  }

  ghost predicate AdvanceOk(name: Naming, db: D.Db, base: Commit, made: Commit) {
    exists k: int, c: Commit, cost: nat :: k in db.candidates && Delivers(name, db.candidates[k], base, made, c, cost)
  }

  /** Every advance of the branch is the delivery of an attached candidate on its base. */
  ghost predicate AdvancesOk(name: Naming, trail: seq<Commit>, db: D.Db) {
    forall j :: 0 < j < |trail| ==> AdvanceOk(name, db, trail[j - 1], trail[j])
  }

  /** What a re-run can recognise at the head: the candidate itself, or a commit that
      shows the cost. */
  predicate Recognised(made: Commit, job: Job) {
    made == job.commit || HasLine(Shown(made), Trailer(job.cost))
  }

  ghost predicate BuilderOk(name: Naming, trail: seq<Commit>, refs: Refs, db: D.Db, a: Actor)
    requires a.Builder?
  {
    && (a.buildStep != Snapshot ==> a.base in trail)
    && a.candidate in db.candidates
    && db.candidates[a.candidate].baseCommit == name(a.base)
    && db.candidates[a.candidate].candidateTree == a.request.tree
    && (a.buildStep == Bind || a.buildStep == Swap || a.buildStep == Reread || a.buildStep == Holding ==>
          Proper(a.built, a.base, a.request) && a.base.tree != a.request.tree)
    && (a.buildStep == Recover || a.buildStep == Holding ==> a.request.ref in refs && refs[a.request.ref] == a.built)
  }

  ghost predicate Describes(name: Naming, row: D.CandidateRow, job: Job) {
    && row.commit == Some(name(job.commit)) && row.ref == Some(job.ref)
    && row.baseCommit == name(job.base) && row.candidateTree == job.tree
  }

  ghost predicate RunnerOk(name: Naming, trail: seq<Commit>, refs: Refs, db: D.Db, a: Actor)
    requires a.Runner?
  {
    var job := a.row.job;
    && a.row.candidate in db.candidates && Describes(name, db.candidates[a.row.candidate], job)
    && (a.runStep != Qualify ==> a.seen in trail)
    && (a.runStep == Refence || a.runStep == Write || a.runStep == Merge || a.runStep == Confirm ==>
          a.seen == job.base && job.commit.tree == job.tree)
    && (a.runStep == Merge || a.runStep == Confirm || a.runStep == Seal || a.runStep == Record ==>
          a.made.parents == [job.base] && a.made.tree == job.tree)
    && (a.runStep == Merge || a.runStep == Confirm ==>
          a.made == DeliveryCommit(job.commit, job.base, job.cost, a.made.stamp) && !NamesCost(Shown(job.commit)))
    && (a.runStep == Seal || a.runStep == Record ==> a.made in trail && Recognised(a.made, job))
  }

  ghost predicate ActorOk(name: Naming, w: World, a: Actor) {
    if a.Builder? then BuilderOk(name, w.trail, w.refs, w.db, a) else RunnerOk(name, w.trail, w.refs, w.db, a)
  }

  ghost predicate ActorsOk(name: Naming, w: World) {
    forall i :: i in w.actors ==> ActorOk(name, w, w.actors[i])
  }

  /** Every bound commit changes its one parent's tree. */
  ghost predicate RefsChangeTrees(refs: Refs) {
    forall ref :: ref in refs ==> |refs[ref].parents| == 1 && refs[ref].parents[0].tree != refs[ref].tree
  }

  ghost predicate Safe(name: Naming, w: World) {
    && Injective(name) && IsTrail(w.trail) && I.Inv(w.db) && RefsChangeTrees(w.refs)
    && CommitsAttached(name, w.refs, w.db) && BasesOnBranch(name, w.trail, w.db) && AdvancesOk(name, w.trail, w.db)
    && DeliveriesOnBranch(name, w.trail, w.db) && ActorsOk(name, w)
  }

  // --------------------------------------------------------- Git-side steps

  ghost predicate RefsStay(refs: Refs, after: Refs) {
    forall ref :: ref in refs ==> ref in after && after[ref] == refs[ref]
  }

  lemma CommitsStayAttached(name: Naming, refs: Refs, after: Refs, db: D.Db)
    requires CommitsAttached(name, refs, db) && RefsStay(refs, after)
    ensures CommitsAttached(name, after, db)
  {
    forall k | k in db.candidates && db.candidates[k].commit.Some?
      ensures exists c: Commit :: AttachedAs(name, after, db.candidates[k], c)
    {
      var c :| AttachedAs(name, refs, db.candidates[k], c);
      assert AttachedAs(name, after, db.candidates[k], c);
    }
  }

  lemma DeliveriesStayOnBranch(name: Naming, trail: seq<Commit>, after: seq<Commit>, db: D.Db)
    requires DeliveriesOnBranch(name, trail, db) && forall c :: c in trail ==> c in after
    ensures DeliveriesOnBranch(name, after, db)
  {
    forall d | d in db.deliveries
      ensures exists c: Commit :: RecordedAs(name, after, db.deliveries[d], c)
    {
      var c :| RecordedAs(name, trail, db.deliveries[d], c);
      assert RecordedAs(name, after, db.deliveries[d], c);
    }
  }

  lemma BuilderStepOk(name: Naming, w: World, a: Actor)
    requires Safe(name, w) && a.Builder? && BuilderOk(name, w.trail, w.refs, w.db, a)
    ensures var (s, next) := BuilderStep(Shared(Head(w), w.refs), a);
            && s.head == Head(w) && RefsStay(w.refs, s.refs) && RefsChangeTrees(s.refs)
            && (next.Some? ==> next.value.Builder? && BuilderOk(name, w.trail, s.refs, w.db, next.value))
  {
    hide I.Inv, CommitsAttached, DeliveriesOnBranch, ActorsOk, BasesOnBranch, AdvancesOk;
  }

  /** The fence: a runner that proved its candidate against the head it saw has seen the base. */
  lemma SeenIsBase(name: Naming, w: World, a: Actor)
    requires Injective(name) && CommitsAttached(name, w.refs, w.db)
    requires a.Runner? && RunnerOk(name, w.trail, w.refs, w.db, a)
    requires CandidateError(w.refs, a.row.job.commit, a.seen, a.row.job.tree, a.row.job.ref).None?
    ensures a.seen == a.row.job.base
  {
    var row := w.db.candidates[a.row.candidate];
    var c: Commit :| AttachedAs(name, w.refs, row, c);
    assert name(c) == name(a.row.job.commit);
    assert c == a.row.job.commit;
    assert name(c.parents[0]) == name(a.row.job.base);
    assert [c.parents[0]] == c.parents;
  }

  function Size(c: Commit): nat { 1 + Sizes(c.parents) }

  function Sizes(cs: seq<Commit>): nat {
    if cs == [] then 0 else Size(cs[0]) + Sizes(cs[1..])
  }

  lemma {:induction false} ParentIsSmaller(cs: seq<Commit>, i: int)
    requires 0 <= i < |cs|
    ensures Size(cs[i]) <= Sizes(cs)
  {
    if i > 0 {
      ParentIsSmaller(cs[1..], i - 1);
    }
  }

  lemma {:induction false} AncestorIsSmaller(a: Commit, b: Commit)
    requires IsAncestor(a, b)
    ensures a == b || Size(a) < Size(b)
    decreases b
  {
    if a != b {
      var i :| 0 <= i < |b.parents| && IsAncestor(a, b.parents[i]);
      AncestorIsSmaller(a, b.parents[i]);
      ParentIsSmaller(b.parents, i);
    }
  }

  lemma {:induction false} TrailGrows(trail: seq<Commit>, i: int, j: int)
    requires IsTrail(trail) && 0 <= i <= j < |trail|
    ensures i < j ==> Size(trail[i]) < Size(trail[j])
    decreases j
  {
    if i < j {
      TrailGrows(trail, i, j - 1);
      assert trail[j].parents == [trail[j - 1]];
      ParentIsSmaller(trail[j].parents, 0);
    }
  }

  /** A fast-forward to a child of a commit of the branch moves it only from that commit. */
  lemma MergeStep(trail: seq<Commit>, base: Commit, made: Commit)
    requires IsTrail(trail) && base in trail && made.parents == [base]
    ensures var head := trail[|trail| - 1];
            FastForward(head, made).Some? ==> FastForward(head, made).value == head || (FastForward(head, made).value == made && head == base)
  {
    var head := trail[|trail| - 1];
    if IsAncestor(head, made) && head != made {
      var i :| 0 <= i < |made.parents| && IsAncestor(head, made.parents[i]);
      AncestorIsSmaller(head, base);
      var j :| 0 <= j < |trail| && trail[j] == base;
      TrailGrows(trail, j, |trail| - 1);
    }
  }

  lemma RunnerStepOk(name: Naming, w: World, a: Actor, stamp: int)
    requires Safe(name, w) && a.Runner? && RunnerOk(name, w.trail, w.refs, w.db, a)
    ensures RunnerStep(Shared(Head(w), w.refs), a, stamp).0.head != Head(w) ==>
              a.runStep == Merge && RunnerStep(Shared(Head(w), w.refs), a, stamp).0.head == a.made
    ensures var (s, next) := RunnerStep(Shared(Head(w), w.refs), a, stamp);
            && s.refs == w.refs
            && (s.head != Head(w) ==>
                  s.head.parents == [Head(w)] && Head(w) == a.row.job.base && s.head.tree == a.row.job.tree)
            && var trail := if s.head == Head(w) then w.trail else w.trail + [s.head];
               (next.Some? ==> next.value.Runner? && next.value.row == a.row && RunnerOk(name, trail, s.refs, w.db, next.value))
  {
    hide I.Inv, DeliveriesOnBranch, ActorsOk, BasesOnBranch, AdvancesOk, NamesCost, HasLine, Trailer, AppendTrailer,
         FastForward, IsAncestor;
    if a.runStep == Recheck && CandidateError(w.refs, a.row.job.commit, a.seen, a.row.job.tree, a.row.job.ref).None? {
      SeenIsBase(name, w, a);
    }
    if a.runStep == Merge {
      MergeStep(w.trail, a.row.job.base, a.made);
    }
    if a.runStep == Confirm {
      DeliveryCommitIsExact(a.row.job.commit, a.row.job.base, a.row.job.cost, a.made.stamp);
    }
  }

  // ------------------------------------------------------------- every event

  /** What an event of the world may do: refs and branch only grow, and a candidate's
      columns and attached commit stay. */
  ghost predicate Extends(w: World, after: World) {
    && RefsStay(w.refs, after.refs) && (forall c :: c in w.trail ==> c in after.trail)
    && (forall k :: k in w.db.candidates ==>
          k in after.db.candidates && ColumnsStay(w.db.candidates[k], after.db.candidates[k]))
  }

  predicate ColumnsStay(k: D.CandidateRow, m: D.CandidateRow) {
    k.baseCommit == m.baseCommit && k.candidateTree == m.candidateTree
    && (k.commit.Some? ==> m.commit == k.commit && m.ref == k.ref)
  }

  lemma ActorKept(name: Naming, w: World, after: World, a: Actor)
    requires ActorOk(name, w, a) && Extends(w, after)
    ensures ActorOk(name, after, a)
  {
  }

  lemma ActorsKept(name: Naming, w: World, after: World)
    requires ActorsOk(name, w) && Extends(w, after)
    requires forall i :: i in after.actors ==>
              (i in w.actors && after.actors[i] == w.actors[i]) || ActorOk(name, after, after.actors[i])
    ensures ActorsOk(name, after)
  {
    forall i | i in after.actors
      ensures ActorOk(name, after, after.actors[i])
    {
      if !ActorOk(name, after, after.actors[i]) {
        ActorKept(name, w, after, w.actors[i]);
      }
    }
  }

  lemma TurnKeepsSafe(name: Naming, w: World, i: int, stamp: int)
    requires Safe(name, w) && i in w.actors
    ensures Safe(name, Stepped(w, i, stamp))
  {
    hide I.Inv, RunnerOk, BuilderOk, CommitsAttached, DeliveriesOnBranch, RunnerStep, BuilderStep, BasesOnBranch,
         AdvancesOk, AdvanceOk, RefsChangeTrees, ActorsOk;
    var after := Stepped(w, i, stamp);
    OneActorOk(name, w, i);
    if w.actors[i].Builder? {
      BuilderStepOk(name, w, w.actors[i]);
      assert after.trail == w.trail;
    } else {
      RunnerStepOk(name, w, w.actors[i], stamp);
      if after.trail != w.trail {
        MergeIsDelivery(name, w, w.actors[i]);
      }
    }
    BranchGrows(name, w, after);
    CommitsStayAttached(name, w.refs, after.refs, w.db);
    DeliveriesStayOnBranch(name, w.trail, after.trail, w.db);
    ActorsKept(name, w, after);
  }

  /** A merge delivers the runner's own candidate. */
  lemma MergeIsDelivery(name: Naming, w: World, a: Actor)
    requires a.Runner? && a.runStep == Merge && RunnerOk(name, w.trail, w.refs, w.db, a)
    ensures AdvanceOk(name, w.db, a.row.job.base, a.made)
  {
    assert Delivers(name, w.db.candidates[a.row.candidate], a.row.job.base, a.made, a.row.job.commit, a.row.job.cost);
  }

  lemma BranchGrows(name: Naming, w: World, after: World)
    requires w.trail != [] && after.db == w.db && BasesOnBranch(name, w.trail, w.db) && AdvancesOk(name, w.trail, w.db)
    requires after.trail == w.trail || (exists c: Commit :: after.trail == w.trail + [c] && AdvanceOk(name, w.db, Head(w), c))
    ensures BasesOnBranch(name, after.trail, after.db) && AdvancesOk(name, after.trail, after.db)
  {
    hide AdvanceOk;
    forall k | k in w.db.candidates && w.db.candidates[k].commit.Some?
      ensures BaseOnBranch(name, after.trail, w.db.candidates[k])
    {
      var j :| 0 <= j < |w.trail| && name(w.trail[j]) == w.db.candidates[k].baseCommit;
      assert after.trail[j] == w.trail[j];
    }
  }

  /** Candidate columns that do not change keep every base and every advance accounted for. */
  lemma ProvenanceKept(name: Naming, w: World, after: World)
    requires after.trail == w.trail && Extends(w, after) && AdvancesOk(name, w.trail, w.db)
             && BasesOnBranch(name, w.trail, w.db)
    requires forall k :: k in after.db.candidates && after.db.candidates[k].commit.Some? ==>
               (k in w.db.candidates && w.db.candidates[k].commit.Some?) || BaseOnBranch(name, w.trail, after.db.candidates[k])
    ensures AdvancesOk(name, after.trail, after.db) && BasesOnBranch(name, after.trail, after.db)
  {
    forall j | 0 < j < |after.trail|
      ensures AdvanceOk(name, after.db, after.trail[j - 1], after.trail[j])
    {
      var k: int, c: Commit, cost: nat :|
        k in w.db.candidates && Delivers(name, w.db.candidates[k], w.trail[j - 1], w.trail[j], c, cost);
      assert Delivers(name, after.db.candidates[k], after.trail[j - 1], after.trail[j], c, cost);
    }
    forall k | k in after.db.candidates && after.db.candidates[k].commit.Some?
      ensures BaseOnBranch(name, after.trail, after.db.candidates[k])
    {
      if k in w.db.candidates && w.db.candidates[k].commit.Some? {
        assert BaseOnBranch(name, w.trail, w.db.candidates[k]);
      }
    }
  }

  lemma StartKeepsSafe(name: Naming, w: World, e: Event)
    requires Safe(name, w) && Enabled(name, w, e) && (e.StartBuild? || e.StartDelivery?)
    ensures Safe(name, Apply(name, w, e))
  {
    hide I.Inv, CommitsAttached, DeliveriesOnBranch, RefsChangeTrees, ActorsOk, BasesOnBranch, AdvancesOk, NamesCost;
    var after := Apply(name, w, e);
    ActorsKept(name, w, after);
  }

  lemma OneActorOk(name: Naming, w: World, i: int)
    requires ActorsOk(name, w) && i in w.actors
    ensures ActorOk(name, w, w.actors[i])
  {
  }

  lemma SealKeepsSafe(name: Naming, w: World, e: Event)
    requires Safe(name, w) && Enabled(name, w, e) && (e.SealReceipt? || e.Crash?)
    ensures Safe(name, Apply(name, w, e))
  {
    hide I.Inv, CommitsAttached, DeliveriesOnBranch, RefsChangeTrees, ActorsOk, BasesOnBranch, AdvancesOk, NamesCost,
         Recognised;
    var after := Apply(name, w, e);
    if e.SealReceipt? {
      OneActorOk(name, w, e.actor);
    }
    ActorsKept(name, w, after);
  }

  lemma CommitsKeptExtends(name: Naming, w: World, after: World)
    requires CommitsAttached(name, w.refs, w.db) && CommitsKept(w.db, after.db) && after.refs == w.refs
             && after.trail == w.trail
    ensures Extends(w, after) && CommitsAttached(name, after.refs, after.db)
  {
    forall k | k in after.db.candidates && after.db.candidates[k].commit.Some?
      ensures exists c: Commit :: AttachedAs(name, after.refs, after.db.candidates[k], c)
    {
      assert k in w.db.candidates;
      var c :| AttachedAs(name, w.refs, w.db.candidates[k], c);
      assert AttachedAs(name, after.refs, after.db.candidates[k], c);
    }
  }

  lemma ElsewhereKeepsSafe(name: Naming, w: World, e: Event)
    requires Safe(name, w) && Enabled(name, w, e) && e.Elsewhere?
    ensures Safe(name, Apply(name, w, e))
  {
    hide I.Inv, E.Enabled, E.Apply, CommitsKept, Extends, ActorOk, CommitsAttached, DeliveriesOnBranch, BasesOnBranch,
         AdvancesOk;
    var after := Apply(name, w, e);
    InvHasFreshIds(w.db);
    EventKeepsCommits(w.db, e.event);
    E.EventKeepsInv(w.db, e.event);
    CommitsKeptExtends(name, w, after);
    KeptCommitsAreOld(w.db, after.db);
    ProvenanceKept(name, w, after);
    SameDeliveries(name, w.trail, w.db, after.db);
    ActorsKept(name, w, after);
  }

  lemma KeptCommitsAreOld(db: D.Db, after: D.Db)
    requires CommitsKept(db, after)
    ensures forall k :: k in after.candidates && after.candidates[k].commit.Some? ==>
              k in db.candidates && db.candidates[k].commit.Some?
  {
  }

  lemma InvHasFreshIds(db: D.Db)
    requires I.Inv(db)
    ensures I.FreshIds(db)
  {
    Fr.Parts(db);
    hide I.Inv, I.FreshIds;
  }

  lemma SameDeliveries(name: Naming, trail: seq<Commit>, db: D.Db, after: D.Db)
    requires DeliveriesOnBranch(name, trail, db) && after.deliveries == db.deliveries
    ensures DeliveriesOnBranch(name, trail, after)
  {
  }

  lemma RecordKeepsSafe(name: Naming, w: World, e: Event)
    requires Safe(name, w) && Enabled(name, w, e) && e.RecordRow?
    ensures Safe(name, Apply(name, w, e))
  {
    hide I.Inv, D.Step, CommitsKept, Extends, CommitsAttached, RecordedAs, BasesOnBranch, AdvancesOk, RunnerOk,
         BuilderOk;
    var after := Apply(name, w, e);
    var a := w.actors[e.actor];
    var c := DeliveryCommand(name, a).value;
    OneActorOk(name, w, e.actor);
    InvHasFreshIds(w.db);
    RecordKeepsCommits(w.db, c);
    E.StepKeepsInv(w.db, c);
    CommitsKeptExtends(name, w, after);
    KeptCommitsAreOld(w.db, after.db);
    ProvenanceKept(name, w, after);
    ActorsKept(name, w, after);
    forall d | d in after.db.deliveries
      ensures exists x: Commit :: RecordedAs(name, after.trail, after.db.deliveries[d], x)
    {
      if d !in w.db.deliveries {
        NewRowOnBranch(name, w, a, after.db.deliveries[d]);
      }
    }
  }

  lemma NewRowOnBranch(name: Naming, w: World, a: Actor, row: D.DeliveryRow)
    requires a.Runner? && a.runStep == Record && RunnerOk(name, w.trail, w.refs, w.db, a)
    requires row.resultingCommit == name(a.made) && row.oldCommit == name(a.row.job.base)
             && row.resultingTree == a.made.tree
    requires row.candidateCommit == name(a.row.job.commit) && row.cost == a.row.job.cost
    ensures RecordedAs(name, w.trail, row, a.made)
  {
  }

  lemma BaseFound(name: Naming, trail: seq<Commit>, base: Commit, row: D.CandidateRow)
    requires base in trail && row.baseCommit == name(base)
    ensures BaseOnBranch(name, trail, row)
  {
    var j :| 0 <= j < |trail| && trail[j] == base;
    assert name(trail[j]) == row.baseCommit;
  }

  lemma AttachKeepsSafe(name: Naming, w: World, e: Event)
    requires Safe(name, w) && Enabled(name, w, e) && e.AttachCommit?
    ensures Safe(name, Apply(name, w, e))
  {
    hide I.Inv, D.Step, DeliveriesOnBranch, BasesOnBranch, AdvancesOk, RunnerOk, ActorsOk;
    var after := Apply(name, w, e);
    var a := w.actors[e.actor];
    var c := AttachCommand(name, a, e).value;
    OneActorOk(name, w, e.actor);
    AttachKeepsOthers(w.db, c);
    E.StepKeepsInv(w.db, c);
    forall k | k in after.db.candidates && after.db.candidates[k].commit.Some?
      ensures exists x: Commit :: AttachedAs(name, after.refs, after.db.candidates[k], x)
    {
      if SameColumns(w.db.candidates[k], after.db.candidates[k]) {
        var x :| AttachedAs(name, w.refs, w.db.candidates[k], x);
        assert AttachedAs(name, after.refs, after.db.candidates[k], x);
      } else {
        assert AttachedAs(name, after.refs, after.db.candidates[k], a.built);
      }
    }
    SameDeliveries(name, w.trail, w.db, after.db);
    assert Extends(w, after);
    forall k | k in after.db.candidates && after.db.candidates[k].commit.Some? && w.db.candidates[k].commit.None?
      ensures BaseOnBranch(name, w.trail, after.db.candidates[k])
    {
      BaseFound(name, w.trail, a.base, after.db.candidates[k]);
    }
    ProvenanceKept(name, w, after);
    ActorsKept(name, w, after);
  }

  /** Any step of any actor, any crash, and any other transaction. */
  lemma EventKeepsSafe(name: Naming, w: World, e: Event)
    requires Safe(name, w) && Enabled(name, w, e)
    ensures Safe(name, Apply(name, w, e))
  {
    hide I.Inv, CommitsAttached, DeliveriesOnBranch, ActorsOk, BasesOnBranch, AdvancesOk;
    match e
    case Turn(i, stamp) => TurnKeepsSafe(name, w, i, stamp);
    case RecordRow(_) => RecordKeepsSafe(name, w, e);
    case AttachCommit(_, _, _, _) => AttachKeepsSafe(name, w, e);
    case Elsewhere(_) => ElsewhereKeepsSafe(name, w, e);
    case SealReceipt(_, _) => SealKeepsSafe(name, w, e);
    case Crash(_) => SealKeepsSafe(name, w, e);
    case _ => StartKeepsSafe(name, w, e);
  }
}
