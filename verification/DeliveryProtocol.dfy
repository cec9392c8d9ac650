/** Candidate commits and deliveries across two stores, with any number of builders
    and runners interleaved, each of which may crash between any two steps.

    Git is changed first and the database second. Each step below is one Git mutation, one
    transaction, or a group of Git reads, of which only the head and refs can change
    meanwhile: refs never move, and a head read too early is caught by the merge. A step
    whose check fails stops its actor, and so does a crash. Object ids are values of an
    injective `name`. */
module DeliveryProtocol {
  import opened Basics
  import opened Commands
  import opened Custody
  import opened Messages
  import D = Decision
  import E = DecisionEvents
  import F = Fingerprints

  type Naming = Commit -> string

  ghost predicate Injective(name: Naming) { forall a: Commit, b: Commit :: name(a) == name(b) ==> a == b }

  datatype BuildStep = Snapshot | LookUp | Recover | Construct | Bind | Swap | Reread | Holding
  datatype RunStep = Qualify | Choose | Recheck | Refence | Write | Merge | Confirm | Seal | Record

  /** What a delivery reads from its row before it touches Git. */
  datatype Row = Row(
    candidate: RowId, job: Job, principal: Text, commandId: Text,
    candidateRevision: U64, attemptRevision: U64, ticketRevision: U64, campaignRevision: U64)

  datatype Actor =
    | Builder(candidate: int, base: Commit, request: Request, built: Commit, buildStep: BuildStep)
    | Runner(row: Row, seen: Commit, made: Commit, runStep: RunStep, receipt: Option<F.Artifact>)

  /** `trail` is the history of the checked-out branch; its last commit is the head. */
  datatype World = World(trail: seq<Commit>, refs: Refs, db: D.Db, actors: map<int, Actor>)

  function Head(w: World): Commit
    requires w.trail != []
  {
    w.trail[|w.trail| - 1]
  }

  // ------------------------------------------------------- one actor's step

  /** The shared Git state an actor step reads and writes. */
  datatype Shared = Shared(head: Commit, refs: Refs)

  /** `construct_or_recover_candidate_commit`: its Git mutations one at a time, the reads before each together. */
  function BuilderStep(s: Shared, a: Actor): (Shared, Option<Actor>)
    requires a.Builder?
  {
    var ref := a.request.ref;
    match a.buildStep
    case Snapshot => (s, if s.head == a.base then Some(a.(buildStep := LookUp)) else None)
    case LookUp => (s, if ref in s.refs then Some(a.(built := s.refs[ref], buildStep := Recover)) else Some(a.(buildStep := Construct)))
    case Recover =>
      (s, if s.head == a.base && CandidateError(s.refs, a.built, a.base, a.request.tree, ref).None?
          then Some(a.(buildStep := Holding)) else None)
    case Construct =>
      (s, if s.head == a.base && a.request.tree != a.base.tree
          then Some(a.(built := CandidateCommit(a.base, a.request), buildStep := Bind)) else None)
    case Bind =>
      (s, if ref !in s.refs then Some(a.(buildStep := Swap))
          else if s.refs[ref] == a.built then Some(a.(buildStep := Holding)) else None)
    case Swap =>
      if ref !in s.refs then (s.(refs := s.refs[ref := a.built]), Some(a.(buildStep := Holding)))
      else (s, Some(a.(buildStep := Reread)))
    case Reread => (s, if ref in s.refs && s.refs[ref] == a.built then Some(a.(buildStep := Holding)) else None)
    case Holding => (s, Some(a))
  }

  /** The Git half of `deliver_accepted_candidate`: its Git mutations one at a time, the reads before each together. */
  function RunnerStep(s: Shared, a: Actor, stamp: int): (Shared, Option<Actor>)
    requires a.Runner?
  {
    var job := a.row.job;
    match a.runStep
    case Qualify => (s, Some(a.(seen := s.head, runStep := Choose)))
    case Choose =>
      if a.seen == job.commit && a.seen.tree == job.tree then
        (s, if CandidateError(s.refs, job.commit, job.base, job.tree, job.ref).None?
            then Some(a.(made := job.commit, runStep := Seal)) else None)
      else if a.seen.tree == job.tree && a.seen != job.base then
        (s, if CandidateError(s.refs, job.commit, job.base, job.tree, job.ref).None?
               && DeliveryError(a.seen, job.base, job.tree, job.cost).None?
            then Some(a.(made := a.seen, runStep := Seal)) else None)
      else (s, Some(a.(runStep := Recheck)))
    case Recheck =>
      (s, if s.head == a.seen && CandidateError(s.refs, job.commit, a.seen, job.tree, job.ref).None?
          then Some(a.(runStep := Refence)) else None)
    case Refence =>
      (s, if s.head == a.seen && CandidateError(s.refs, job.commit, a.seen, job.tree, job.ref).None?
          then Some(a.(runStep := Write)) else None)
    case Write =>
      (s, if NamesCost(Shown(job.commit)) then None
          else Some(a.(made := DeliveryCommit(job.commit, a.seen, job.cost, stamp), runStep := Merge)))
    case Merge =>
      (match FastForward(s.head, a.made)
       case None => (s, None)
       case Some(head) => (s.(head := head), Some(a.(runStep := Confirm))))
    case Confirm => (s, if s.head == a.made then Some(a.(runStep := Seal)) else None)
    case Seal => (s, Some(a))
    case Record => (s, Some(a))
  }

  function ActorStep(s: Shared, a: Actor, stamp: int): (Shared, Option<Actor>) {
    if a.Builder? then BuilderStep(s, a) else RunnerStep(s, a, stamp)
  }

  // ------------------------------------------------------------ the events

  datatype Event =
    | StartBuild(actor: int, candidate: int, base: Commit, request: Request)
    | StartDelivery(actor: int, row: Row)
    | Turn(actor: int, stamp: int)
    | SealReceipt(actor: int, receipt: F.Artifact)
    | RecordRow(actor: int)
    | AttachCommit(actor: int, principal: Text, commandId: Text, expected: U64)
    | Crash(actor: int)
    | Elsewhere(event: E.Event)

  /** The row the delivery query returns: accepted, awaiting the Architect's stage,
      in a running campaign whose cost is known. */
  ghost predicate ReadsRow(name: Naming, db: D.Db, row: Row) {
    && row.candidate in db.candidates
    && var k := db.candidates[row.candidate];
       && k.lifecycle == D.Accepted && k.commit == Some(name(row.job.commit)) && k.ref == Some(row.job.ref)
       && k.baseCommit == name(row.job.base) && k.candidateTree == row.job.tree && k.revision == row.candidateRevision
       && D.LoadAttempt(db, k.attempt).Ok?
       && var a := D.LoadAttempt(db, k.attempt).value;
          && a.row.stage == D.AwaitingArchitect && a.row.revision == row.attemptRevision
          && a.ticket.revision == row.ticketRevision
          && a.campaign.lifecycle == D.CampaignRunning && a.campaign.revision == row.campaignRevision
          && a.campaign.costState == D.CostKnown && a.campaign.cost == row.job.cost
  }

  /** The command a delivery ends with. */
  function DeliveryCommand(name: Naming, a: Actor): Option<Command>
    requires a.Runner?
  {
    var job := a.row.job;
    if a.receipt.None? || job.cost >= TWO64 || |name(job.base)| >= TWO64 || |name(job.commit)| >= TWO64
       || |name(a.made)| >= TWO64 || |a.made.tree| >= TWO64 then None
    else Some(RecordDelivery(
      a.row.principal, a.row.commandId, a.row.candidate, a.row.candidateRevision, a.row.attemptRevision,
      a.row.ticketRevision, a.row.campaignRevision, name(job.base), name(job.commit), name(a.made),
      a.made.tree, job.cost, a.receipt.value))
  }

  /** The command a build ends with. */
  function AttachCommand(name: Naming, a: Actor, e: Event): Option<Command>
    requires a.Builder? && e.AttachCommit?
  {
    if |name(a.built)| >= TWO64 || |a.request.ref| >= TWO64 || !(0 < a.candidate < TWO63) then None
    else Some(AttachCandidateCommit(e.principal, e.commandId, a.candidate, e.expected, name(a.built), a.request.ref))
  }

  ghost predicate Enabled(name: Naming, w: World, e: Event) {
    match e
    case StartBuild(i, k, base, request) =>
      && i !in w.actors && k in w.db.candidates
      && w.db.candidates[k].baseCommit == name(base) && w.db.candidates[k].candidateTree == request.tree
    case StartDelivery(i, row) => i !in w.actors && ReadsRow(name, w.db, row)
    case Turn(i, _) => i in w.actors
    case SealReceipt(i, _) => i in w.actors && w.actors[i].Runner? && w.actors[i].runStep == Seal
    case RecordRow(i) =>
      && i in w.actors && w.actors[i].Runner? && w.actors[i].runStep == Record
      && DeliveryCommand(name, w.actors[i]).Some?
    case AttachCommit(i, _, _, _) =>
      && i in w.actors && w.actors[i].Builder? && w.actors[i].buildStep == Holding
      && AttachCommand(name, w.actors[i], e).Some?
    case Crash(_) => true
    case Elsewhere(event) =>
      && E.Enabled(w.db, event)
      && (event.Ask? ==> !event.command.RecordDelivery? && !event.command.AttachCandidateCommit?)
  }

  function Without(actors: map<int, Actor>, i: int): map<int, Actor> { actors - {i} }

  function Stepped(w: World, i: int, stamp: int): World
    requires i in w.actors && w.trail != []
  {
    var (s, next) := ActorStep(Shared(Head(w), w.refs), w.actors[i], stamp);
    World(if s.head == Head(w) then w.trail else w.trail + [s.head], s.refs, w.db,
          if next.Some? then w.actors[i := next.value] else Without(w.actors, i))
  }

  ghost function Apply(name: Naming, w: World, e: Event): World
    requires w.trail != [] && Enabled(name, w, e)
  {
    match e
    case StartBuild(i, k, base, request) => w.(actors := w.actors[i := Builder(k, base, request, base, Snapshot)])
    case StartDelivery(i, row) => w.(actors := w.actors[i := Runner(row, row.job.base, row.job.base, Qualify, None)])
    case Turn(i, stamp) => Stepped(w, i, stamp)
    case SealReceipt(i, receipt) => w.(actors := w.actors[i := w.actors[i].(receipt := Some(receipt), runStep := Record)])
    case RecordRow(i) =>
      w.(db := D.Step(w.db, DeliveryCommand(name, w.actors[i]).value).0, actors := Without(w.actors, i))
    case AttachCommit(i, _, _, _) =>
      w.(db := D.Step(w.db, AttachCommand(name, w.actors[i], e).value).0, actors := Without(w.actors, i))
    case Crash(i) => w.(actors := Without(w.actors, i))
    case Elsewhere(event) => w.(db := E.Apply(w.db, event))
  }

  // ------------------------------------------------- one runner undisturbed

  function Left(step: RunStep): nat {
    match step
    case Qualify => 7 case Choose => 6 case Recheck => 5 case Refence => 4 case Write => 3 case Merge => 2 case Confirm => 1
    case Seal => 0 case Record => 0
  }

  /** A runner left alone until it has something to seal, or stops. */
  function Solo(s: Shared, a: Actor, stamp: int): (Shared, Option<Actor>)
    requires a.Runner?
    decreases Left(a.runStep)
  {
    if Left(a.runStep) == 0 then (s, Some(a))
    else
      var (after, next) := RunnerStep(s, a, stamp);
      if next.None? then (after, None) else Solo(after, next.value, stamp)
  }

  /** The stepwise protocol refines the method: left alone, it moves the branch exactly
      as `DeliverAcceptedCandidate` does and seals the same commit. */
  lemma SoloIsDelivery(s: Shared, a: Actor, stamp: int)
    requires a.Runner? && a.runStep == Qualify
    ensures var (after, done) := Solo(s, a, stamp);
            var (head, moved) := Delivery(s.head, s.refs, a.row.job, stamp);
            && after == Shared(head, s.refs) && done.Some? == moved.Ok?
            && (done.Some? ==> done.value.Runner? && done.value.runStep == Seal && done.value.row == a.row
                               && done.value.made == moved.value.delivered)
  {
    var job := a.row.job;
    var chosen := a.(seen := s.head, runStep := Choose);
    assert RunnerStep(s, a, stamp) == (s, Some(chosen));
    assert Solo(s, a, stamp) == Solo(s, chosen, stamp);
    if s.head == job.commit && s.head.tree == job.tree {
      var sealed := chosen.(made := job.commit, runStep := Seal);
      assert Solo(s, sealed, stamp) == (s, Some(sealed));
    } else if s.head.tree == job.tree && s.head != job.base {
      var sealed := chosen.(made := s.head, runStep := Seal);
      assert Solo(s, sealed, stamp) == (s, Some(sealed));
    } else {
      SoloMerges(s, chosen.(runStep := Recheck), stamp);
    }
  }

  lemma SoloMerges(s: Shared, a: Actor, stamp: int)
    requires a.Runner? && a.runStep == Recheck && a.seen == s.head
    ensures var (after, done) := Solo(s, a, stamp);
            var job := a.row.job;
            var d := DeliveryCommit(job.commit, s.head, job.cost, stamp);
            if CandidateError(s.refs, job.commit, s.head, job.tree, job.ref).None? && !NamesCost(Shown(job.commit))
            then after == Shared(d, s.refs) && done == Some(a.(made := d, runStep := Seal))
            else after == s && done.None?
  {
    var job := a.row.job;
    var d := DeliveryCommit(job.commit, s.head, job.cost, stamp);
    ParentFastForwards(s.head, d);
    if CandidateError(s.refs, job.commit, s.head, job.tree, job.ref).None? {
      var b := a.(runStep := Refence);
      assert Solo(s, a, stamp) == Solo(s, b, stamp);
      var c := b.(runStep := Write);
      assert Solo(s, b, stamp) == Solo(s, c, stamp);
      if !NamesCost(Shown(job.commit)) {
        var e := c.(made := d, runStep := Merge);
        assert Solo(s, c, stamp) == Solo(s, e, stamp);
        var f := e.(runStep := Confirm);
        assert RunnerStep(s, e, stamp) == (Shared(d, s.refs), Some(f));
        assert Solo(s, e, stamp) == Solo(Shared(d, s.refs), f, stamp);
        var g := f.(runStep := Seal);
        assert Solo(Shared(d, s.refs), g, stamp) == (Shared(d, s.refs), Some(g));
      }
    }
  }
}
