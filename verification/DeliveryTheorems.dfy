/** Crash-safe delivery over whole runs. */
module DeliveryTheorems {
  import opened Basics
  import opened Commands
  import opened Custody
  import opened Messages
  import opened DeliveryProtocol
  import opened DeliverySafety
  import D = Decision
  import I = DecisionInvariant
  import E = DecisionEvents
  import Fr = DecisionFrames

  ghost predicate IsRun(name: Naming, w: World, events: seq<Event>)
    requires w.trail != []
    decreases |events|
  {
    events == [] || (Enabled(name, w, events[0]) && Apply(name, w, events[0]).trail != [] && IsRun(name, Apply(name, w, events[0]), events[1..]))
  }

  ghost function After(name: Naming, w: World, events: seq<Event>): (after: World)
    requires w.trail != [] && IsRun(name, w, events)
    ensures after.trail != []
    decreases |events|
  {
    if events == [] then w else After(name, Apply(name, w, events[0]), events[1..])
  }

  lemma StartIsSafe(name: Naming, first: Commit)
    requires Injective(name)
    ensures Safe(name, World([first], map[], E.EMPTY, map[]))
  {
    E.EmptyIsInv();
    hide I.Inv;
  }

  lemma HeadExists(name: Naming, w: World)
    requires Safe(name, w)
    ensures w.trail != []
  {
  }

  /** The branch only grows, and refs never move. */
  ghost predicate OnlyGrows(w: World, after: World) {
    w.trail <= after.trail && RefsStay(w.refs, after.refs)
  }

  lemma EventOnlyGrows(name: Naming, w: World, e: Event)
    requires w.trail != [] && Enabled(name, w, e)
    ensures OnlyGrows(w, Apply(name, w, e))
  {
    hide D.Step, E.Apply, E.Enabled, FastForward, ReadsRow;
  }

  lemma {:induction false} RunKeepsSafe(name: Naming, w: World, events: seq<Event>)
    requires Safe(name, w) && IsRun(name, w, events)
    ensures Safe(name, After(name, w, events)) && OnlyGrows(w, After(name, w, events))
    decreases |events|
  {
    hide Safe, Enabled, Apply;
    HeadExists(name, w);
    if events != [] {
      EventKeepsSafe(name, w, events[0]);
      EventOnlyGrows(name, w, events[0]);
      RunKeepsSafe(name, Apply(name, w, events[0]), events[1..]);
    }
  }

  /** The branch visits no commit twice, so at most one advance starts from a
      candidate's base, whoever makes it and however often it is retried. */
  lemma BranchAdvancesOnce(name: Naming, w: World, base: Commit, i: int, j: int)
    requires Safe(name, w) && 0 < i < |w.trail| && 0 < j < |w.trail|
    requires w.trail[i - 1] == base && w.trail[j - 1] == base
    ensures i == j && w.trail[i].parents == [base]
  {
    hide I.Inv, CommitsAttached, DeliveriesOnBranch, ActorsOk;
    if i < j {
      TrailGrows(w.trail, i - 1, j - 1);
    } else {
      TrailGrows(w.trail, j - 1, i - 1);
    }
  }

  /** The branch moves only when a runner merges, from its candidate's base to a child
      of it with exactly the candidate's tree. */
  lemma AdvanceIsDelivery(name: Naming, w: World, e: Event)
    requires Safe(name, w) && Enabled(name, w, e) && Apply(name, w, e).trail != w.trail
    ensures e.Turn? && e.actor in w.actors && w.actors[e.actor].Runner? && w.actors[e.actor].runStep == Merge
    ensures var job := w.actors[e.actor].row.job;
            var d := w.actors[e.actor].made;
            && Apply(name, w, e).trail == w.trail + [d] && Head(w) == job.base
            && d.parents == [job.base] && d.tree == job.tree
            && d == DeliveryCommit(job.commit, job.base, job.cost, d.stamp) && !NamesCost(Shown(job.commit))
            && w.actors[e.actor].row.candidate in w.db.candidates
            && w.db.candidates[w.actors[e.actor].row.candidate].candidateTree == d.tree
            && w.db.candidates[w.actors[e.actor].row.candidate].baseCommit == name(job.base)
  {
    hide I.Inv, CommitsAttached, DeliveriesOnBranch, D.Step, E.Enabled, E.Apply, ReadsRow, FastForward;
    if e.Turn? && w.actors[e.actor].Runner? {
      assert ActorOk(name, w, w.actors[e.actor]);
      RunnerStepOk(name, w, w.actors[e.actor], e.stamp);
      if w.actors[e.actor].runStep == Merge {
        MergeStep(w.trail, w.actors[e.actor].row.job.base, w.actors[e.actor].made);
      }
    }
  }

  /** Every delivery row names a commit of the branch: its one parent is the base the
      candidate was built on, its tree the candidate's tree. */
  lemma RowNamesBranchCommit(name: Naming, w: World, d: int) returns (c: Commit)
    requires Safe(name, w) && d in w.db.deliveries
    ensures c in w.trail && w.db.deliveries[d].resultingCommit == name(c)
    ensures w.db.deliveries[d].candidate in w.db.candidates
    ensures var k := w.db.candidates[w.db.deliveries[d].candidate];
            |c.parents| == 1 && name(c.parents[0]) == k.baseCommit && c.tree == k.candidateTree
  {
    hide I.Inv, CommitsAttached, ActorsOk, I.FreshIds, I.TicketsAgree, I.OneLive, I.LiveFits, I.StagesFilled,
         I.EvidenceClosed, I.OneOfEach, I.ValidationsExact, I.ReviewsExact, I.DecisionsExact, I.CandidatesExact,
         I.RoundsCounted, I.TicketsOwned, I.TargetsKept, I.ReceiptsSound;
    Fr.Parts(w.db);
    c :| RecordedAs(name, w.trail, w.db.deliveries[d], c);
  }

  /** Builders that succeed for one ref, in one run and at any two times, return the same
      commit: the one the ref binds, with the candidate's base as its only parent. */
  lemma BuildersAgree(name: Naming, w: World, i: int, events: seq<Event>, j: int)
    requires Safe(name, w) && IsRun(name, w, events) && i in w.actors && j in After(name, w, events).actors
    requires w.actors[i].Builder? && w.actors[i].buildStep == Holding
    requires var b := After(name, w, events).actors[j];
             b.Builder? && b.buildStep == Holding && b.request.ref == w.actors[i].request.ref
    ensures var a, b := w.actors[i], After(name, w, events).actors[j];
            && a.built == b.built && a.request.ref in w.refs && w.refs[a.request.ref] == a.built
            && Proper(a.built, a.base, a.request) && Proper(b.built, b.base, b.request) && a.base == b.base
  {
    hide I.Inv, CommitsAttached, DeliveriesOnBranch, Enabled, Apply, IsRun, After, RunnerOk;
    RunKeepsSafe(name, w, events);
    var later := After(name, w, events);
    assert ActorOk(name, w, w.actors[i]) && ActorOk(name, later, later.actors[j]);
    assert w.actors[i].built.parents[0] == later.actors[j].built.parents[0];
  }
}
