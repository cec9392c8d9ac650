/** Local Git custody: the candidate ref, the delivery commit, and the one branch
    mutation there is.

    A commit is the value Git hashes (parents, tree, message, and the identity and
    date environment as one stamp), so equal commits are equal object ids and no
    commit is its own ancestor. `update-ref` with an expected value and
    `merge --ff-only` are atomic. */
module Custody {
  import opened Basics
  import opened Messages

  datatype Commit = Commit(parents: seq<Commit>, tree: string, message: string, stamp: int)

  /** `git show -s --format=%B` */
  function Shown(c: Commit): string { c.message + "\n" }

  predicate IsAncestor(a: Commit, b: Commit)
    decreases b
  {
    a == b || exists i :: 0 <= i < |b.parents| && IsAncestor(a, b.parents[i])
  }

  /** `git merge --ff-only`: the branch afterwards, if the command succeeds. A target
      the branch already contains is reported as up to date. */
  function FastForward(head: Commit, target: Commit): Option<Commit> {
    if IsAncestor(head, target) then Some(target)
    else if IsAncestor(target, head) then Some(head)
    else None
  }

  datatype CustodyError =
    | RepositoryHeadMoved | CandidateTreeEqualsBase | CandidateIsNotExactOneParent | CandidateCommitTreeMismatch
    | CandidateRefDoesNotBindCommit | CandidateRefConflict | DeliveryBaseMismatch | DeliveryPostconditionMismatch
    | FactoryCostTrailerAlreadyPresent | FactoryCostTrailerMissing | LocalFastForwardFailed

  type Refs = map<string, Commit>

  /** `assert_candidate` */
  function CandidateError(refs: Refs, commit: Commit, base: Commit, tree: string, ref: string): Option<CustodyError> {
    if commit.parents != [base] then Some(CandidateIsNotExactOneParent)
    else if commit.tree != tree then Some(CandidateCommitTreeMismatch)
    else if ref !in refs || refs[ref] != commit then Some(CandidateRefDoesNotBindCommit)
    else None
  }

  /** `assert_delivery_commit` */
  function DeliveryError(commit: Commit, base: Commit, tree: string, cost: nat): Option<CustodyError> {
    if commit.parents != [base] then Some(CandidateIsNotExactOneParent)
    else if commit.tree != tree then Some(CandidateCommitTreeMismatch)
    else if !HasLine(Shown(commit), Trailer(cost)) then Some(FactoryCostTrailerMissing)
    else None
  }

  /** The commit `construct_delivery_commit` writes. */
  function DeliveryCommit(candidate: Commit, base: Commit, cost: nat, stamp: int): Commit {
    Commit([base], candidate.tree, AppendTrailer(Shown(candidate), cost), stamp)
  }

  lemma DeliveryCommitIsExact(candidate: Commit, base: Commit, cost: nat, stamp: int)
    ensures DeliveryError(DeliveryCommit(candidate, base, cost, stamp), base, candidate.tree, cost).None?
  {
    OwnTrailerIsFound(Shown(candidate), cost);
  }

  lemma ParentFastForwards(head: Commit, target: Commit)
    requires target.parents == [head]
    ensures FastForward(head, target) == Some(target)
  {
    assert IsAncestor(head, target.parents[0]);
  }

  // --------------------------------------------------- building candidates

  datatype Request = Request(ref: string, tree: string, message: string, stamp: int)

  function CandidateCommit(base: Commit, r: Request): Commit {
    Commit([base], r.tree, r.message, r.stamp)
  }

  /** A commit with exactly the parent and tree the candidate was validated on. */
  predicate Proper(commit: Commit, base: Commit, r: Request) {
    commit.parents == [base] && commit.tree == r.tree
  }

  /** `construct_or_recover_candidate_commit`, as seen by one undisturbed caller. */
  function Built(head: Commit, refs: Refs, seen: Commit, r: Request): Result<Commit, CustodyError> {
    if head != seen then Err(RepositoryHeadMoved)
    else if r.ref in refs then
      match CandidateError(refs, refs[r.ref], seen, r.tree, r.ref)
      case Some(e) => Err(e)
      case None => Ok(refs[r.ref])
    else if r.tree == seen.tree then Err(CandidateTreeEqualsBase)
    else Ok(CandidateCommit(seen, r))
  }

  // -------------------------------------------------------------- delivery

  /** What `deliver_accepted_candidate` reads from the candidate's row. */
  datatype Job = Job(base: Commit, commit: Commit, tree: string, ref: string, cost: nat)

  datatype Moved = Moved(previous: Commit, delivered: Commit, tree: string)

  /** The Git half of `deliver_accepted_candidate`, as seen by one undisturbed caller:
      the branch afterwards and the answer. */
  function Delivery(head: Commit, refs: Refs, job: Job, stamp: int): (Commit, Result<Moved, CustodyError>) {
    if head == job.commit && head.tree == job.tree then
      match CandidateError(refs, job.commit, job.base, job.tree, job.ref)
      case Some(e) => (head, Err(e))
      case None => (head, Ok(Moved(job.base, job.commit, job.tree)))
    else if head.tree == job.tree && head != job.base then
      match CandidateError(refs, job.commit, job.base, job.tree, job.ref)
      case Some(e) => (head, Err(e))
      case None =>
        match DeliveryError(head, job.base, job.tree, job.cost)
        case Some(e) => (head, Err(e))
        case None => (head, Ok(Moved(job.base, head, head.tree)))
    else
      match CandidateError(refs, job.commit, head, job.tree, job.ref)
      case Some(e) => (head, Err(e))
      case None =>
        if NamesCost(Shown(job.commit)) then (head, Err(FactoryCostTrailerAlreadyPresent))
        else
          var delivered := DeliveryCommit(job.commit, head, job.cost, stamp);
          (delivered, Ok(Moved(head, delivered, job.tree)))
  }

  /** The repository as custody mutates it. */
  class GitCustody {
    var head: Commit
    var refs: Refs

    constructor (initial: Commit)
      ensures head == initial && refs == map[]
    {
      head, refs := initial, map[];
    }

    /** `bind_candidate_ref`: expected-absent compare-and-swap. */
    method BindCandidateRef(ref: string, commit: Commit) returns (present: Result<bool, CustodyError>)
      modifies this`refs
      ensures refs == if ref in old(refs) then old(refs) else old(refs)[ref := commit]
      ensures present == if ref !in old(refs) then Ok(false)
                         else if old(refs)[ref] == commit then Ok(true) else Err(CandidateRefConflict)
    {
      if ref in refs {
        return if refs[ref] == commit then Ok(true) else Err(CandidateRefConflict);
      }
      refs := refs[ref := commit];
      present := Ok(false);
    }

    /** A bound ref never moves; success names a proper commit that the ref binds. */
    method ConstructOrRecoverCandidateCommit(seen: Commit, r: Request) returns (built: Result<Commit, CustodyError>)
      modifies this`refs
      ensures built == Built(old(head), old(refs), seen, r)
      ensures forall ref :: ref in old(refs) ==> ref in refs && refs[ref] == old(refs)[ref]
      ensures built.Ok? ==> r.ref in refs && refs[r.ref] == built.value && Proper(built.value, seen, r)
      ensures built.Err? ==> refs == old(refs)
    {
      if head != seen { return Err(RepositoryHeadMoved); }
      if r.ref in refs {
        var refused := CandidateError(refs, refs[r.ref], seen, r.tree, r.ref);
        if refused.Some? { return Err(refused.value); }
        return Ok(refs[r.ref]);
      }
      if r.tree == seen.tree { return Err(CandidateTreeEqualsBase); }
      var commit := CandidateCommit(seen, r);
      var present := BindCandidateRef(r.ref, commit);
      built := if present.Ok? then Ok(commit) else Err(CandidateRefConflict);
    }

    /** `fast_forward_delivery_commit` */
    method FastForwardDeliveryCommit(seen: Commit, delivered: Commit) returns (moved: Result<Moved, CustodyError>)
      modifies this`head
      ensures delivered.parents == [old(head)] ==>
                head == delivered && moved == Ok(Moved(seen, delivered, delivered.tree))
      ensures head == old(head) || head == delivered
      ensures moved.Ok? ==> head == delivered
    {
      if delivered.parents == [head] { ParentFastForwards(head, delivered); }
      var merged := FastForward(head, delivered);
      if merged.None? { return Err(LocalFastForwardFailed); }
      head := merged.value;
      if head != delivered { return Err(DeliveryPostconditionMismatch); }
      moved := Ok(Moved(seen, head, head.tree));
    }

    method DeliverAcceptedCandidate(job: Job, stamp: int) returns (moved: Result<Moved, CustodyError>)
      modifies this`head
      ensures (head, moved) == Delivery(old(head), refs, job, stamp)
    {
      var seen := head;
      if seen == job.commit && seen.tree == job.tree {
        var refused := CandidateError(refs, job.commit, job.base, job.tree, job.ref);
        return if refused.Some? then Err(refused.value) else Ok(Moved(job.base, job.commit, job.tree));
      }
      if seen.tree == job.tree && seen != job.base {
        var refused := CandidateError(refs, job.commit, job.base, job.tree, job.ref);
        if refused.Some? { return Err(refused.value); }
        refused := DeliveryError(seen, job.base, job.tree, job.cost);
        return if refused.Some? then Err(refused.value) else Ok(Moved(job.base, seen, seen.tree));
      }
      var refused := CandidateError(refs, job.commit, seen, job.tree, job.ref);
      if refused.Some? { return Err(refused.value); }
      if NamesCost(Shown(job.commit)) { return Err(FactoryCostTrailerAlreadyPresent); }
      var delivered := DeliveryCommit(job.commit, seen, job.cost, stamp);
      // The proof of the fresh commit's parent, tree and trailer cannot fail.
      DeliveryCommitIsExact(job.commit, seen, job.cost, stamp);
      moved := FastForwardDeliveryCommit(seen, delivered);
    }
  }

  // -------------------------------------------------------------- theorems

  /** A retry of a build, with whatever message and clock it then has, returns the
      commit the first one bound. */
  lemma RebuildReturnsBoundCommit(head: Commit, refs: Refs, seen: Commit, r: Request, again: Request)
    requires Built(head, refs, seen, r).Ok? && again.ref == r.ref && again.tree == r.tree
    ensures var bound := Built(head, refs, seen, r).value;
            Built(head, refs[r.ref := bound], seen, again) == Ok(bound)
  {
  }

  /** The ref binds the attached commit, which is a proper child of its base. */
  predicate Attached(refs: Refs, job: Job) {
    CandidateError(refs, job.commit, job.base, job.tree, job.ref).None? && job.base.tree != job.tree
  }

  /** Success moves the branch by at most one commit, onto a child of the candidate's
      base with exactly the candidate's tree. */
  lemma DeliveryIsOneStep(head: Commit, refs: Refs, job: Job, stamp: int)
    requires Attached(refs, job)
    ensures var (after, answer) := Delivery(head, refs, job, stamp);
            && (answer.Ok? ==> answer.value == Moved(job.base, after, job.tree) && after.parents == [job.base] && after.tree == job.tree)
            && (after != head ==> head == job.base && answer.Ok?)
            && (answer.Err? ==> after == head)
  {
  }

  lemma NotOwnChild(parent: Commit, child: Commit)
    requires child.parents == [parent]
    ensures child != parent
  {
    assert child.parents[0] < child;
  }

  /** From the candidate's base, delivery succeeds exactly when the candidate's message
      does not already name a cost on a later line. */
  lemma FirstRunCompletes(refs: Refs, job: Job, stamp: int)
    requires Attached(refs, job)
    ensures Delivery(job.base, refs, job, stamp).1.Ok? <==> !NamesCost(Shown(job.commit))
  {
    NotOwnChild(job.base, job.commit);
  }

  /** After a crash between the branch mutation and its record, a re-run with the same
      facts completes without moving the branch exactly when the cost it now reads is
      the one delivered, or the subject line happens to spell the new trailer. */
  lemma RerunCompletes(refs: Refs, job: Job, stamp: int, later: nat, laterStamp: int)
    requires Attached(refs, job) && !NamesCost(Shown(job.commit))
    ensures var head := Delivery(job.base, refs, job, stamp).0;
            var (after, answer) := Delivery(head, refs, job.(cost := later), laterStamp);
            && after == head && head != job.base
            && (answer == Ok(Moved(job.base, head, job.tree))
                <==> later == job.cost || FirstLineIs(Shown(job.commit), Trailer(later)))
            && (answer.Ok? || answer == Err(FactoryCostTrailerMissing))
  {
    NotOwnChild(job.base, job.commit);
    var head := Delivery(job.base, refs, job, stamp).0;
    NotOwnChild(job.base, head);
    DeliveryNamesCost(job.commit, job.base, job.cost, stamp);
    ShownCosts(Shown(job.commit), job.cost, later);
  }

  /** A delivery commit is never the candidate commit itself. */
  lemma DeliveryNamesCost(candidate: Commit, base: Commit, cost: nat, stamp: int)
    ensures NamesCost(Shown(DeliveryCommit(candidate, base, cost, stamp)))
  {
    var d := DeliveryCommit(candidate, base, cost, stamp);
    var t := TrimNewlines(Shown(candidate));
    assert Shown(d) == Delivered(Shown(candidate), cost);
    DeliveredLayout(Shown(candidate), cost);
    var s := Shown(d);
    assert s[|t| + 1..|t| + 1 + |COST_KEY|] == Trailer(cost)[..|COST_KEY|] by {
      assert s[|t| + 1..|t| + 1 + |Trailer(cost)|][..|COST_KEY|] == s[|t| + 1..|t| + 1 + |COST_KEY|];
    }
    OccursAfterBreak(s, COST_KEY, |t|);
    assert OccursAt(s, "\n" + COST_KEY, |t|);
  }
}
