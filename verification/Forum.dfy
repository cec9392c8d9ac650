/** The Forum: an append-only log of topics, threads and posts.

    Every mutation holds one advisory lock from before its first read until it
    commits, so mutations are steps of a single sequence. Identity values are drawn
    inside the lock; an insert that the schema refuses burns the value it drew. */
module Forum {
  import opened Basics
  import opened ForumCommands
  import Fg = Fingerprints

  datatype Author = Author(session: int, office: Role)
  datatype Topic = Topic(id: int, author: Author, name: string, description: string, supersedes: Option<int>)
  datatype Thread = Thread(id: int, topic: int, author: Author, title: string, supersedes: Option<int>)
  datatype Post = Post(id: int, thread: int, author: Author, kind: PostKind, body: string, replyTo: Option<int>,
                       supersedes: Option<int>, attachments: seq<Fg.Attachment>)

  datatype Subject = TopicSubject | ThreadSubject | PostSubject | OtherSubject
  datatype Entry = Entry(id: int, principal: string, commandId: string, operation: string, fingerprint: string,
                         subject: Subject, subjectId: int, revision: nat)

  datatype Log = Log(
    topics: seq<Topic>, threads: seq<Thread>, posts: seq<Post>, audit: seq<Entry>, artifacts: set<int>,
    nextTopic: int, nextThread: int, nextPost: int, nextAudit: int)

  datatype Error =
    | ContractViolation | IdempotencyConflict | SubjectMismatch | RevisionConflict | SupersessionTargetMissing
    | SupersessionParentMismatch | ConstraintViolation | RevisionOutOfRange

  datatype Receipt = Receipt(subjectId: int, revision: nat, audit: int, retry: bool)

  predicate IsForum(operation: string) {
    || operation == "forum.topic.create" || operation == "forum.thread.create" || operation == "forum.post.append"
    || operation == "forum.topic.supersede" || operation == "forum.thread.supersede"
  }

  /** `COALESCE(MAX(resulting_revision), 0)` over the Forum's own receipts. */
  function CurrentRevision(audit: seq<Entry>): nat {
    if audit == [] then 0
    else
      var earlier := CurrentRevision(audit[..|audit| - 1]);
      var last := audit[|audit| - 1];
      if IsForum(last.operation) && last.revision > earlier then last.revision else earlier
  }

  datatype Lookup = Absent | Present(entry: Entry)

  /** The unique row for a principal and command id. */
  function Find(audit: seq<Entry>, principal: string, commandId: string): Lookup {
    if audit == [] then Absent
    else
      var last := audit[|audit| - 1];
      if last.principal == principal && last.commandId == commandId then Present(last)
      else Find(audit[..|audit| - 1], principal, commandId)
  }

  function SubjectOf(c: ForumCommand): Subject {
    if c.CreateTopic? || c.SupersedeTopic? then TopicSubject
    else if c.CreateThread? || c.SupersedeThread? then ThreadSubject
    else PostSubject
  }

  predicate HasTopic(f: Log, id: int) { exists i :: 0 <= i < |f.topics| && f.topics[i].id == id }

  predicate HasThread(f: Log, id: int) { exists i :: 0 <= i < |f.threads| && f.threads[i].id == id }

  predicate ThreadIn(f: Log, id: int, topic: int) { exists i :: 0 <= i < |f.threads| && f.threads[i].id == id && f.threads[i].topic == topic }

  /** The relation trigger: an earlier post of the same thread. */
  predicate Relates(f: Log, target: Option<RowId>, thread: int) {
    target.None? || exists i :: 0 <= i < |f.posts| && f.posts[i].id == target.value && f.posts[i].thread == thread && target.value < f.nextPost
  }

  /** `ForumPostInput::validate` */
  predicate PostWellFormed(c: ForumCommand)
    requires c.AppendPost?
  {
    && |c.attachments| <= 8
    && (forall i, j :: 0 <= i < j < |c.attachments| ==> c.attachments[i].artifact != c.attachments[j].artifact)
    && ((c.replyTo.Some? || c.supersedes.Some?) ==> c.replyTo != c.supersedes)
  }

  /** Checks the method makes itself, before its insert. */
  function TargetError(f: Log, c: ForumCommand): Option<Error> {
    if c.SupersedeTopic? && !HasTopic(f, c.oldTopic) then Some(SupersessionTargetMissing)
    else if c.SupersedeThread? && !HasThread(f, c.oldThread) then Some(SupersessionTargetMissing)
    else if c.SupersedeThread? && !ThreadIn(f, c.oldThread, c.topic) then Some(SupersessionParentMismatch)
    else None
  }

  /** Checks the schema makes on the insert. */
  predicate Insertable(f: Log, c: ForumCommand) {
    && ((c.CreateThread? || c.SupersedeThread?) ==> HasTopic(f, c.topic))
    && (c.AppendPost? ==>
          && HasThread(f, c.thread) && Relates(f, c.replyTo, c.thread) && Relates(f, c.supersedes, c.thread)
          && forall i :: 0 <= i < |c.attachments| ==> c.attachments[i].artifact in f.artifacts)
  }

  function AuthorOf(b: Binding): Author { Author(b.session, b.office) }

  function DrawnId(f: Log, c: ForumCommand): int {
    if c.CreateTopic? || c.SupersedeTopic? then f.nextTopic
    else if c.CreateThread? || c.SupersedeThread? then f.nextThread
    else f.nextPost
  }

  function Drawn(f: Log, c: ForumCommand): Log {
    if c.CreateTopic? || c.SupersedeTopic? then f.(nextTopic := f.nextTopic + 1)
    else if c.CreateThread? || c.SupersedeThread? then f.(nextThread := f.nextThread + 1)
    else f.(nextPost := f.nextPost + 1)
  }

  function Inserted(f: Log, b: Binding, c: ForumCommand): Log {
    var a := AuthorOf(b);
    match c
    case CreateTopic(_, _, name, description) => f.(topics := f.topics + [Topic(f.nextTopic, a, name, description, None)])
    case SupersedeTopic(_, _, was, name, description) => f.(topics := f.topics + [Topic(f.nextTopic, a, name, description, Some(was))])
    case CreateThread(_, _, topic, title) => f.(threads := f.threads + [Thread(f.nextThread, topic, a, title, None)])
    case SupersedeThread(_, _, topic, was, title) => f.(threads := f.threads + [Thread(f.nextThread, topic, a, title, Some(was))])
    case AppendPost(_, _, thread, kind, body, replyTo, supersedes, attachments) =>
      f.(posts := f.posts + [Post(f.nextPost, thread, a, kind, body, Id(replyTo), Id(supersedes), attachments)])
  }

  function Id(o: Option<RowId>): Option<int> { if o.None? then None else Some(o.value) }

  function Receipted(f: Log, b: Binding, c: ForumCommand, id: int, revision: nat): Log {
    f.(audit := f.audit + [Entry(f.nextAudit, Principal(b), c.commandId, Operation(c), Fingerprint(b, c), SubjectOf(c),
                                 id, revision)],
       nextAudit := f.nextAudit + 1)
  }

  /** One mutation under the lock. */
  function Step(f: Log, b: Binding, c: ForumCommand): (Log, Result<Receipt, Error>) {
    if c.AppendPost? && !PostWellFormed(c) then (f, Err(ContractViolation))
    else
      var found := Find(f.audit, Principal(b), c.commandId);
      if found.Present? then
        if found.entry.operation != Operation(c) || found.entry.fingerprint != Fingerprint(b, c) then (f, Err(IdempotencyConflict))
        else if found.entry.subject != SubjectOf(c) then (f, Err(SubjectMismatch))
        else (f, Ok(Receipt(found.entry.subjectId, found.entry.revision, found.entry.id, true)))
      else if c.expected != CurrentRevision(f.audit) then (f, Err(RevisionConflict))
      else if TargetError(f, c).Some? then (f, Err(TargetError(f, c).value))
      else if !Insertable(f, c) then (Drawn(f, c), Err(ConstraintViolation))
      else if c.expected + 1 >= TWO63 then (Drawn(f, c), Err(RevisionOutOfRange))
      else
        var id := DrawnId(f, c);
        (Receipted(Drawn(Inserted(f, b, c), c), b, c, id, c.expected + 1),
         Ok(Receipt(id, c.expected + 1, f.nextAudit, false)))
  }

  // ------------------------------------------------------------- invariant

  predicate TopicIdsAscend(f: Log) {
    && (forall i :: 0 <= i < |f.topics| ==> 0 < f.topics[i].id < f.nextTopic)
    && (forall i, j :: 0 <= i < j < |f.topics| ==> f.topics[i].id < f.topics[j].id)
  }

  predicate ThreadIdsAscend(f: Log) {
    && (forall i :: 0 <= i < |f.threads| ==> 0 < f.threads[i].id < f.nextThread)
    && (forall i, j :: 0 <= i < j < |f.threads| ==> f.threads[i].id < f.threads[j].id)
  }

  predicate PostIdsAscend(f: Log) {
    && (forall i :: 0 <= i < |f.posts| ==> 0 < f.posts[i].id < f.nextPost)
    && (forall i, j :: 0 <= i < j < |f.posts| ==> f.posts[i].id < f.posts[j].id)
  }

  /** Each row counts for one revision; nothing else does. */
  predicate RevisionCounts(f: Log) {
    CurrentRevision(f.audit) == |f.topics| + |f.threads| + |f.posts|
  }

  /** A Forum receipt names a row of the table its operation writes. */
  predicate EntryOk(f: Log, e: Entry) {
    && ((e.operation == "forum.topic.create" || e.operation == "forum.topic.supersede") ==>
          e.subject == TopicSubject && HasTopic(f, e.subjectId))
    && ((e.operation == "forum.thread.create" || e.operation == "forum.thread.supersede") ==>
          e.subject == ThreadSubject && HasThread(f, e.subjectId))
    && (e.operation == "forum.post.append" ==>
          e.subject == PostSubject && exists i :: 0 <= i < |f.posts| && f.posts[i].id == e.subjectId)
  }

  predicate EntriesOk(f: Log) { forall i :: 0 <= i < |f.audit| ==> EntryOk(f, f.audit[i]) }

  /** A thread's topic and a post's thread are there. */
  predicate RelationsOk(f: Log) {
    && (forall i :: 0 <= i < |f.threads| ==> HasTopic(f, f.threads[i].topic))
    && (forall i :: 0 <= i < |f.posts| ==> HasThread(f, f.posts[i].thread))
  }

  predicate EarlierTopic(f: Log, i: nat, target: int)
    requires i <= |f.topics|
  {
    exists j :: 0 <= j < i && f.topics[j].id == target
  }

  predicate EarlierThread(f: Log, i: nat, target: int, topic: int)
    requires i <= |f.threads|
  {
    exists j :: 0 <= j < i && f.threads[j].id == target && f.threads[j].topic == topic
  }

  predicate EarlierPost(f: Log, i: nat, target: int, thread: int)
    requires i <= |f.posts|
  {
    exists j :: 0 <= j < i && f.posts[j].id == target && f.posts[j].thread == thread
  }

  /** What a row replies to or supersedes came before it: a topic any topic, a thread one of
      its own topic, a post one of its own thread. What a post attaches is registered. */
  predicate TargetsOk(f: Log) {
    && (forall i :: 0 <= i < |f.topics| && f.topics[i].supersedes.Some? ==>
          EarlierTopic(f, i, f.topics[i].supersedes.value))
    && (forall i :: 0 <= i < |f.threads| && f.threads[i].supersedes.Some? ==>
          EarlierThread(f, i, f.threads[i].supersedes.value, f.threads[i].topic))
    && (forall i :: 0 <= i < |f.posts| ==> PostTargetsOk(f, i))
  }

  predicate PostTargetsOk(f: Log, i: nat)
    requires i < |f.posts|
  {
    var p := f.posts[i];
    && (p.replyTo.Some? ==> EarlierPost(f, i, p.replyTo.value, p.thread))
    && (p.supersedes.Some? ==> EarlierPost(f, i, p.supersedes.value, p.thread) && p.replyTo != p.supersedes)
    && forall j :: 0 <= j < |p.attachments| ==> p.attachments[j].artifact in f.artifacts
  }

  predicate Valid(f: Log) {
    && TopicIdsAscend(f) && ThreadIdsAscend(f) && PostIdsAscend(f) && RevisionCounts(f) && EntriesOk(f)
    && RelationsOk(f) && TargetsOk(f)
    && f.nextTopic > 0 && f.nextThread > 0 && f.nextPost > 0
  }

  /** Rows and receipts are only ever appended. */
  predicate Extends(f: Log, g: Log) {
    f.topics <= g.topics && f.threads <= g.threads && f.posts <= g.posts && f.audit <= g.audit
    && f.artifacts <= g.artifacts
  }

  lemma StepExtends(f: Log, b: Binding, c: ForumCommand)
    ensures Extends(f, Step(f, b, c).0)
  {
    hide Fingerprint, Principal, Operation, CurrentRevision, Find;
  }

  lemma RevisionAppends(audit: seq<Entry>, e: Entry)
    ensures CurrentRevision(audit + [e])
         == if IsForum(e.operation) && e.revision > CurrentRevision(audit) then e.revision else CurrentRevision(audit)
  {
    assert (audit + [e])[..|audit|] == audit;
  }

  lemma FindAppends(audit: seq<Entry>, e: Entry, principal: string, commandId: string)
    ensures Find(audit + [e], principal, commandId)
         == if e.principal == principal && e.commandId == commandId then Present(e) else Find(audit, principal, commandId)
  {
    assert (audit + [e])[..|audit|] == audit;
  }

  lemma {:induction false} FoundIsEntry(audit: seq<Entry>, principal: string, commandId: string)
    requires Find(audit, principal, commandId).Present?
    ensures Find(audit, principal, commandId).entry in audit
    ensures var e := Find(audit, principal, commandId).entry; e.principal == principal && e.commandId == commandId
  {
    var last := audit[|audit| - 1];
    if last.principal != principal || last.commandId != commandId {
      FoundIsEntry(audit[..|audit| - 1], principal, commandId);
    }
  }

  predicate Accepts(f: Log, b: Binding, c: ForumCommand) {
    && (c.AppendPost? ==> PostWellFormed(c)) && Find(f.audit, Principal(b), c.commandId).Absent?
    && c.expected == CurrentRevision(f.audit) && TargetError(f, c).None? && Insertable(f, c) && c.expected + 1 < TWO63
  }

  lemma OperationIsForum(c: ForumCommand)
    ensures IsForum(Operation(c))
  {
  }

  lemma AcceptKeepsIds(f: Log, b: Binding, c: ForumCommand)
    requires Valid(f) && Accepts(f, b, c)
    ensures var g := Step(f, b, c).0; TopicIdsAscend(g) && ThreadIdsAscend(g) && PostIdsAscend(g)
  {
    hide EntriesOk, RelationsOk, RevisionCounts, Fingerprint, Principal, Operation, CurrentRevision, Find, Insertable,
         TargetError, PostWellFormed;
  }

  lemma AcceptCounts(f: Log, b: Binding, c: ForumCommand)
    requires Valid(f) && Accepts(f, b, c)
    ensures RevisionCounts(Step(f, b, c).0)
  {
    var g := Step(f, b, c).0;
    RevisionAppends(f.audit, g.audit[|f.audit|]);
    OperationIsForum(c);
    hide EntriesOk, RelationsOk, Fingerprint, Principal, Operation, Find, Insertable, TargetError, PostWellFormed,
         CurrentRevision, IsForum;
  }

  lemma EntryStaysOk(f: Log, g: Log, e: Entry)
    requires EntryOk(f, e) && Extends(f, g)
    ensures EntryOk(g, e)
  {
    assert forall i :: 0 <= i < |f.topics| ==> g.topics[i] == f.topics[i];
    assert forall i :: 0 <= i < |f.threads| ==> g.threads[i] == f.threads[i];
    assert forall i :: 0 <= i < |f.posts| ==> g.posts[i] == f.posts[i];
  }

  lemma NewEntryOk(f: Log, b: Binding, c: ForumCommand)
    requires Accepts(f, b, c)
    ensures var g := Step(f, b, c).0; |g.audit| == |f.audit| + 1 && EntryOk(g, g.audit[|f.audit|])
  {
    var g := Step(f, b, c).0;
    if c.CreateTopic? || c.SupersedeTopic? {
      assert g.topics[|f.topics|].id == f.nextTopic;
    } else if c.CreateThread? || c.SupersedeThread? {
      assert g.threads[|f.threads|].id == f.nextThread;
    } else {
      assert g.posts[|f.posts|].id == f.nextPost;
    }
    hide Fingerprint, Principal, CurrentRevision, Find, Insertable, TargetError, PostWellFormed;
  }

  lemma AcceptKeepsEntries(f: Log, b: Binding, c: ForumCommand)
    requires EntriesOk(f) && Accepts(f, b, c)
    ensures EntriesOk(Step(f, b, c).0)
  {
    hide Accepts, Step, EntryOk;
    var g := Step(f, b, c).0;
    StepExtends(f, b, c);
    NewEntryOk(f, b, c);
    forall i | 0 <= i < |g.audit|
      ensures EntryOk(g, g.audit[i])
    {
      if i < |f.audit| {
        EntryStaysOk(f, g, f.audit[i]);
        assert g.audit[i] == f.audit[i];
      }
    }
  }

  lemma RowsStay(f: Log, g: Log)
    requires Extends(f, g)
    ensures forall id :: HasTopic(f, id) ==> HasTopic(g, id)
    ensures forall id :: HasThread(f, id) ==> HasThread(g, id)
  {
    assert forall i :: 0 <= i < |f.topics| ==> g.topics[i] == f.topics[i];
    assert forall i :: 0 <= i < |f.threads| ==> g.threads[i] == f.threads[i];
  }

  lemma AcceptKeepsRelations(f: Log, b: Binding, c: ForumCommand)
    requires RelationsOk(f) && Accepts(f, b, c)
    ensures RelationsOk(Step(f, b, c).0)
  {
    StepExtends(f, b, c);
    RowsStay(f, Step(f, b, c).0);
    hide Fingerprint, Principal, Operation, CurrentRevision, Find, HasTopic, HasThread, TargetError, PostWellFormed,
         Relates;
  }

  /** The targets of rows already there are still earlier rows when more are appended. */
  lemma TargetsStayOk(f: Log, g: Log)
    requires TargetsOk(f) && Extends(f, g)
    ensures forall i :: 0 <= i < |f.topics| && g.topics[i].supersedes.Some? ==>
              EarlierTopic(g, i, g.topics[i].supersedes.value)
    ensures forall i :: 0 <= i < |f.threads| && g.threads[i].supersedes.Some? ==>
              EarlierThread(g, i, g.threads[i].supersedes.value, g.threads[i].topic)
    ensures forall i :: 0 <= i < |f.posts| ==> PostTargetsOk(g, i)
  {
    forall i | 0 <= i < |f.topics| && g.topics[i].supersedes.Some?
      ensures EarlierTopic(g, i, g.topics[i].supersedes.value)
    {
      assert g.topics[i] == f.topics[i];
      var j :| 0 <= j < i && f.topics[j].id == g.topics[i].supersedes.value;
      assert g.topics[j] == f.topics[j];
    }
    forall i | 0 <= i < |f.threads| && g.threads[i].supersedes.Some?
      ensures EarlierThread(g, i, g.threads[i].supersedes.value, g.threads[i].topic)
    {
      assert g.threads[i] == f.threads[i];
      var j :| 0 <= j < i && f.threads[j].id == g.threads[i].supersedes.value && f.threads[j].topic == g.threads[i].topic;
      assert g.threads[j] == f.threads[j];
    }
    forall i | 0 <= i < |f.posts|
      ensures PostTargetsOk(g, i)
    {
      assert g.posts[i] == f.posts[i] && PostTargetsOk(f, i);
      forall target | EarlierPost(f, i, target, f.posts[i].thread)
        ensures EarlierPost(g, i, target, f.posts[i].thread)
      {
        var j :| 0 <= j < i && f.posts[j].id == target && f.posts[j].thread == f.posts[i].thread;
        assert g.posts[j] == f.posts[j];
      }
    }
  }

  lemma NewTargetsOk(f: Log, b: Binding, c: ForumCommand)
    requires Accepts(f, b, c)
    ensures var g := Inserted(f, b, c);
            && (forall i :: |f.topics| <= i < |g.topics| && g.topics[i].supersedes.Some? ==>
                  EarlierTopic(g, i, g.topics[i].supersedes.value))
            && (forall i :: |f.threads| <= i < |g.threads| && g.threads[i].supersedes.Some? ==>
                  EarlierThread(g, i, g.threads[i].supersedes.value, g.threads[i].topic))
            && (forall i :: |f.posts| <= i < |g.posts| ==> PostTargetsOk(g, i))
  {
    hide Fingerprint, Principal, Operation, CurrentRevision, Find;
    var g := Inserted(f, b, c);
    if c.SupersedeTopic? {
      var j :| 0 <= j < |f.topics| && f.topics[j].id == c.oldTopic;
      assert g.topics[j] == f.topics[j];
    } else if c.SupersedeThread? {
      var j :| 0 <= j < |f.threads| && f.threads[j].id == c.oldThread && f.threads[j].topic == c.topic;
      assert g.threads[j] == f.threads[j];
    } else if c.AppendPost? {
      RelatedIsEarlier(f, g, c.replyTo, c.thread);
      RelatedIsEarlier(f, g, c.supersedes, c.thread);
    }
  }

  lemma RelatedIsEarlier(f: Log, g: Log, target: Option<RowId>, thread: int)
    requires Relates(f, target, thread) && f.posts <= g.posts
    ensures target.Some? ==> EarlierPost(g, |f.posts|, target.value, thread)
  {
    if target.Some? {
      var j :| 0 <= j < |f.posts| && f.posts[j].id == target.value && f.posts[j].thread == thread && target.value < f.nextPost;
      assert g.posts[j] == f.posts[j];
    }
  }

  lemma AcceptKeepsTargets(f: Log, b: Binding, c: ForumCommand)
    requires TargetsOk(f) && Accepts(f, b, c)
    ensures TargetsOk(Step(f, b, c).0)
  {
    hide Accepts, Step, PostTargetsOk, EarlierTopic, EarlierThread, Receipted;
    var g, h := Inserted(f, b, c), Step(f, b, c).0;
    InsertedRows(f, b, c);
    NewTargetsOk(f, b, c);
    TargetsStayOk(f, g);
    SameTargetsOk(g, h);
  }

  lemma InsertedRows(f: Log, b: Binding, c: ForumCommand)
    requires Accepts(f, b, c)
    ensures var g, h := Inserted(f, b, c), Step(f, b, c).0;
            Extends(f, g) && h.topics == g.topics && h.threads == g.threads && h.posts == g.posts
            && h.artifacts == g.artifacts
  {
    hide Fingerprint, Principal, Operation, CurrentRevision, Find, Insertable, TargetError, PostWellFormed;
  }

  /** An id drawn for a row that is not inserted leaves nothing behind. */
  lemma DrawnIsValid(f: Log, c: ForumCommand)
    requires Valid(f)
    ensures Valid(Drawn(f, c))
  {
    hide Find, Step, Insertable, TargetError, TargetsOk;
    SameTargetsOk(f, Drawn(f, c));
  }

  lemma SameTargetsOk(f: Log, g: Log)
    requires TargetsOk(f) && g.topics == f.topics && g.threads == f.threads && g.posts == f.posts
             && f.artifacts <= g.artifacts
    ensures TargetsOk(g)
  {
    hide EarlierTopic, EarlierThread, EarlierPost;
    SameEarlier(f, g);
    forall i | 0 <= i < |g.posts|
      ensures PostTargetsOk(g, i)
    {
      assert PostTargetsOk(f, i);
    }
  }

  lemma SameEarlier(f: Log, g: Log)
    requires g.topics == f.topics && g.threads == f.threads && g.posts == f.posts
    ensures forall i: nat, t :: i <= |f.topics| ==> EarlierTopic(f, i, t) == EarlierTopic(g, i, t)
    ensures forall i: nat, t, p :: i <= |f.threads| ==> EarlierThread(f, i, t, p) == EarlierThread(g, i, t, p)
    ensures forall i: nat, t, p :: i <= |f.posts| ==> EarlierPost(f, i, t, p) == EarlierPost(g, i, t, p)
  {
  }

  /** Every mutation keeps the log valid; in particular its revision is the number of
      topics, threads and posts. */
  lemma StepKeepsValid(f: Log, b: Binding, c: ForumCommand)
    requires Valid(f)
    ensures Valid(Step(f, b, c).0)
  {
    hide TopicIdsAscend, ThreadIdsAscend, PostIdsAscend, RevisionCounts, EntriesOk, RelationsOk, CurrentRevision, Find,
         Fingerprint, Principal, Operation, Insertable, TargetError, HasTopic, HasThread, EntryOk, TargetsOk;
    if Accepts(f, b, c) {
      AcceptKeepsIds(f, b, c);
      AcceptCounts(f, b, c);
      AcceptKeepsEntries(f, b, c);
      AcceptKeepsRelations(f, b, c);
      AcceptKeepsTargets(f, b, c);
    } else {
      RefusedStep(f, b, c);
      DrawnIsValid(f, c);
    }
  }

  /** A refused or repeated mutation appends nothing; at most it burns an identity value. */
  lemma RefusedStep(f: Log, b: Binding, c: ForumCommand)
    requires !Accepts(f, b, c)
    ensures Step(f, b, c).0 == f || Step(f, b, c).0 == Drawn(f, c)
  {
    hide Fingerprint, Principal, Operation, CurrentRevision, Find, Insertable, TargetError, PostWellFormed;
  }

  // ------------------------------------------------------------------- runs

  datatype Event =
    | Mutate(binding: Binding, command: ForumCommand)
    | OtherEntry(entry: Entry)
    | RegisterArtifact(artifact: int)

  predicate Enabled(f: Log, e: Event) {
    e.OtherEntry? ==> !IsForum(e.entry.operation) && Find(f.audit, e.entry.principal, e.entry.commandId).Absent?
  }

  function Apply(f: Log, e: Event): Log {
    match e
    case Mutate(b, c) => Step(f, b, c).0
    case OtherEntry(entry) => f.(audit := f.audit + [entry])
    case RegisterArtifact(a) => f.(artifacts := f.artifacts + {a})
  }

  predicate IsRun(f: Log, events: seq<Event>)
    decreases |events|
  {
    events == [] || (Enabled(f, events[0]) && IsRun(Apply(f, events[0]), events[1..]))
  }

  function After(f: Log, events: seq<Event>): Log
    decreases |events|
  {
    if events == [] then f else After(Apply(f, events[0]), events[1..])
  }

  lemma ValidParts(f: Log)
    requires Valid(f)
    ensures EntriesOk(f)
  {
  }

  lemma SameRowsStayValid(f: Log, g: Log)
    requires Valid(f) && g.topics == f.topics && g.threads == f.threads && g.posts == f.posts
    requires g.nextTopic == f.nextTopic && g.nextThread == f.nextThread && g.nextPost == f.nextPost
    requires CurrentRevision(g.audit) == CurrentRevision(f.audit) && EntriesOk(g) && f.artifacts <= g.artifacts
    ensures Valid(g)
  {
    hide CurrentRevision, EntriesOk, TargetsOk;
    SameTargetsOk(f, g);
  }

  lemma OtherEventsKeepValid(f: Log, e: Event)
    requires Valid(f) && Enabled(f, e) && !e.Mutate?
    ensures Valid(Apply(f, e)) && Extends(f, Apply(f, e))
  {
    hide Find, Step, HasTopic, HasThread, Valid, CurrentRevision;
    ValidParts(f);
    var g := Apply(f, e);
    if e.OtherEntry? {
      RevisionAppends(f.audit, e.entry);
    }
    forall i | 0 <= i < |g.audit|
      ensures EntryOk(g, g.audit[i])
    {
      if i < |f.audit| {
        EntryStaysOk(f, g, f.audit[i]);
      }
    }
    SameRowsStayValid(f, g);
  }

  lemma ExtendsTransitive(f: Log, g: Log, h: Log)
    requires Extends(f, g) && Extends(g, h)
    ensures Extends(f, h)
  {
  }

  lemma {:induction false} RunKeepsValid(f: Log, events: seq<Event>)
    requires Valid(f) && IsRun(f, events)
    ensures Valid(After(f, events)) && Extends(f, After(f, events))
    decreases |events|
  {
    hide Valid, Extends, Enabled, Step;
    if events != [] {
      if events[0].Mutate? {
        StepKeepsValid(f, events[0].binding, events[0].command);
        StepExtends(f, events[0].binding, events[0].command);
      } else {
        OtherEventsKeepValid(f, events[0]);
      }
      RunKeepsValid(Apply(f, events[0]), events[1..]);
      ExtendsTransitive(f, Apply(f, events[0]), After(f, events));
    } else {
      assert Extends(f, f) by { SelfExtends(f); }
    }
  }

  lemma SelfExtends(f: Log)
    ensures Extends(f, f)
  {
  }
}
