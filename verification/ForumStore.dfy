/** The Forum store: its five mutations as they insert rows and receipts, its lookups
    as loops, and what asking twice gives. */
module ForumStores {
  import opened Basics
  import opened ForumCommands
  import opened Forum

  class ForumStore {
    var topics: seq<Topic>
    var threads: seq<Thread>
    var posts: seq<Post>
    var audit: seq<Entry>
    var artifacts: set<int>
    var nextTopic: int
    var nextThread: int
    var nextPost: int
    var nextAudit: int

    constructor ()
      ensures Contents() == Log([], [], [], [], {}, 1, 1, 1, 1) && Valid(Contents())
    {
      topics, threads, posts, audit, artifacts := [], [], [], [], {};
      nextTopic, nextThread, nextPost, nextAudit := 1, 1, 1, 1;
    }

    function Contents(): Log
      reads this
    {
      Log(topics, threads, posts, audit, artifacts, nextTopic, nextThread, nextPost, nextAudit)
    }

    /** `current_forum_revision`: a scan for the largest Forum revision. */
    method CurrentForumRevision() returns (revision: nat)
      ensures revision == CurrentRevision(audit)
    {
      revision := 0;
      var i := 0;
      while i < |audit|
        invariant 0 <= i <= |audit| && revision == CurrentRevision(audit[..i])
      {
        assert audit[..i + 1][..i] == audit[..i];
        if IsForum(audit[i].operation) && audit[i].revision > revision {
          revision := audit[i].revision;
        }
        i := i + 1;
      }
      assert audit[..i] == audit;
    }

    /** `find_idempotent`'s query. */
    method FindEntry(principal: string, commandId: string) returns (found: Lookup)
      ensures found == Find(audit, principal, commandId)
    {
      var i := |audit|;
      assert audit[..i] == audit;
      while i > 0
        invariant 0 <= i <= |audit|
        invariant Find(audit, principal, commandId) == Find(audit[..i], principal, commandId)
      {
        assert audit[..i][..i - 1] == audit[..i - 1];
        i := i - 1;
        if audit[i].principal == principal && audit[i].commandId == commandId { return Present(audit[i]); }
      }
      found := Absent;
    }

    method InsertReceipt(b: Binding, c: ForumCommand, id: int, revision: nat) returns (auditId: int)
      modifies this`audit, this`nextAudit
      ensures Contents() == Receipted(old(Contents()), b, c, id, revision) && auditId == old(nextAudit)
    {
      auditId := nextAudit;
      audit := audit + [Entry(auditId, Principal(b), c.commandId, Operation(c), Fingerprint(b, c), SubjectOf(c), id,
                              revision)];
      nextAudit := nextAudit + 1;
    }

    /** Lock, retry lookup, revision and target checks; an answer here writes nothing. */
    method Enter(b: Binding, c: ForumCommand) returns (answer: Option<Result<Receipt, Error>>)
      requires c.AppendPost? ==> PostWellFormed(c)
      ensures answer.Some? ==> Step(Contents(), b, c) == (Contents(), answer.value)
      ensures answer.None? ==> Find(audit, Principal(b), c.commandId).Absent? && c.expected == CurrentRevision(audit)
                               && TargetError(Contents(), c).None?
    {
      hide Fingerprint, Principal, Operation, CurrentRevision, Find, Insertable, HasTopic, HasThread, ThreadIn,
           Inserted, Receipted;
      var found := FindEntry(Principal(b), c.commandId);
      if found.Present? {
        if found.entry.operation != Operation(c) || found.entry.fingerprint != Fingerprint(b, c) { return Some(Err(IdempotencyConflict)); }
        if found.entry.subject != SubjectOf(c) { return Some(Err(SubjectMismatch)); }
        return Some(Ok(Receipt(found.entry.subjectId, found.entry.revision, found.entry.id, true)));
      }
      var current := CurrentForumRevision();
      if c.expected != current { return Some(Err(RevisionConflict)); }
      var missing := TargetError(Contents(), c);
      if missing.Some? { return Some(Err(missing.value)); }
      answer := None;
    }

    method CreateTopic(b: Binding, c: ForumCommand) returns (answer: Result<Receipt, Error>)
      requires c.CreateTopic?
      modifies this
      ensures (Contents(), answer) == Step(old(Contents()), b, c)
    {
      hide Fingerprint, Principal, Operation, CurrentRevision, Find;
      var early := Enter(b, c);
      if early.Some? { return early.value; }
      var id := nextTopic;
      nextTopic := nextTopic + 1;
      if c.expected + 1 >= TWO63 { return Err(RevisionOutOfRange); }
      topics := topics + [Topic(id, AuthorOf(b), c.name, c.description, None)];
      var auditId := InsertReceipt(b, c, id, c.expected + 1);
      answer := Ok(Receipt(id, c.expected + 1, auditId, false));
    }

    method SupersedeTopic(b: Binding, c: ForumCommand) returns (answer: Result<Receipt, Error>)
      requires c.SupersedeTopic?
      modifies this
      ensures (Contents(), answer) == Step(old(Contents()), b, c)
    {
      hide Fingerprint, Principal, Operation, CurrentRevision, Find, HasTopic;
      var early := Enter(b, c);
      if early.Some? { return early.value; }
      var id := nextTopic;
      nextTopic := nextTopic + 1;
      if c.expected + 1 >= TWO63 { return Err(RevisionOutOfRange); }
      topics := topics + [Topic(id, AuthorOf(b), c.name, c.description, Some(c.oldTopic))];
      var auditId := InsertReceipt(b, c, id, c.expected + 1);
      answer := Ok(Receipt(id, c.expected + 1, auditId, false));
    }

    method CreateThread(b: Binding, c: ForumCommand) returns (answer: Result<Receipt, Error>)
      requires c.CreateThread?
      modifies this
      ensures (Contents(), answer) == Step(old(Contents()), b, c)
    {
      hide Fingerprint, Principal, Operation, CurrentRevision, Find, HasTopic;
      var early := Enter(b, c);
      if early.Some? { return early.value; }
      var id := nextThread;
      var refused := !HasTopic(Contents(), c.topic);
      nextThread := nextThread + 1;
      if refused { return Err(ConstraintViolation); }
      if c.expected + 1 >= TWO63 { return Err(RevisionOutOfRange); }
      threads := threads + [Thread(id, c.topic, AuthorOf(b), c.title, None)];
      var auditId := InsertReceipt(b, c, id, c.expected + 1);
      answer := Ok(Receipt(id, c.expected + 1, auditId, false));
    }

    method SupersedeThread(b: Binding, c: ForumCommand) returns (answer: Result<Receipt, Error>)
      requires c.SupersedeThread?
      modifies this
      ensures (Contents(), answer) == Step(old(Contents()), b, c)
    {
      hide Fingerprint, Principal, Operation, CurrentRevision, Find, HasTopic, HasThread, ThreadIn;
      var early := Enter(b, c);
      if early.Some? { return early.value; }
      var id := nextThread;
      var refused := !HasTopic(Contents(), c.topic);
      nextThread := nextThread + 1;
      if refused { return Err(ConstraintViolation); }
      if c.expected + 1 >= TWO63 { return Err(RevisionOutOfRange); }
      threads := threads + [Thread(id, c.topic, AuthorOf(b), c.title, Some(c.oldThread))];
      var auditId := InsertReceipt(b, c, id, c.expected + 1);
      answer := Ok(Receipt(id, c.expected + 1, auditId, false));
    }

    method AppendPost(b: Binding, c: ForumCommand) returns (answer: Result<Receipt, Error>)
      requires c.AppendPost?
      modifies this
      ensures (Contents(), answer) == Step(old(Contents()), b, c)
    {
      hide Fingerprint, Principal, Operation, CurrentRevision, Find, PostWellFormed, Insertable;
      if !PostWellFormed(c) { return Err(ContractViolation); }
      var early := Enter(b, c);
      if early.Some? { return early.value; }
      var id := nextPost;
      var refused := !Insertable(Contents(), c);
      nextPost := nextPost + 1;
      if refused { return Err(ConstraintViolation); }
      if c.expected + 1 >= TWO63 { return Err(RevisionOutOfRange); }
      posts := posts + [Post(id, c.thread, AuthorOf(b), c.kind, c.body, Id(c.replyTo), Id(c.supersedes),
                             c.attachments)];
      var auditId := InsertReceipt(b, c, id, c.expected + 1);
      answer := Ok(Receipt(id, c.expected + 1, auditId, false));
    }
  }

  // ------------------------------------------------------------ at most once

  lemma {:induction false} FindPersists(f: Log, events: seq<Event>, principal: string, commandId: string)
    requires IsRun(f, events) && Find(f.audit, principal, commandId).Present?
    ensures Find(After(f, events).audit, principal, commandId) == Find(f.audit, principal, commandId)
    decreases |events|
  {
    hide Enabled, Apply, Find;
    if events != [] {
      FindKept(f, events[0], principal, commandId);
      FindPersists(Apply(f, events[0]), events[1..], principal, commandId);
    }
  }

  lemma FindKept(f: Log, e: Event, principal: string, commandId: string)
    requires Enabled(f, e) && Find(f.audit, principal, commandId).Present?
    ensures Find(Apply(f, e).audit, principal, commandId) == Find(f.audit, principal, commandId)
  {
    if e.Mutate? {
      if Accepts(f, e.binding, e.command) {
        FindAppends(f.audit, Apply(f, e).audit[|f.audit|], principal, commandId);
        assert Apply(f, e).audit == f.audit + [Apply(f, e).audit[|f.audit|]];
      } else {
        RefusedStep(f, e.binding, e.command);
      }
    } else if e.OtherEntry? {
      FindAppends(f.audit, e.entry, principal, commandId);
    }
    hide Find, Fingerprint, Principal, Operation, CurrentRevision, Insertable, TargetError, PostWellFormed;
  }

  lemma AcceptedIsFound(f: Log, b: Binding, c: ForumCommand)
    requires Accepts(f, b, c)
    ensures var (g, answer) := Step(f, b, c);
            && answer.Ok? && !answer.value.retry
            && Find(g.audit, Principal(b), c.commandId)
            == Present(Entry(answer.value.audit, Principal(b), c.commandId, Operation(c), Fingerprint(b, c),
                             SubjectOf(c),
                             answer.value.subjectId, answer.value.revision))
  {
    var g := Step(f, b, c).0;
    FindAppends(f.audit, g.audit[|f.audit|], Principal(b), c.commandId);
    hide Find, Fingerprint, Principal, Operation, CurrentRevision, Insertable, TargetError, PostWellFormed;
  }

  /** Once accepted, a mutation asked again at any later time writes nothing and gets
      its own row, revision and audit id back; another one under the same identity
      conflicts, or is malformed, and writes nothing either. */
  lemma AcceptedOnce(f: Log, b: Binding, c: ForumCommand, events: seq<Event>, a: Binding, other: ForumCommand)
    requires Accepts(f, b, c) && IsRun(Step(f, b, c).0, events)
    requires Principal(a) == Principal(b) && other.commandId == c.commandId
    ensures var first := Step(f, b, c).1;
            var later := After(Step(f, b, c).0, events);
            var again := Step(later, a, other);
            && again.0 == later && first.Ok?
            && (a == b && other == c ==>
                  again.1 == Ok(Receipt(first.value.subjectId, first.value.revision, first.value.audit, true)))
            && (a != b || other != c ==>
                  again.1.Err? && (other.AppendPost? && PostWellFormed(other) ==> again.1.error == IdempotencyConflict)
                  && (!other.AppendPost? ==> again.1.error == IdempotencyConflict))
  {
    AcceptedIsFound(f, b, c);
    FindPersists(Step(f, b, c).0, events, Principal(b), c.commandId);
    FingerprintInjective(a, other, b, c);
    hide Find, Fingerprint, Principal, Operation, CurrentRevision, Insertable, TargetError, After, IsRun;
  }
}
