/** Reading the Forum page by page while others append, and asking twice. */
module ForumBrowse {
  import opened Basics
  import opened ForumCommands
  import opened Forum
  import opened Paging

  function Filter<T>(rows: seq<T>, keep: T -> bool): (kept: seq<T>) {
    if rows == [] then []
    else if keep(rows[0]) then [rows[0]] + Filter(rows[1..], keep)
    else Filter(rows[1..], keep)
  }

  lemma {:induction false} FilterSelects<T>(rows: seq<T>, keep: T -> bool)
    ensures forall x :: x in Filter(rows, keep) <==> x in rows && keep(x)
  {
    if rows != [] {
      FilterSelects(rows[1..], keep);
      assert rows == [rows[0]] + rows[1..];
    }
  }

  lemma FilteredFrom<T>(rows: seq<T>, keep: T -> bool)
    ensures forall j :: 0 <= j < |Filter(rows, keep)| ==>
              exists m :: 0 <= m < |rows| && rows[m] == Filter(rows, keep)[j]
  {
    FilterSelects(rows, keep);
    forall j | 0 <= j < |Filter(rows, keep)|
      ensures exists m :: 0 <= m < |rows| && rows[m] == Filter(rows, keep)[j]
    {
      assert Filter(rows, keep)[j] in Filter(rows, keep);
    }
  }

  lemma {:induction false} FilterAppends<T>(a: seq<T>, b: seq<T>, keep: T -> bool)
    ensures Filter(a + b, keep) == Filter(a, keep) + Filter(b, keep)
  {
    if a == [] {
      assert a + b == b;
    } else {
      FilterAppends(a[1..], b, keep);
      assert (a + b)[0] == a[0] && (a + b)[1..] == a[1..] + b;
      if keep(a[0]) {
        Associate([a[0]], Filter(a[1..], keep), Filter(b, keep));
      }
    }
  }

  lemma FilterGrows<T>(a: seq<T>, b: seq<T>, keep: T -> bool)
    requires a <= b
    ensures Filter(a, keep) <= Filter(b, keep)
  {
    assert b == a + b[|a|..];
    FilterAppends(a, b[|a|..], keep);
  }

  function PostId(p: Post): int { p.id }

  function ThreadId(t: Thread): int { t.id }

  function TopicId(t: Topic): int { t.id }

  predicate IdBefore(a: int, b: int) { a < b }

  /** `page_cursor`: empty when the page was short. */
  function PageCursor(length: nat, limit: nat, last: Option<nat>): string {
    if length == limit && last.Some? then Decimal(last.value) else ""
  }

  /** `parse_optional_id`: an empty cursor is no cursor; ids are positive. */
  function ParseCursor(value: string): Result<Option<int>, ()> {
    if value == "" then Ok(None)
    else
      match ParseDecimal(value)
      case None => Err(())
      case Some(n) => if 0 < n < TWO63 then Ok(Some(n)) else Err(())
  }

  /** A cursor on its way out and back in. */
  function Wire(id: int): Option<int> {
    if id < 0 then None
    else
      match ParseCursor(PageCursor(1, 1, Some(id)))
      case Ok(after) => after
      case Err(_) => None
  }

  lemma WireKeepsIds(id: RowId)
    ensures ParseCursor(PageCursor(1, 1, Some(id))) == Ok(Some(id)) && Wire(id) == Some(id)
  {
    ParseDecimalInvertsDecimal(id);
  }

  function ThreadPosts(f: Log, thread: int): seq<Post> { Filter(f.posts, (p: Post) => p.thread == thread) }

  function AllTopics(f: Log): seq<Topic> { f.topics }

  function TopicThreads(f: Log, topic: int): seq<Thread> { Filter(f.threads, (t: Thread) => t.topic == topic) }

  lemma {:induction false} FilterAscends<T>(rows: seq<T>, key: T -> int, keep: T -> bool)
    requires Ascending(rows, key, IdBefore)
    ensures Ascending(Filter(rows, keep), key, IdBefore)
  {
    if rows != [] {
      var rest := rows[1..];
      forall i, j | 0 <= i < j < |rest|
        ensures IdBefore(key(rest[i]), key(rest[j]))
      {
        assert rest[i] == rows[i + 1] && rest[j] == rows[j + 1];
      }
      FilterAscends(rest, key, keep);
      FilteredFrom(rest, keep);
      var kept := Filter(rest, keep);
      forall j | 0 <= j < |kept|
        ensures IdBefore(key(rows[0]), key(kept[j]))
      {
        var m :| 0 <= m < |rest| && rest[m] == kept[j];
        assert rows[m + 1] == kept[j];
      }
    }
  }

  lemma IdsAreOrdered()
    ensures StrictOrder(IdBefore)
  {
  }

  /** Successive states of one Forum. */
  ghost predicate History(logs: seq<Log>) {
    && (forall i :: 0 <= i < |logs| ==>
          Valid(logs[i]) && logs[i].nextPost <= TWO63 && logs[i].nextThread <= TWO63 && logs[i].nextTopic <= TWO63)
    && (forall i, j :: 0 <= i <= j < |logs| ==> Extends(logs[i], logs[j]))
  }

  /** The log as seen by one page request after each batch of other people's events. */
  function States(f: Log, batches: seq<seq<Event>>): (logs: seq<Log>)
    ensures |logs| == |batches|
    decreases |batches|
  {
    if batches == [] then [] else [After(f, batches[0])] + States(After(f, batches[0]), batches[1..])
  }

  predicate AreRuns(f: Log, batches: seq<seq<Event>>)
    decreases |batches|
  {
    batches == [] || (IsRun(f, batches[0]) && AreRuns(After(f, batches[0]), batches[1..]))
  }

  ghost predicate IdsFit(logs: seq<Log>) {
    forall i :: 0 <= i < |logs| ==> logs[i].nextPost <= TWO63 && logs[i].nextThread <= TWO63 && logs[i].nextTopic <= TWO63
  }

  /** However mutations, receipts of other stores and page requests interleave, the page
      requests see a history. */
  lemma {:induction false} RunsMakeHistory(f: Log, batches: seq<seq<Event>>)
    requires Valid(f) && AreRuns(f, batches) && IdsFit(States(f, batches))
    ensures History(States(f, batches))
    ensures forall i :: 0 <= i < |batches| ==> Extends(f, States(f, batches)[i])
    decreases |batches|
  {
    hide Valid, Extends, IsRun, After;
    if batches != [] {
      var g, logs := After(f, batches[0]), States(f, batches);
      RunKeepsValid(f, batches[0]);
      ExtendsItself(g);
      assert logs[0] == g && logs[1..] == States(g, batches[1..]);
      assert forall i :: 0 < i < |logs| ==> logs[i] == logs[1..][i - 1];
      assert IdsFit(logs[1..]);
      RunsMakeHistory(g, batches[1..]);
      forall i | 0 <= i < |batches|
        ensures Extends(g, logs[i]) && Extends(f, logs[i]) && Valid(logs[i])
      {
        ExtendsTransitive(f, g, logs[i]);
      }
      forall i, j | 0 <= i <= j < |logs|
        ensures Extends(logs[i], logs[j])
      {
        if i > 0 {
          assert Extends(logs[1..][i - 1], logs[1..][j - 1]);
        }
      }
    }
  }

  lemma ExtendsItself(f: Log)
    ensures Extends(f, f)
  {
  }

  /** What a browse reads in each state: rows with legal ids, ascending, only appended. */
  ghost predicate Browsable<T>(s: seq<seq<T>>, id: T -> int) {
    && Growing(s) && (forall i :: 0 <= i < |s| ==> Ascending(s[i], id, IdBefore))
    && (forall i, j :: 0 <= i < |s| && 0 <= j < |s[i]| ==> 0 < id(s[i][j]) < TWO63)
  }

  function Snapshots<T>(logs: seq<Log>, table: Log -> seq<T>): (s: seq<seq<T>>)
    ensures |s| == |logs| && forall i :: 0 <= i < |s| ==> s[i] == table(logs[i])
  {
    seq(|logs|, i requires 0 <= i < |logs| => table(logs[i]))
  }

  /** A reader who follows cursors to the empty one, one page per state of the log,
      holds exactly the rows of one of those states, in id order: all that were there at
      the start, none twice, whatever was appended meanwhile. Enough requests get there. */
  lemma BrowseIsComplete<T>(s: seq<seq<T>>, id: T -> int, limit: nat) returns (k: nat)
    requires Browsable(s, id) && s != [] && limit > 0
    ensures k < |s|
    ensures var got := Follow(s, id, IdBefore, Wire, None, limit);
            && (got.complete ==> got.rows == s[k] && s[0] <= got.rows)
            && (!got.complete ==> got.rows <= s[|s| - 1])
            && (|s| * limit > |s[|s| - 1]| ==> got.complete)
  {
    hide Follow, Wire, IdBefore, Ascending;
    forall i, j | 0 <= i < |s| && 0 <= j < |s[i]|
      ensures Wire(id(s[i][j])) == Some(id(s[i][j]))
    {
      WireKeepsIds(id(s[i][j]));
    }
    IdsAreOrdered();
    k := FollowCollectsSnapshot(s, id, IdBefore, Wire, 0, limit);
    assert s[k][0..] == s[k];
    assert s[0] <= s[k];
    PagesAreFull(s, id, IdBefore, Wire, None, limit);
  }

  lemma TopicsBrowse(logs: seq<Log>)
    requires History(logs)
    ensures Browsable(Snapshots(logs, AllTopics), TopicId)
  {
    var s := Snapshots(logs, AllTopics);
    forall i, j | 0 <= i <= j < |s|
      ensures s[i] <= s[j]
    {
      assert Extends(logs[i], logs[j]);
    }
    assert forall i :: 0 <= i < |logs| ==> TopicIdsAscend(logs[i]);
  }

  lemma ThreadsBrowse(logs: seq<Log>, topic: int)
    requires History(logs)
    ensures Browsable(Snapshots(logs, f => TopicThreads(f, topic)), ThreadId)
  {
    var s := Snapshots(logs, f => TopicThreads(f, topic));
    var keep := (t: Thread) => t.topic == topic;
    forall i, j | 0 <= i <= j < |s|
      ensures s[i] <= s[j]
    {
      assert Extends(logs[i], logs[j]);
      FilterGrows(logs[i].threads, logs[j].threads, keep);
    }
    forall i | 0 <= i < |s|
      ensures Ascending(s[i], ThreadId, IdBefore) && forall j :: 0 <= j < |s[i]| ==> 0 < ThreadId(s[i][j]) < TWO63
    {
      assert ThreadIdsAscend(logs[i]);
      FilterAscends(logs[i].threads, ThreadId, keep);
      FilteredFrom(logs[i].threads, keep);
    }
  }

  lemma PostsBrowse(logs: seq<Log>, thread: int)
    requires History(logs)
    ensures Browsable(Snapshots(logs, f => ThreadPosts(f, thread)), PostId)
  {
    var s := Snapshots(logs, f => ThreadPosts(f, thread));
    var keep := (p: Post) => p.thread == thread;
    forall i, j | 0 <= i <= j < |s|
      ensures s[i] <= s[j]
    {
      assert Extends(logs[i], logs[j]);
      FilterGrows(logs[i].posts, logs[j].posts, keep);
    }
    forall i | 0 <= i < |s|
      ensures Ascending(s[i], PostId, IdBefore) && forall j :: 0 <= j < |s[i]| ==> 0 < PostId(s[i][j]) < TWO63
    {
      assert PostIdsAscend(logs[i]);
      FilterAscends(logs[i].posts, PostId, keep);
      FilteredFrom(logs[i].posts, keep);
    }
  }

  /** `list_topics`: following cursors gives every topic of one state, once, in order. */
  lemma TopicListIsComplete(logs: seq<Log>, limit: nat) returns (k: nat)
    requires History(logs) && logs != [] && 1 <= limit <= 20
    ensures k < |logs|
    ensures var got := Follow(Snapshots(logs, AllTopics), TopicId, IdBefore, Wire, None, limit);
            && (got.complete ==> got.rows == logs[k].topics && logs[0].topics <= got.rows)
            && (!got.complete ==> got.rows <= logs[|logs| - 1].topics)
            && (|logs| * limit > |logs[|logs| - 1].topics| ==> got.complete)
  {
    hide Follow, Wire, Browsable, History;
    TopicsBrowse(logs);
    k := BrowseIsComplete(Snapshots(logs, AllTopics), TopicId, limit);
  }

  /** `list_threads`: the same for the threads of one topic. */
  lemma ThreadListIsComplete(logs: seq<Log>, topic: int, limit: nat) returns (k: nat)
    requires History(logs) && logs != [] && 1 <= limit <= 20
    ensures k < |logs|
    ensures var got := Follow(Snapshots(logs, f => TopicThreads(f, topic)), ThreadId, IdBefore, Wire, None, limit);
            && (got.complete ==> got.rows == TopicThreads(logs[k], topic) && TopicThreads(logs[0], topic) <= got.rows)
            && (!got.complete ==> got.rows <= TopicThreads(logs[|logs| - 1], topic))
            && (|logs| * limit > |TopicThreads(logs[|logs| - 1], topic)| ==> got.complete)
  {
    hide Follow, Wire, Browsable, History, TopicThreads;
    ThreadsBrowse(logs, topic);
    k := BrowseIsComplete(Snapshots(logs, f => TopicThreads(f, topic)), ThreadId, limit);
  }

  /** `read_thread`: the same for the posts of one thread. */
  lemma ThreadReadIsComplete(logs: seq<Log>, thread: int, limit: nat) returns (k: nat)
    requires History(logs) && logs != [] && 1 <= limit <= 20
    ensures k < |logs|
    ensures var got := Follow(Snapshots(logs, f => ThreadPosts(f, thread)), PostId, IdBefore, Wire, None, limit);
            && (got.complete ==> got.rows == ThreadPosts(logs[k], thread) && ThreadPosts(logs[0], thread) <= got.rows)
            && (!got.complete ==> got.rows <= ThreadPosts(logs[|logs| - 1], thread))
            && (|logs| * limit > |ThreadPosts(logs[|logs| - 1], thread)| ==> got.complete)
  {
    hide Follow, Wire, Browsable, History, ThreadPosts;
    PostsBrowse(logs, thread);
    k := BrowseIsComplete(Snapshots(logs, f => ThreadPosts(f, thread)), PostId, limit);
  }
}
