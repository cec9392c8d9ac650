/** Ranked search: the best match of each post, its page cursors, and what a client
    that follows them collects; and the snippet's byte bound. */
module ForumSearch {
  import opened Basics
  import opened Paging
  import Refs

  /** One row of the `matches` union: a post with the rank of its body (precedence 0),
      its thread's title (1) or its topic (2). Ranks are nonnegative finite floats,
      which compare as their bit patterns do. */
  datatype Match = Match(post: int, rank: nat, precedence: nat)
  datatype Key = Key(rank: nat, post: int)

  /** What the full-text index says about one post that passes the filters. */
  datatype Candidate = Candidate(post: int, body: Option<nat>, title: Option<nat>, topic: Option<nat>)

  function MatchOf(post: int, rank: Option<nat>, precedence: nat): seq<Match> {
    if rank.None? then [] else [Match(post, rank.value, precedence)]
  }

  function Matches(c: Candidate): seq<Match> {
    MatchOf(c.post, c.body, 0) + MatchOf(c.post, c.title, 1) + MatchOf(c.post, c.topic, 2)
  }

  /** The order inside `DISTINCT ON (post_id)`. */
  predicate Better(a: Match, b: Match) { a.rank > b.rank || (a.rank == b.rank && a.precedence < b.precedence) }

  function BestOf(ms: seq<Match>): (best: Match)
    requires ms != []
    ensures best in ms && forall m :: m in ms ==>
              m == best || Better(best, m) || (m.rank == best.rank && m.precedence == best.precedence)
  {
    if |ms| == 1 then ms[0]
    else
      var rest := BestOf(ms[1..]);
      if Better(rest, ms[0]) then rest else ms[0]
  }

  /** `ORDER BY rank DESC, post_id ASC` */
  predicate KeyBefore(a: Key, b: Key) { a.rank > b.rank || (a.rank == b.rank && a.post < b.post) }

  function HitKey(h: Match): Key { Key(h.rank, h.post) }

  function Best(cs: seq<Candidate>): seq<Match> {
    if cs == [] then []
    else
      var ms := Matches(cs[0]);
      var rest := Best(cs[1..]);
      if ms == [] then rest
      else
        var best := BestOf(ms);
        [best] + rest
  }

  function Insert(h: Match, sorted: seq<Match>): seq<Match> {
    if sorted == [] || KeyBefore(HitKey(h), HitKey(sorted[0])) then [h] + sorted
    else [sorted[0]] + Insert(h, sorted[1..])
  }

  function Sort(hits: seq<Match>): seq<Match> {
    if hits == [] then [] else Insert(hits[0], Sort(hits[1..]))
  }

  /** The unlimited query. */
  function Ranked(cs: seq<Candidate>): seq<Match> { Sort(Best(cs)) }

  predicate DistinctPosts(cs: seq<Candidate>) {
    forall i, j :: 0 <= i < j < |cs| ==> cs[i].post != cs[j].post
  }

  lemma {:induction false} InsertKeeps(h: Match, sorted: seq<Match>)
    ensures multiset(Insert(h, sorted)) == multiset(sorted) + multiset{h}
  {
    if sorted == [] || KeyBefore(HitKey(h), HitKey(sorted[0])) {
      assert [h] + sorted == [h] + sorted;
    } else {
      InsertKeeps(h, sorted[1..]);
      assert sorted == [sorted[0]] + sorted[1..];
    }
  }

  lemma {:induction false} SortKeeps(hits: seq<Match>)
    ensures multiset(Sort(hits)) == multiset(hits)
  {
    if hits != [] {
      SortKeeps(hits[1..]);
      InsertKeeps(hits[0], Sort(hits[1..]));
      assert hits == [hits[0]] + hits[1..];
    }
  }

  lemma MemberByMultiset(a: seq<Match>, b: seq<Match>, h: Match)
    requires multiset(a) == multiset(b)
    ensures h in a <==> h in b
  {
    assert h in a <==> h in multiset(a);
    assert h in b <==> h in multiset(b);
  }

  lemma {:induction false} InsertSorts(h: Match, sorted: seq<Match>)
    requires Ascending(sorted, HitKey, KeyBefore)
    requires forall i :: 0 <= i < |sorted| ==> sorted[i].post != h.post
    ensures Ascending(Insert(h, sorted), HitKey, KeyBefore)
  {
    if sorted == [] {
    } else if KeyBefore(HitKey(h), HitKey(sorted[0])) {
      forall j | 0 <= j < |sorted|
        ensures KeyBefore(HitKey(h), HitKey(sorted[j]))
      {
        assert j > 0 ==> KeyBefore(HitKey(sorted[0]), HitKey(sorted[j]));
      }
    } else {
      var rest := sorted[1..];
      assert Ascending(rest, HitKey, KeyBefore) by {
        forall i, j | 0 <= i < j < |rest|
          ensures KeyBefore(HitKey(rest[i]), HitKey(rest[j]))
        {
          assert rest[i] == sorted[i + 1] && rest[j] == sorted[j + 1];
        }
      }
      InsertSorts(h, rest);
      var tail := Insert(h, rest);
      InsertKeeps(h, rest);
      forall j | 0 <= j < |tail|
        ensures KeyBefore(HitKey(sorted[0]), HitKey(tail[j]))
      {
        assert tail[j] in multiset(tail);
        if tail[j] != h {
          assert tail[j] in multiset(rest);
          var m :| 0 <= m < |rest| && rest[m] == tail[j];
          assert sorted[m + 1] == tail[j];
        }
      }
    }
  }

  lemma {:induction false} BestPosts(cs: seq<Candidate>)
    ensures forall h :: h in Best(cs) ==> exists i :: 0 <= i < |cs| && cs[i].post == h.post
  {
    if cs != [] {
      BestPosts(cs[1..]);
      forall h | h in Best(cs)
        ensures exists i :: 0 <= i < |cs| && cs[i].post == h.post
      {
        if h in Best(cs[1..]) {
          var i :| 0 <= i < |cs[1..]| && cs[1..][i].post == h.post;
          assert cs[i + 1].post == h.post;
        } else {
          assert cs[0].post == h.post;
        }
      }
    }
  }

  lemma {:induction false} BestIsDistinct(cs: seq<Candidate>)
    requires DistinctPosts(cs)
    ensures forall i, j :: 0 <= i < j < |Best(cs)| ==> Best(cs)[i].post != Best(cs)[j].post
  {
    if cs != [] {
      var rest := cs[1..];
      assert forall i :: 0 <= i < |rest| ==> rest[i] == cs[i + 1];
      BestIsDistinct(rest);
      BestPosts(rest);
      forall j | 0 <= j < |Best(rest)|
        ensures Best(rest)[j].post != cs[0].post
      {
        var i :| 0 <= i < |rest| && rest[i].post == Best(rest)[j].post;
        assert cs[i + 1].post != cs[0].post;
      }
    }
  }

  lemma {:induction false} SortSorts(hits: seq<Match>)
    requires forall i, j :: 0 <= i < j < |hits| ==> hits[i].post != hits[j].post
    ensures Ascending(Sort(hits), HitKey, KeyBefore)
  {
    if hits != [] {
      var rest := hits[1..];
      assert forall i :: 0 <= i < |rest| ==> rest[i] == hits[i + 1];
      SortSorts(rest);
      SortKeeps(rest);
      forall i | 0 <= i < |Sort(rest)|
        ensures Sort(rest)[i].post != hits[0].post
      {
        MemberByMultiset(Sort(rest), rest, Sort(rest)[i]);
        var m :| 0 <= m < |rest| && rest[m] == Sort(rest)[i];
        assert hits[m + 1] == Sort(rest)[i];
      }
      InsertSorts(hits[0], Sort(rest));
    }
  }

  /** The unlimited query lists each matching post once, with its best match, in the
      order of rank descending and post id ascending. */
  lemma RankedIsRight(cs: seq<Candidate>)
    requires DistinctPosts(cs)
    ensures Ascending(Ranked(cs), HitKey, KeyBefore)
    ensures forall i, j :: 0 <= i < j < |Ranked(cs)| ==> Ranked(cs)[i].post != Ranked(cs)[j].post
    ensures forall h :: h in Ranked(cs) <==> exists i :: 0 <= i < |cs| && IsBestOf(cs[i], h)
  {
    BestIsDistinct(cs);
    SortSorts(Best(cs));
    SortKeeps(Best(cs));
    BestMembers(cs);
    forall h
      ensures h in Ranked(cs) <==> exists i :: 0 <= i < |cs| && IsBestOf(cs[i], h)
    {
      MemberByMultiset(Ranked(cs), Best(cs), h);
    }
    forall i, j | 0 <= i < j < |Ranked(cs)|
      ensures Ranked(cs)[i].post != Ranked(cs)[j].post
    {
      SortedPostsDiffer(cs, i, j);
    }
  }

  predicate IsBestOf(c: Candidate, h: Match) {
    Matches(c) != [] && h == BestOf(Matches(c))
  }

  lemma {:induction false} BestMembers(cs: seq<Candidate>)
    ensures forall h :: h in Best(cs) <==> exists i :: 0 <= i < |cs| && IsBestOf(cs[i], h)
  {
    if cs != [] {
      var rest := cs[1..];
      assert forall i :: 0 <= i < |rest| ==> rest[i] == cs[i + 1];
      BestMembers(rest);
      forall h
        ensures h in Best(cs) <==> exists i :: 0 <= i < |cs| && IsBestOf(cs[i], h)
      {
        if h in Best(rest) {
          var i :| 0 <= i < |rest| && IsBestOf(rest[i], h);
          assert IsBestOf(cs[i + 1], h);
        }
        if i :| 0 <= i < |cs| && IsBestOf(cs[i], h) {
          if i > 0 { assert IsBestOf(rest[i - 1], h); }
        }
      }
    }
  }

  /** Two places of the ranked list never hold one post: its one hit occurs once. */
  lemma SortedPostsDiffer(cs: seq<Candidate>, i: int, j: int)
    requires DistinctPosts(cs) && 0 <= i < j < |Ranked(cs)| && Ascending(Ranked(cs), HitKey, KeyBefore)
    ensures Ranked(cs)[i].post != Ranked(cs)[j].post
  {
    hide Best, Sort, DistinctPosts;
    var s, t := Ranked(cs)[i], Ranked(cs)[j];
    SortKeeps(Best(cs));
    MemberByMultiset(Ranked(cs), Best(cs), s);
    MemberByMultiset(Ranked(cs), Best(cs), t);
    BestIsDistinct(cs);
    assert KeyBefore(HitKey(s), HitKey(t));
    var a :| 0 <= a < |Best(cs)| && Best(cs)[a] == s;
    var b :| 0 <= b < |Best(cs)| && Best(cs)[b] == t;
  }

  // ---------------------------------------------------------------- cursors

  /** Bit patterns of the finite nonnegative single-precision floats. */
  predicate IsRankBits(bits: nat) { bits < 0x7f80_0000 }

  function HexChar(d: nat): char
    requires d < 16
  {
    if d < 10 then ('0' as int + d) as char else ('a' as int + d - 10) as char
  }

  function HexValue(c: char): Option<nat> {
    if '0' <= c <= '9' then Some(c as int - '0' as int)
    else if 'a' <= c <= 'f' then Some(c as int - 'a' as int + 10)
    else if 'A' <= c <= 'F' then Some(c as int - 'A' as int + 10)
    else None
  }

  /** `{:0kx}` of a number below 16 to the k. */
  function Hex(n: nat, k: nat): (s: string)
    ensures |s| == k
  {
    if k == 0 then "" else Hex(n / 16, k - 1) + [HexChar(n % 16)]
  }

  function ParseHex(s: string): Option<nat> {
    if s == "" then Some(0)
    else
      match ParseHex(s[..|s| - 1])
      case None => None
      case Some(v) => (match HexValue(s[|s| - 1]) case None => None case Some(d) => Some(16 * v + d))
  }

  function Pow16(k: nat): nat { if k == 0 then 1 else 16 * Pow16(k - 1) }

  lemma {:induction false} ParseHexInvertsHex(n: nat, k: nat)
    requires n < Pow16(k)
    ensures ParseHex(Hex(n, k)) == Some(n)
  {
    if k > 0 {
      ParseHexInvertsHex(n / 16, k - 1);
      assert Hex(n, k)[..k - 1] == Hex(n / 16, k - 1);
    }
  }

  lemma {:induction false} HexHasNoDot(n: nat, k: nat)
    ensures forall i :: 0 <= i < k ==> Hex(n, k)[i] != '.'
  {
    if k > 0 {
      HexHasNoDot(n / 16, k - 1);
    }
  }

  /** `ForumSearchCursor::encode` */
  function EncodeCursor(k: Key): string
    requires k.post >= 0
  {
    Hex(k.rank, 8) + ("." + Decimal(k.post))
  }

  /** The first `.` of a text, or its length. */
  function FirstDot(s: string): (i: nat)
    ensures i <= |s| && (i < |s| ==> s[i] == '.') && forall j :: 0 <= j < i ==> s[j] != '.'
  {
    if s == "" || s[0] == '.' then 0 else 1 + FirstDot(s[1..])
  }

  /** `ForumSearchCursor::decode` */
  function DecodeCursor(value: string): Option<Key> {
    var i := FirstDot(value);
    if value == "" || |value| > 512 || i == |value| || i != 8 then None
    else
      match ParseHex(value[..i])
      case None => None
      case Some(bits) =>
        if !IsRankBits(bits) then None
        else
          match ParseDecimal(value[i + 1..])
          case None => None
          case Some(post) => if 0 < post < TWO63 then Some(Key(bits, post)) else None
  }

  lemma CursorRoundTrip(rank: nat, post: RowId)
    requires IsRankBits(rank)
    ensures DecodeCursor(EncodeCursor(Key(rank, post))) == Some(Key(rank, post))
  {
    var value := EncodeCursor(Key(rank, post));
    HexHasNoDot(rank, 8);
    assert Pow16(8) == 0x1_0000_0000 by { assert Pow16(4) == 0x1_0000; assert Pow16(6) == 256 * Pow16(4); }
    ParseHexInvertsHex(rank, 8);
    ParseDecimalInvertsDecimal(post);
    Refs.RowIdLength(post);
    assert value[..8] == Hex(rank, 8) && value[8] == '.' && value[9..] == Decimal(post);
    assert forall j :: 0 <= j < 8 ==> value[j] == value[..8][j];
  }

  function WireKey(k: Key): Option<Key> { if k.post < 0 then None else DecodeCursor(EncodeCursor(k)) }

  predicate Indexed(cs: seq<Candidate>) {
    forall i :: 0 <= i < |cs| ==> 0 < cs[i].post < TWO63 && RankOk(cs[i].body) && RankOk(cs[i].title) && RankOk(cs[i].topic)
  }

  predicate RankOk(rank: Option<nat>) { rank.Some? ==> IsRankBits(rank.value) }

  lemma RankedHit(cs: seq<Candidate>, hit: Match)
    requires DistinctPosts(cs) && Indexed(cs) && hit in Ranked(cs)
    ensures IsRankBits(hit.rank) && 0 < hit.post < TWO63
  {
    hide Ranked;
    RankedIsRight(cs);
    var m :| 0 <= m < |cs| && IsBestOf(cs[m], hit);
    assert BestOf(Matches(cs[m])) in Matches(cs[m]);
  }

  lemma KeysAreOrdered()
    ensures StrictOrder(KeyBefore)
  {
  }

  lemma RankedCursorsRoundTrip(cs: seq<Candidate>, i: nat)
    requires DistinctPosts(cs) && Indexed(cs) && i < |Ranked(cs)|
    ensures WireKey(HitKey(Ranked(cs)[i])) == Some(HitKey(Ranked(cs)[i]))
  {
    hide Ranked, IsBestOf;
    var hit := Ranked(cs)[i];
    RankedHit(cs, hit);
    CursorRoundTrip(hit.rank, hit.post);
  }

  /** Following cursors over a fixed corpus gives, page by page, the whole ranked list:
      every matching post exactly once, at its best match, in the full order. */
  lemma SearchPagesAreRanked(cs: seq<Candidate>, limit: nat, requests: nat)
    requires DistinctPosts(cs) && Indexed(cs) && 1 <= limit <= 20 && requests > 0
    ensures var got := Follow(seq(requests, _ => Ranked(cs)), HitKey, KeyBefore, WireKey, None, limit);
            && (got.complete ==> got.rows == Ranked(cs)) && got.rows <= Ranked(cs)
            && (requests * limit > |Ranked(cs)| ==> got.complete)
  {
    hide Follow, Ranked, WireKey, Indexed, DistinctPosts, HitKey, KeyBefore;
    var all := Ranked(cs);
    var s := seq(requests, _ => all);
    RankedIsRight(cs);
    forall i, j | 0 <= i < |s| && 0 <= j < |s[i]|
      ensures WireKey(HitKey(s[i][j])) == Some(HitKey(s[i][j]))
    {
      RankedCursorsRoundTrip(cs, j);
    }
    KeysAreOrdered();
    var k := FollowCollectsSnapshot(s, HitKey, KeyBefore, WireKey, 0, limit);
    assert s[k][0..] == all;
    PagesAreFull(s, HitKey, KeyBefore, WireKey, None, limit);
  }

  // ---------------------------------------------------------------- snippets

  predicate IsContinuation(c: char) { 0x80 <= c as int < 0xC0 }

  /** Bytes in the sequence a lead byte starts; zero if it starts none. */
  function Width(lead: char): nat {
    var b := lead as int;
    if b < 0x80 then 1 else if 0xC2 <= b < 0xE0 then 2 else if 0xE0 <= b < 0xF0 then 3 else if 0xF0 <= b < 0xF5 then 4 else 0
  }

  /** Well-formed as far as sequence lengths go (the narrower second-byte ranges that
      exclude overlong forms and surrogates do not matter for where to cut). */
  predicate IsUtf8(s: string) {
    s == "" ||
    (var n := Width(s[0]);
     1 <= n <= |s| && (forall i :: 1 <= i < n ==> IsContinuation(s[i])) && IsUtf8(s[n..]))
  }

  /** `str::is_char_boundary` */
  predicate IsBoundary(s: string, i: nat)
    requires i <= |s|
  {
    i == 0 || i == |s| || !IsContinuation(s[i])
  }

  lemma {:induction false} CutAtBoundary(s: string, i: nat)
    requires IsUtf8(s) && i <= |s| && IsBoundary(s, i)
    ensures IsUtf8(s[..i])
    decreases |s|
  {
    if i > 0 && i < |s| {
      var n := Width(s[0]);
      assert i >= n;
      assert i > n ==> s[n..][i - n] == s[i];
      CutAtBoundary(s[n..], i - n);
      assert s[..i][n..] == s[n..][..i - n];
    } else if i == |s| {
      assert s[..i] == s;
    }
  }

  /** Of any four consecutive positions of a text, one is a boundary. */
  lemma {:induction false} BoundaryNearby(s: string, i: nat)
    requires IsUtf8(s) && i <= |s|
    ensures exists j :: 0 <= j <= i && i < j + 4 && IsBoundary(s, j)
    decreases |s|
  {
    if s == "" || i == 0 {
      assert IsBoundary(s, 0);
    } else {
      var n := Width(s[0]);
      if i < n {
        assert IsBoundary(s, 0);
      } else {
        BoundaryNearby(s[n..], i - n);
        var j :| 0 <= j <= i - n && i - n < j + 4 && IsBoundary(s[n..], j);
        assert IsBoundary(s, j + n) by {
          if j < |s[n..]| { assert s[n..][j] == s[j + n]; LeadIsNoContinuation(s[n..]); }
        }
      }
    }
  }

  lemma LeadIsNoContinuation(s: string)
    requires IsUtf8(s) && s != ""
    ensures !IsContinuation(s[0])
  {
  }

  /** `truncate_utf8`: within the bound, still well formed, and at most three bytes short of it. */
  method TruncateUtf8(value: string, maximum: nat) returns (cut: string)
    requires IsUtf8(value)
    ensures cut <= value && |cut| <= maximum && IsUtf8(cut)
    ensures |value| <= maximum ==> cut == value
    ensures |value| > maximum ==> |cut| + 4 > maximum && forall j :: |cut| < j <= maximum ==> !IsBoundary(value, j)
  {
    if |value| <= maximum { return value; }
    var end := maximum;
    while end > 0 && !IsBoundary(value, end)
      invariant 0 <= end <= maximum < |value|
      invariant forall j :: end < j <= maximum ==> !IsBoundary(value, j)
    {
      end := end - 1;
    }
    CutAtBoundary(value, end);
    BoundaryNearby(value, maximum);
    cut := value[..end];
  }
}
