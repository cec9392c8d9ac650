/** Commit messages: how custody writes a candidate's message, refuses one that
    already names a cost, and appends and finds the Factory-Cost trailer. */
module Messages {
  import opened Basics

  /** `str::contains` */
  predicate Contains(s: string, part: string) {
    exists i :: 0 <= i <= |s| - |part| && OccursAt(s, part, i)
  }

  predicate OccursAt(s: string, part: string, i: int) {
    0 <= i <= |s| - |part| && s[i..i + |part|] == part
  }

  predicate NoNewline(s: string) { forall i :: 0 <= i < |s| ==> s[i] != '\n' }

  /** `s[i..j]` is one of `s.lines()`, before its carriage return is dropped. */
  predicate LineSpan(s: string, i: int, j: int) {
    && 0 <= i <= j <= |s| && (i == 0 || s[i - 1] == '\n') && (j == |s| || s[j] == '\n')
    && forall x :: i <= x < j ==> s[x] != '\n'
  }

  /** `lines()` strips a carriage return only in front of a line feed. */
  function LineText(s: string, i: int, j: int): string
    requires 0 <= i <= j <= |s|
  {
    if i < j < |s| && s[j - 1] == '\r' then s[i..j - 1] else s[i..j]
  }

  /** `message.lines().any(|line| line == text)` for a nonempty text. */
  predicate HasLine(s: string, text: string) {
    exists i: int, j: int :: 0 <= i <= |s| && 0 <= j <= |s| && LineSpan(s, i, j) && LineText(s, i, j) == text
  }

  // ----------------------------------------------------------------- trailer

  /** `{:0k}` of a number that fits in `k` digits. */
  function Padded(n: nat, k: nat): (s: string)
    ensures |s| == k && forall i :: 0 <= i < k ==> IsDigit(s[i])
  {
    if k == 0 then "" else Padded(n / 10, k - 1) + [DigitChar(n % 10)]
  }

  lemma {:induction false} PaddedInjective(m: nat, n: nat, k: nat)
    requires m < Pow10(k) && n < Pow10(k) && Padded(m, k) == Padded(n, k)
    ensures m == n
  {
    if k > 0 {
      AppendInjective(Padded(m / 10, k - 1), [DigitChar(m % 10)], Padded(n / 10, k - 1), [DigitChar(n % 10)]);
      assert [DigitChar(m % 10)][0] == [DigitChar(n % 10)][0];
      PaddedInjective(m / 10, n / 10, k - 1);
    }
  }

  const COST_KEY := "Factory-Cost:"

  /** `factory_cost_trailer` */
  function Trailer(cost: nat): string {
    COST_KEY + (" $" + (Decimal(cost / 1_000_000) + ("." + Padded(cost % 1_000_000, 6))))
  }

  lemma TrailerInjective(m: nat, n: nat)
    requires Trailer(m) == Trailer(n)
    ensures m == n
  {
    var a, b := "." + Padded(m % 1_000_000, 6), "." + Padded(n % 1_000_000, 6);
    var x, y := Decimal(m / 1_000_000) + a, Decimal(n / 1_000_000) + b;
    AppendInjective(COST_KEY, " $" + x, COST_KEY, " $" + y);
    AppendInjective(" $", x, " $", y);
    DecimalThenStop(m / 1_000_000, a, n / 1_000_000, b);
    AppendInjective(".", Padded(m % 1_000_000, 6), ".", Padded(n % 1_000_000, 6));
    assert Pow10(6) == 1_000_000;
    PaddedInjective(m % 1_000_000, n % 1_000_000, 6);
  }

  lemma TrailerIsOneLine(cost: nat)
    ensures NoNewline(Trailer(cost)) && Trailer(cost)[|Trailer(cost)| - 1] != '\r'
            && OccursAt(Trailer(cost), COST_KEY, 0)
  {
  }

  /** `trim_end_matches('\n')` */
  function TrimNewlines(s: string): (t: string)
    ensures |t| <= |s| && t == s[..|t|]
    ensures t == "" || t[|t| - 1] != '\n'
  {
    if s != "" && s[|s| - 1] == '\n' then TrimNewlines(s[..|s| - 1]) else s
  }

  /** `append_factory_cost_trailer` */
  function AppendTrailer(message: string, cost: nat): string {
    TrimNewlines(message) + ("\n" + (Trailer(cost) + "\n"))
  }

  /** The key at the start of a line that is not the first. */
  predicate NamesCost(message: string) { Contains(message, "\n" + COST_KEY) }

  // -------------------------------------------------- finding a cost again

  predicate FirstLineIs(s: string, text: string) {
    exists j: int :: 0 <= j < |s| && LineSpan(s, 0, j) && LineText(s, 0, j) == text
  }

  /** The message of the delivery commit as Git reads it back. */
  function Delivered(message: string, cost: nat): string { AppendTrailer(message, cost) + "\n" }

  lemma DeliveredLayout(message: string, cost: nat)
    ensures var t, r := TrimNewlines(message), Delivered(message, cost);
            && |r| == |t| + |Trailer(cost)| + 3 && r[..|t|] == t && r[|t|] == '\n'
            && r[|t| + 1..|t| + 1 + |Trailer(cost)|] == Trailer(cost)
            && r[|t| + 1 + |Trailer(cost)|] == '\n' && r[|t| + 2 + |Trailer(cost)|] == '\n'
  {
    var t, r := TrimNewlines(message), Delivered(message, cost);
    assert r == t + ("\n" + (Trailer(cost) + "\n")) + "\n";
  }

  lemma OwnTrailerIsFound(message: string, cost: nat)
    ensures HasLine(Delivered(message, cost), Trailer(cost))
  {
    var t, r := TrimNewlines(message), Delivered(message, cost);
    DeliveredLayout(message, cost);
    TrailerIsOneLine(cost);
    var i, j := |t| + 1, |t| + 1 + |Trailer(cost)|;
    forall x | i <= x < j
      ensures r[x] != '\n'
    {
      assert r[x] == r[i..j][x - i];
    }
    assert r[j - 1] == r[i..j][j - 1 - i];
    assert LineSpan(r, i, j) && LineText(r, i, j) == Trailer(cost);
  }

  lemma TrimOnlyNewlines(s: string)
    ensures var t := TrimNewlines(s); |t| <= |s| && s[..|t|] == t && forall x :: |t| <= x < |s| ==> s[x] == '\n'
    ensures s != "" && s[|s| - 1] == '\n' ==> |TrimNewlines(s)| < |s|
  {
  }

  /** The first lines of a message and of its delivery message are the same. */
  lemma FirstLineKept(message: string, cost: nat, text: string)
    requires message != "" && message[|message| - 1] == '\n' && text != ""
    ensures FirstLineIs(Delivered(message, cost), text) <==> FirstLineIs(message, text)
  {
    hide TrimNewlines, Delivered, FirstLineIs, Trailer;
    var t, r := TrimNewlines(message), Delivered(message, cost);
    DeliveredLayout(message, cost);
    TrimOnlyNewlines(message);
    FirstLineAgrees(message, r, |t|, text);
    FirstLineAgrees(r, message, |t|, text);
  }

  /** Strings that agree up to a line feed have the same first line. */
  lemma FirstLineAgrees(s: string, r: string, n: nat, text: string)
    requires n < |s| && n < |r| && s[..n] == r[..n] && s[n] == '\n' && r[n] == '\n'
    ensures FirstLineIs(s, text) ==> FirstLineIs(r, text)
  {
    if j: int :| 0 <= j < |s| && LineSpan(s, 0, j) && LineText(s, 0, j) == text {
      assert j <= n;
      assert forall x :: 0 <= x < n ==> s[x] == s[..n][x] && r[x] == r[..n][x];
      assert LineSpan(r, 0, j) && r[..j] == s[..j];
      assert 0 < j ==> r[..j - 1] == s[..j - 1];
      assert LineText(r, 0, j) == text;
    }
  }

  lemma KeyStartsText(s: string, i: int, j: int, cost: nat)
    requires 0 <= i <= j <= |s| && LineText(s, i, j) == Trailer(cost)
    ensures i + |COST_KEY| <= j && s[i..i + |COST_KEY|] == COST_KEY
  {
    var text := LineText(s, i, j);
    assert text[..|COST_KEY|] == COST_KEY;
    assert s[i..i + |COST_KEY|] == text[..|COST_KEY|];
  }

  lemma KeyInBody(message: string, r: string, n: nat, i: int)
    requires n <= |message| && n <= |r| && r[..n] == message[..n]
    requires 0 < i && i + |COST_KEY| <= n && r[i - 1] == '\n' && r[i..i + |COST_KEY|] == COST_KEY
    ensures NamesCost(message)
  {
    var part := "\n" + COST_KEY;
    assert r[i - 1..i + |COST_KEY|] == r[..n][i - 1..i + |COST_KEY|];
    assert message[i - 1..i + |COST_KEY|] == message[..n][i - 1..i + |COST_KEY|];
    assert r[i - 1..i + |COST_KEY|] == [r[i - 1]] + r[i..i + |COST_KEY|];
    assert OccursAt(message, part, i - 1);
  }

  lemma LineAtTrailer(r: string, i: int, j: int, trailer: string)
    requires LineSpan(r, i, j) && i + |trailer| < |r| && r[i..i + |trailer|] == trailer && r[i + |trailer|] == '\n'
    requires NoNewline(trailer) && trailer != "" && trailer[|trailer| - 1] != '\r'
    ensures LineText(r, i, j) == trailer
  {
    assert forall x :: i <= x < i + |trailer| ==> r[x] == r[i..i + |trailer|][x - i];
    assert j == i + |trailer|;
  }

  lemma NoLineBreakInside(r: string, start: int, trailer: string, i: int)
    requires 0 <= start && start + |trailer| <= |r| && r[start..start + |trailer|] == trailer && NoNewline(trailer)
    requires 0 < i <= |r| && r[i - 1] == '\n' && start < i
    ensures i > start + |trailer|
  {
    assert forall x :: start <= x < start + |trailer| ==> r[x] == r[start..start + |trailer|][x - start];
  }

  /** A later line of the delivery message that shows a cost is the appended trailer. */
  lemma LaterLineIsOwn(message: string, cost: nat, other: nat, i: int, j: int)
    requires !NamesCost(message) && 0 < i
    requires var r := Delivered(message, cost); LineSpan(r, i, j) && LineText(r, i, j) == Trailer(other)
    ensures other == cost
  {
    var t, r := TrimNewlines(message), Delivered(message, cost);
    DeliveredLayout(message, cost);
    TrailerIsOneLine(cost);
    KeyStartsText(r, i, j, other);
    hide Trailer, Delivered, TrimNewlines, NamesCost;
    if i <= |t| {
      assert j <= |t|;
      KeyInBody(message, r, |t|, i);
    } else if i == |t| + 1 {
      LineAtTrailer(r, i, j, Trailer(cost));
      TrailerInjective(cost, other);
    } else {
      NoLineBreakInside(r, |t| + 1, Trailer(cost), i);
    }
  }

  /** Which costs a delivery message shows: the one appended to it, and whatever
      the subject line happens to say. */
  lemma ShownCosts(message: string, cost: nat, other: nat)
    requires message != "" && message[|message| - 1] == '\n' && !NamesCost(message)
    ensures HasLine(Delivered(message, cost), Trailer(other)) <==> other == cost || FirstLineIs(message, Trailer(other))
  {
    var r := Delivered(message, cost);
    OwnTrailerIsFound(message, cost);
    FirstLineKept(message, cost, Trailer(other));
    DeliveredLayout(message, cost);
    if HasLine(r, Trailer(other)) {
      var i: int, j: int :| 0 <= i <= |r| && 0 <= j <= |r| && LineSpan(r, i, j) && LineText(r, i, j) == Trailer(other);
      if i > 0 {
        LaterLineIsOwn(message, cost, other, i, j);
      } else {
        assert j < |r| by { assert r[|TrimNewlines(message)|] == '\n'; }
        assert FirstLineIs(r, Trailer(other));
      }
    }
  }

  // --------------------------------------------------- candidate messages

  predicate LineStartAt(s: string, key: string, i: int) {
    0 <= i <= |s| - |key| && (i == 0 || s[i - 1] == '\n') && s[i..i + |key|] == key
  }

  predicate StartsLine(s: string, key: string) {
    exists i :: 0 <= i <= |s| - |key| && LineStartAt(s, key, i)
  }

  lemma LineStartInPart(whole: string, part: string, offset: int, key: string, i: int)
    requires 0 <= offset && offset + |part| <= |whole| && whole[offset..offset + |part|] == part
    requires offset <= i && i + |key| <= offset + |part|
    requires i == offset ==> (offset == 0 || whole[offset - 1] == '\n')
    ensures LineStartAt(whole, key, i) <==> LineStartAt(part, key, i - offset)
  {
    assert forall x :: offset <= x < offset + |part| ==> whole[x] == whole[offset..offset + |part|][x - offset];
    assert whole[i..i + |key|] == part[i - offset..i - offset + |key|];
    if i > offset {
      assert whole[i - 1] == part[i - 1 - offset];
    }
  }

  lemma PartStartsLine(whole: string, part: string, offset: int, key: string)
    requires 0 <= offset && offset + |part| <= |whole| && whole[offset..offset + |part|] == part
    requires offset == 0 || whole[offset - 1] == '\n'
    ensures StartsLine(part, key) ==> StartsLine(whole, key)
  {
    hide LineStartAt;
    if StartsLine(part, key) {
      var i :| 0 <= i <= |part| - |key| && LineStartAt(part, key, i);
      LineStartInPart(whole, part, offset, key, i + offset);
    }
  }

  /** A key without a line feed does not run across one. */
  lemma LineStartOnOneSide(s: string, n: nat, key: string, i: int)
    requires NoNewline(key) && n < |s| && s[n] == '\n' && LineStartAt(s, key, i)
    ensures i + |key| <= n || i > n || key == ""
  {
    assert forall x :: i <= x < i + |key| ==> s[x] == s[i..i + |key|][x - i];
  }

  /** A key without a line feed starts a line of `a\nb` exactly when it starts one of `a` or `b`. */
  lemma StartsLineSplits(a: string, b: string, key: string)
    requires NoNewline(key) && key != ""
    ensures StartsLine(a + ("\n" + b), key) <==> StartsLine(a, key) || StartsLine(b, key)
  {
    hide LineStartAt, NoNewline;
    var s := a + ("\n" + b);
    assert s[0..0 + |a|] == a && s[|a| + 1..|a| + 1 + |b|] == b && s[|a|] == '\n';
    PartStartsLine(s, a, 0, key);
    PartStartsLine(s, b, |a| + 1, key);
    if StartsLine(s, key) {
      var i :| 0 <= i <= |s| - |key| && LineStartAt(s, key, i);
      LineStartOnOneSide(s, |a|, key, i);
      if i > |a| {
        LineStartInPart(s, b, |a| + 1, key, i);
      } else {
        LineStartInPart(s, a, 0, key, i);
      }
    }
  }

  lemma OccursAfterBreak(s: string, key: string, i: int)
    requires key != "" && 0 <= i
    ensures OccursAt(s, "\n" + key, i) <==> i + 1 + |key| <= |s| && s[i] == '\n' && s[i + 1..i + 1 + |key|] == key
  {
    var part := "\n" + key;
    if i + |part| <= |s| {
      assert s[i..i + |part|] == [s[i]] + s[i + 1..i + 1 + |key|];
      if s[i..i + |part|] == part {
        AppendInjective([s[i]], s[i + 1..i + 1 + |key|], "\n", key);
      }
    }
  }

  lemma BreakIsAfter(first: string, rest: string, i: int)
    requires NoNewline(first) && 0 <= i < |first + ("\n" + rest)| && (first + ("\n" + rest))[i] == '\n'
    ensures i >= |first|
  {
  }

  lemma RestIsSlice(first: string, rest: string)
    ensures var s := first + ("\n" + rest);
            s[|first| + 1..|first| + 1 + |rest|] == rest && s[|first|] == '\n' && |s| == |first| + 1 + |rest|
  {
  }

  lemma StartsLaterLine(first: string, rest: string, key: string)
    requires NoNewline(first) && NoNewline(key) && key != ""
    ensures Contains(first + ("\n" + rest), "\n" + key) <==> StartsLine(rest, key)
  {
    var s, part := first + ("\n" + rest), "\n" + key;
    RestIsSlice(first, rest);
    hide NoNewline, OccursAt, LineStartAt;
    if Contains(s, part) {
      var i :| 0 <= i <= |s| - |part| && OccursAt(s, part, i);
      OccursAfterBreak(s, key, i);
      BreakIsAfter(first, rest, i);
      FoundAfterBreak(s, rest, |first| + 1, key, i + 1);
    }
    if StartsLine(rest, key) {
      var i :| 0 <= i <= |rest| - |key| && LineStartAt(rest, key, i);
      LineStartInPart(s, rest, |first| + 1, key, i + |first| + 1);
      StartIsFound(s, key, i + |first| + 1);
    }
  }

  lemma FoundAfterBreak(s: string, rest: string, offset: int, key: string, i: int)
    requires 0 < offset <= i && offset + |rest| == |s| && s[offset..offset + |rest|] == rest && s[offset - 1] == '\n'
    requires i + |key| <= |s| && s[i - 1] == '\n' && s[i..i + |key|] == key
    ensures StartsLine(rest, key)
  {
    LineStartInPart(s, rest, offset, key, i);
  }

  lemma StartIsFound(s: string, key: string, i: int)
    requires 0 < i && key != "" && LineStartAt(s, key, i)
    ensures Contains(s, "\n" + key)
  {
    OccursAfterBreak(s, key, i - 1);
    assert OccursAt(s, "\n" + key, i - 1);
  }

  const PROVENANCE_KEYS: seq<string> := [
    "Factory-Campaign: ", "Factory-Ticket: ", "Factory-Ticket-Revision-Digest: ", "Factory-Kernel-Build: ",
    "Factory-Application-Revision: ", "Factory-Base: ", "Factory-Regression-Tree: ", "Factory-Candidate-Tree: ",
    "Factory-Patch-BLAKE3: ", "Factory-Engineering-Session-BLAKE3: ", "Factory-Validation: "]

  function Provenance(keys: seq<string>, values: seq<string>): string
    requires |keys| == |values|
  {
    if keys == [] then "" else (keys[0] + values[0]) + ("\n" + Provenance(keys[1..], values[1..]))
  }

  /** `commit_message` over an already normalised subject and body. */
  function CandidateMessage(subject: string, body: string, values: seq<string>): string
    requires |values| == |PROVENANCE_KEYS|
  {
    subject + ("\n" + ("" + ("\n" + WithBody(body, Provenance(PROVENANCE_KEYS, values)))))
  }

  function WithBody(body: string, provenance: string): string {
    if body == "" then provenance else body + ("\n" + ("" + ("\n" + provenance)))
  }

  /** Keys that part from `Factory-Cost:` in their ninth or tenth character. */
  predicate NotCostKey(key: string) {
    |key| >= 10 && (key[8] != 'C' || key[9] != 'o') && NoNewline(key)
  }

  predicate NotCostKeys(keys: seq<string>) {
    forall i :: 0 <= i < |keys| ==> NotCostKey(keys[i])
  }

  lemma LineWithKey(key: string, value: string)
    requires NotCostKey(key) && NoNewline(value)
    ensures !StartsLine(key + value, COST_KEY)
  {
    var s := key + value;
    assert COST_KEY[8] == 'C' && COST_KEY[9] == 'o' && s[8] == key[8] && s[9] == key[9];
    forall i | 0 <= i <= |s| - |COST_KEY|
      ensures !LineStartAt(s, COST_KEY, i)
    {
      assert i > 0 ==> s[i - 1] != '\n';
      assert s[0..0 + |COST_KEY|][8] == s[8] && s[0..0 + |COST_KEY|][9] == s[9];
    }
  }

  lemma {:induction false} ProvenanceNamesNoCost(keys: seq<string>, values: seq<string>)
    requires |keys| == |values| && NotCostKeys(keys) && forall i :: 0 <= i < |values| ==> NoNewline(values[i])
    ensures !StartsLine(Provenance(keys, values), COST_KEY)
  {
    if keys != [] {
      LineWithKey(keys[0], values[0]);
      ProvenanceNamesNoCost(keys[1..], values[1..]);
      StartsLineSplits(keys[0] + values[0], Provenance(keys[1..], values[1..]), COST_KEY);
    }
  }

  lemma EmptyStartsNothing(key: string)
    requires key != ""
    ensures !StartsLine("", key)
  {
  }

  lemma FirstKeysAreOther()
    ensures NotCostKey("Factory-Campaign: ") && NotCostKey("Factory-Ticket: ")
            && NotCostKey("Factory-Ticket-Revision-Digest: ")
    ensures NotCostKey("Factory-Kernel-Build: ")
  {
  }

  lemma MiddleKeysAreOther()
    ensures NotCostKey("Factory-Application-Revision: ") && NotCostKey("Factory-Base: ")
    ensures NotCostKey("Factory-Regression-Tree: ") && NotCostKey("Factory-Candidate-Tree: ")
  {
  }

  lemma LastKeysAreOther()
    ensures NotCostKey("Factory-Patch-BLAKE3: ") && NotCostKey("Factory-Engineering-Session-BLAKE3: ")
    ensures NotCostKey("Factory-Validation: ")
  {
  }

  lemma ProvenanceKeysAreOther()
    ensures NotCostKeys(PROVENANCE_KEYS)
  {
    hide NotCostKey;
    FirstKeysAreOther();
    MiddleKeysAreOther();
    LastKeysAreOther();
  }

  /** A candidate can be delivered with its cost exactly when no line of its commit
      body starts with the cost key; nothing checks that when it is submitted. */
  lemma BodyDecidesDelivery(subject: string, body: string, values: seq<string>)
    requires NoNewline(subject) && |values| == |PROVENANCE_KEYS| && forall i :: 0 <= i < |values| ==>
              NoNewline(values[i])
    ensures NamesCost(CandidateMessage(subject, body, values) + "\n") <==> StartsLine(body, COST_KEY)
  {
    var provenance := Provenance(PROVENANCE_KEYS, values);
    ProvenanceKeysAreOther();
    ProvenanceNamesNoCost(PROVENANCE_KEYS, values);
    EmptyStartsNothing(COST_KEY);
    var tail := WithBody(body, provenance);
    StartsLineSplits("", provenance, COST_KEY);
    StartsLineSplits(body, "" + ("\n" + provenance), COST_KEY);
    StartsLineSplits("", tail, COST_KEY);
    var rest := "" + ("\n" + tail);
    StartsLineSplits(rest, "", COST_KEY);
    StartsLaterLine(subject, rest + ("\n" + ""), COST_KEY);
    assert CandidateMessage(subject, body, values) + "\n" == subject + ("\n" + (rest + ("\n" + "")));
  }

  /** One such body. */
  lemma UndeliverableBody(values: seq<string>)
    requires |values| == |PROVENANCE_KEYS| && forall i :: 0 <= i < |values| ==> NoNewline(values[i])
    ensures NamesCost(CandidateMessage("Fix", "Factory-Cost: none", values) + "\n")
  {
    assert "Factory-Cost: none"[0..13] == COST_KEY;
    assert LineStartAt("Factory-Cost: none", COST_KEY, 0);
    BodyDecidesDelivery("Fix", "Factory-Cost: none", values);
  }

  lemma FirstLineIsSubject(subject: string, rest: string, text: string)
    requires NoNewline(subject) && (subject == "" || subject[|subject| - 1] != '\r') && NoNewline(text)
    ensures FirstLineIs(subject + ("\n" + rest), text) <==> subject == text
  {
    var s := subject + ("\n" + rest);
    RestIsSlice(subject, rest);
    assert s[0..|subject|] == subject;
    assert LineSpan(s, 0, |subject|);
    forall j | 0 <= j <= |s| && LineSpan(s, 0, j)
      ensures j == |subject|
    {
      BreakIsAfter(subject, rest, if j < |s| then j else |subject|);
    }
  }

  /** The costs an admissible candidate's delivery shows: its own, and the one its subject spells. */
  lemma SubjectDecidesShownCost(subject: string, body: string, values: seq<string>, cost: nat, other: nat)
    requires NoNewline(subject) && (subject == "" || subject[|subject| - 1] != '\r') && !StartsLine(body, COST_KEY)
    requires |values| == |PROVENANCE_KEYS| && forall i :: 0 <= i < |values| ==> NoNewline(values[i])
    ensures var message := CandidateMessage(subject, body, values) + "\n";
            HasLine(Delivered(message, cost), Trailer(other)) <==> other == cost || subject == Trailer(other)
  {
    hide HasLine, Delivered, Trailer, NamesCost, FirstLineIs, WithBody;
    var message := CandidateMessage(subject, body, values) + "\n";
    BodyDecidesDelivery(subject, body, values);
    ShownCosts(message, cost, other);
    TrailerIsOneLine(other);
    var rest := "" + ("\n" + WithBody(body, Provenance(PROVENANCE_KEYS, values)));
    assert message == subject + ("\n" + (rest + "\n"));
    FirstLineIsSubject(subject, rest + "\n", Trailer(other));
  }

  /** One such subject: its candidate can be delivered at any cost, and always shows cost zero. */
  lemma SpelledCostIsShown(values: seq<string>, cost: nat)
    requires |values| == |PROVENANCE_KEYS| && forall i :: 0 <= i < |values| ==> NoNewline(values[i])
    ensures var message := CandidateMessage(Trailer(0), "", values) + "\n";
            !NamesCost(message) && HasLine(Delivered(message, cost), Trailer(0))
            && HasLine(Delivered(message, cost), Trailer(cost))
    ensures |Trailer(0)| <= 120
  {
    hide HasLine, Delivered, NamesCost;
    TrailerIsOneLine(0);
    EmptyStartsNothing(COST_KEY);
    BodyDecidesDelivery(Trailer(0), "", values);
    SubjectDecidesShownCost(Trailer(0), "", values, cost, 0);
    SubjectDecidesShownCost(Trailer(0), "", values, cost, cost);
  }
}
