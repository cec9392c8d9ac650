/** Local candidate refs: how custody prints them, what the two parsers admit,
    and what the attach guard accepts. */
module Refs {
  import opened Basics

  const LEGACY := "refs/heads/factory/"
  const SCOPED := "refs/heads/factory-scoped/"

  /** `CandidateRefName::new` */
  function LegacyRef(ticket: nat, candidate: nat): string {
    LEGACY + (Decimal(ticket) + ("/" + Decimal(candidate)))
  }

  /** `CandidateRefName::new_scoped` */
  function ScopedRef(scope: string, ticket: nat, candidate: nat): string {
    SCOPED + (scope + ("/" + (Decimal(ticket) + ("/" + Decimal(candidate)))))
  }

  /** `str::split('/')` */
  function Split(s: string): (fields: seq<string>)
    ensures |fields| >= 1
  {
    if s == "" then [""]
    else
      var rest := Split(s[1..]);
      if s[0] == '/' then [""] + rest else [[s[0]] + rest[0]] + rest[1..]
  }

  predicate Slashless(s: string) { forall i :: 0 <= i < |s| ==> s[i] != '/' }

  predicate IsRowNumber(field: string) {
    field != "" && field[0] != '0' && forall i :: 0 <= i < |field| ==> IsDigit(field[i])
  }

  predicate IsDigestField(field: string) {
    |field| == 64 && forall i :: 0 <= i < |field| ==> IsHex(field[i])
  }

  /** `CandidateRefName::parse` and `validate_candidate_ref`, which agree. */
  predicate IsCandidateRef(value: string) {
    |value| <= 512 &&
    if StartsWith(value, LEGACY) then
      var fields := Split(value[|LEGACY|..]);
      && (|fields| == 2 || |fields| == 3)
      && IsRowNumber(fields[0]) && IsRowNumber(fields[1])
      && (|fields| == 3 ==> IsDigestField(fields[2]))
    else if StartsWith(value, SCOPED) then
      var fields := Split(value[|SCOPED|..]);
      |fields| == 3 && IsDigestField(fields[0]) && IsRowNumber(fields[1]) && IsRowNumber(fields[2])
    else false
  }

  /** The ref guard of `attach_candidate_commit` for one ticket and candidate. */
  predicate NamesCandidate(value: string, ticket: nat, candidate: nat) {
    || value == LegacyRef(ticket, candidate)
    || (StartsWith(value, SCOPED) && EndsWith(value, "/" + (Decimal(ticket) + ("/" + Decimal(candidate)))))
  }

  // ------------------------------------------------------------- splitting

  lemma {:induction false} SplitFirst(a: string, r: string)
    requires Slashless(a)
    ensures Split(a + ("/" + r)) == [a] + Split(r)
  {
    var s := a + ("/" + r);
    if a == "" {
      assert s[1..] == r;
    } else {
      SplitFirst(a[1..], r);
      assert s[1..] == a[1..] + ("/" + r);
      assert [a[0]] + a[1..] == a;
      assert Split(s) == [[a[0]] + a[1..]] + Split(r);
    }
  }

  lemma {:induction false} SplitLast(a: string)
    requires Slashless(a)
    ensures Split(a) == [a]
  {
    if a != "" {
      SplitLast(a[1..]);
      assert [a[0]] + a[1..] == a;
    }
  }

  function Join(fields: seq<string>): string
    requires fields != []
  {
    if |fields| == 1 then fields[0] else fields[0] + ("/" + Join(fields[1..]))
  }

  lemma {:induction false} JoinInvertsSplit(s: string)
    ensures Join(Split(s)) == s
    ensures forall i :: 0 <= i < |Split(s)| ==> Slashless(Split(s)[i])
  {
    if s != "" {
      var rest := Split(s[1..]);
      JoinInvertsSplit(s[1..]);
      if s[0] == '/' {
        assert Split(s)[1..] == rest;
        assert s == "/" + s[1..];
      } else {
        var fields := Split(s);
        assert fields[1..] == rest[1..];
        assert forall i :: 0 < i < |fields| ==> fields[i] == rest[i];
        assert s == [s[0]] + Join(rest);
        if |rest| > 1 {
          Associate([s[0]], rest[0], "/" + Join(rest[1..]));
        }
      }
    }
  }

  lemma LastField(x: string, f: string, y: string, g: string)
    requires Slashless(f) && Slashless(g)
    requires x + ("/" + f) == y + ("/" + g)
    ensures x == y && f == g
  {
    NoLongerTail(x, f, y, g);
    NoLongerTail(y, g, x, f);
    AppendInjective(x, "/" + f, y, "/" + g);
    AppendInjective("/", f, "/", g);
  }

  lemma NoLongerTail(x: string, f: string, y: string, g: string)
    requires Slashless(f)
    requires x + ("/" + f) == y + ("/" + g)
    ensures |x| >= |y|
  {
    var whole := y + ("/" + g);
    assert whole[|y|] == '/';
    assert forall i :: |x| < i < |whole| ==> whole[i] == f[i - |x| - 1];
  }

  lemma RowNumber(n: nat)
    requires n > 0
    ensures IsRowNumber(Decimal(n)) && Slashless(Decimal(n))
  {
  }

  lemma {:induction false} DecimalLength(n: nat, k: nat)
    requires k > 0 && n < Pow10(k)
    ensures |Decimal(n)| <= k
  {
    if n >= 10 {
      assert k > 1;
      DecimalLength(n / 10, k - 1);
    }
  }

  lemma RowIdLength(n: RowId)
    ensures |Decimal(n)| <= 20
  {
    assert Pow10(5) == 100000 by { assert Pow10(3) == 1000; }
    assert Pow10(10) == 100000 * 100000 by { assert Pow10(7) == 100 * Pow10(5); assert Pow10(9) == 100 * Pow10(7); }
    assert Pow10(20) == Pow10(10) * Pow10(10) by {
      assert Pow10(12) == 100 * Pow10(10);
      assert Pow10(14) == 100 * Pow10(12);
      assert Pow10(16) == 100 * Pow10(14);
      assert Pow10(18) == 100 * Pow10(16);
    }
    DecimalLength(n, 20);
  }

  // --------------------------------------------------------------- theorems

  /** Every ref custody prints is admitted by both parsers. */
  lemma PrintedRefsParse(scope: string, ticket: RowId, candidate: RowId)
    requires IsDigestField(scope)
    ensures IsCandidateRef(LegacyRef(ticket, candidate))
            && NamesCandidate(LegacyRef(ticket, candidate), ticket, candidate)
    ensures IsCandidateRef(ScopedRef(scope, ticket, candidate))
    ensures NamesCandidate(ScopedRef(scope, ticket, candidate), ticket, candidate)
  {
    var t, c := Decimal(ticket), Decimal(candidate);
    RowNumber(ticket);
    RowNumber(candidate);
    RowIdLength(ticket);
    RowIdLength(candidate);
    var legacy, scoped := LegacyRef(ticket, candidate), ScopedRef(scope, ticket, candidate);
    assert legacy[|LEGACY|..] == t + ("/" + c);
    assert scoped[|SCOPED|..] == scope + ("/" + (t + ("/" + c)));
    SplitFirst(t, c);
    SplitLast(c);
    SplitFirst(scope, t + ("/" + c));
    assert scoped[18] == '-' && legacy[18] == '/';
    var tail := "/" + (t + ("/" + c));
    assert scoped[|scoped| - |tail|..] == tail;
  }

  /** A ref that both the parser and the attach guard accept is one of the two
      spellings of exactly this ticket and candidate. */
  lemma AcceptedRefIsExact(value: string, ticket: RowId, candidate: RowId)
    ensures IsCandidateRef(value) && NamesCandidate(value, ticket, candidate)
       <==> (value == LegacyRef(ticket, candidate)
             || exists scope :: IsDigestField(scope) && value == ScopedRef(scope, ticket, candidate))
  {
    if value == LegacyRef(ticket, candidate) {
      PrintedRefsParse(seq(64, _ => '0'), ticket, candidate);
    } else if exists scope :: IsDigestField(scope) && value == ScopedRef(scope, ticket, candidate) {
      var scope :| IsDigestField(scope) && value == ScopedRef(scope, ticket, candidate);
      PrintedRefsParse(scope, ticket, candidate);
    } else if IsCandidateRef(value) && NamesCandidate(value, ticket, candidate) {
      ScopedFieldsAreExact(value, ticket, candidate);
    }
  }

  lemma LastTwoFields(x: string, a: string, b: string, y: string, c: string, d: string)
    requires Slashless(a) && Slashless(b) && Slashless(c) && Slashless(d)
    requires x + ("/" + (a + ("/" + b))) == y + ("/" + (c + ("/" + d)))
    ensures x == y && a == c && b == d
  {
    RegroupTail(x, a, b);
    RegroupTail(y, c, d);
    LastField(x + ("/" + a), b, y + ("/" + c), d);
    LastField(x, a, y, c);
  }

  lemma RegroupTail(x: string, a: string, b: string)
    ensures x + ("/" + (a + ("/" + b))) == (x + ("/" + a)) + ("/" + b)
  {
    Associate(x, "/" + a, "/" + b);
    Associate("/", a, "/" + b);
  }

  /** A ref in the scoped namespace is never in the legacy one. */
  lemma NamespacesDisjoint(value: string)
    requires StartsWith(value, SCOPED)
    ensures !StartsWith(value, LEGACY)
  {
    assert value[..|SCOPED|][18] == '-';
    assert value[..|LEGACY|][18] == value[18];
    assert LEGACY[18] == '/';
  }

  lemma ScopedFields(value: string)
    requires IsCandidateRef(value) && StartsWith(value, SCOPED)
    ensures var f := Split(value[|SCOPED|..]);
            && |f| == 3 && IsDigestField(f[0]) && Slashless(f[1]) && Slashless(f[2])
            && value == (SCOPED + f[0]) + ("/" + (f[1] + ("/" + f[2])))
  {
    NamespacesDisjoint(value);
    var suffix := value[|SCOPED|..];
    var f := Split(suffix);
    JoinInvertsSplit(suffix);
    assert f[1..][1..] == [f[2]];
    assert Join(f[1..]) == f[1] + ("/" + f[2]);
    Associate(SCOPED, f[0], "/" + (f[1] + ("/" + f[2])));
  }

  lemma ScopedFieldsAreExact(value: string, ticket: nat, candidate: nat)
    requires IsCandidateRef(value) && StartsWith(value, SCOPED) && ticket > 0 && candidate > 0
    requires EndsWith(value, "/" + (Decimal(ticket) + ("/" + Decimal(candidate))))
    ensures var scope := Split(value[|SCOPED|..])[0];
            IsDigestField(scope) && value == ScopedRef(scope, ticket, candidate)
  {
    ScopedFields(value);
    var f := Split(value[|SCOPED|..]);
    var t, c := Decimal(ticket), Decimal(candidate);
    RowNumber(ticket);
    RowNumber(candidate);
    var tail := "/" + (t + ("/" + c));
    var head := value[..|value| - |tail|];
    assert value == head + tail;
    LastTwoFields(SCOPED + f[0], f[1], f[2], head, t, c);
    Associate(SCOPED, f[0], tail);
  }

  /** One ref never names two candidates. */
  lemma RefNamesOneCandidate(value: string, t1: nat, c1: nat, t2: nat, c2: nat)
    requires IsCandidateRef(value) && t1 > 0 && c1 > 0 && t2 > 0 && c2 > 0
    requires NamesCandidate(value, t1, c1) && NamesCandidate(value, t2, c2)
    ensures t1 == t2 && c1 == c2
  {
    RowNumber(c1);
    RowNumber(c2);
    if StartsWith(value, SCOPED) {
      assert value[18] == '-';
      assert LegacyRef(t1, c1)[18] == '/' && LegacyRef(t2, c2)[18] == '/';
      ScopedFieldsAreExact(value, t1, c1);
      ScopedFieldsAreExact(value, t2, c2);
      var scope := Split(value[|SCOPED|..])[0];
      AppendInjective(SCOPED, scope + ("/" + (Decimal(t1) + ("/" + Decimal(c1)))),
                      SCOPED, scope + ("/" + (Decimal(t2) + ("/" + Decimal(c2)))));
      AppendInjective(scope, "/" + (Decimal(t1) + ("/" + Decimal(c1))),
                      scope, "/" + (Decimal(t2) + ("/" + Decimal(c2))));
      AppendInjective("/", Decimal(t1) + ("/" + Decimal(c1)), "/", Decimal(t2) + ("/" + Decimal(c2)));
    } else {
      AppendInjective(LEGACY, Decimal(t1) + ("/" + Decimal(c1)), LEGACY, Decimal(t2) + ("/" + Decimal(c2)));
    }
    LastField(Decimal(t1), Decimal(c1), Decimal(t2), Decimal(c2));
    DecimalInjective(t1, t2);
    DecimalInjective(c1, c2);
  }
}
