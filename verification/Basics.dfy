/** Vocabulary shared by every module.

    A text is modelled as its UTF-8 bytes, one `char` per byte, so `|s|` is the
    length the source measures and literals such as "delivery.record" can be
    written directly. */
module Basics {

  datatype Option<+T> = None | Some(value: T)

  datatype Result<+T, +E> = Ok(value: T) | Err(error: E)

  const TWO63 := 0x8000_0000_0000_0000
  const TWO64 := 0x1_0000_0000_0000_0000

  type U64 = n: int | 0 <= n < TWO64
  /** Identity-column values are positive `BIGINT`s. */
  type RowId = n: int | 0 < n < TWO63 witness 1
  type Text = s: string | |s| < TWO64
  /** A 32-byte content digest. */
  type Digest = s: string | |s| == 32 witness "00000000000000000000000000000000"

  predicate IsDigit(c: char) { '0' <= c <= '9' }

  predicate IsLowerHex(c: char) { IsDigit(c) || 'a' <= c <= 'f' }

  predicate IsHex(c: char) { IsLowerHex(c) || 'A' <= c <= 'F' }

  predicate IsAlphanumeric(c: char) { IsDigit(c) || 'a' <= c <= 'z' || 'A' <= c <= 'Z' }

  /** The characters admitted in audit principals and command identities. */
  predicate IsIdentityChar(c: char) {
    IsAlphanumeric(c) || c == '.' || c == ':' || c == '_' || c == '-'
  }

  /** `validate_command` for one field. */
  predicate IsAuditIdentity(s: string) {
    0 < |s| <= 160 && forall i :: 0 <= i < |s| ==> IsIdentityChar(s[i])
  }

  // ---------------------------------------------------------------- decimal

  function DigitChar(d: nat): char
    requires d < 10
  {
    ('0' as int + d) as char
  }

  /** `{}` formatting of a nonnegative integer. */
  function Decimal(n: nat): (s: string)
    ensures |s| > 0
    ensures forall i :: 0 <= i < |s| ==> IsDigit(s[i])
    ensures n > 0 ==> s[0] != '0'
  {
    if n < 10 then [DigitChar(n)] else Decimal(n / 10) + [DigitChar(n % 10)]
  }

  /** `str::parse::<i64>` on an unsigned digit string, without its range check. */
  function ParseDecimal(s: string): Option<nat> {
    if s == "" || !IsDigit(s[|s| - 1]) then None
    else
      var last := s[|s| - 1] as int - '0' as int;
      if |s| == 1 then Some(last)
      else match ParseDecimal(s[..|s| - 1])
        case None => None
        case Some(v) => Some(10 * v + last)
  }

  lemma {:induction false} ParseDecimalInvertsDecimal(n: nat)
    ensures ParseDecimal(Decimal(n)) == Some(n)
  {
    if n >= 10 {
      var s := Decimal(n);
      assert s[..|s| - 1] == Decimal(n / 10);
      ParseDecimalInvertsDecimal(n / 10);
    }
  }

  lemma DecimalInjective(m: nat, n: nat)
    requires Decimal(m) == Decimal(n)
    ensures m == n
  {
    ParseDecimalInvertsDecimal(m);
    ParseDecimalInvertsDecimal(n);
  }

  lemma DigitRunNotShorter(x: string, r: string, y: string, s: string)
    requires x + r == y + s
    requires forall i :: 0 <= i < |y| ==> IsDigit(y[i])
    requires r == "" || !IsDigit(r[0])
    ensures |x| >= |y|
  {
    var whole := x + r;
    assert forall i :: 0 <= i < |y| ==> whole[i] == y[i];
    assert r != "" ==> whole[|x|] == r[0];
  }

  /** A decimal number followed by a non-digit (or the end) is read back unambiguously. */
  lemma DecimalThenStop(m: nat, r: string, n: nat, s: string)
    requires Decimal(m) + r == Decimal(n) + s
    requires r == "" || !IsDigit(r[0])
    requires s == "" || !IsDigit(s[0])
    ensures m == n && r == s
  {
    var x, y := Decimal(m), Decimal(n);
    DigitRunNotShorter(x, r, y, s);
    DigitRunNotShorter(y, s, x, r);
    AppendInjective(x, r, y, s);
    DecimalInjective(m, n);
  }

  // ------------------------------------------------------- string utilities

  lemma AppendInjective<T>(a: seq<T>, r: seq<T>, b: seq<T>, s: seq<T>)
    requires a + r == b + s && |a| == |b|
    ensures a == b && r == s
  {
    assert (a + r)[..|a|] == a && (b + s)[..|b|] == b;
    assert (a + r)[|a|..] == r && (b + s)[|b|..] == s;
  }

  lemma Associate<T>(a: seq<T>, b: seq<T>, c: seq<T>)
    ensures (a + b) + c == a + (b + c)
  {
  }

  predicate StartsWith(s: string, prefix: string) {
    |prefix| <= |s| && s[..|prefix|] == prefix
  }

  predicate EndsWith(s: string, suffix: string) {
    |suffix| <= |s| && s[|s| - |suffix|..] == suffix
  }

  // ------------------------------------------------------------ pieces

  /** What a read returns before the end of a stream; a read of no bytes is the end. */
  type Chunk = s: string | s != "" witness "0"

  function Concat(chunks: seq<string>): string {
    if chunks == [] then "" else chunks[0] + Concat(chunks[1..])
  }

  lemma {:induction false} ConcatSnoc(chunks: seq<string>, last: string)
    ensures Concat(chunks + [last]) == Concat(chunks) + last
  {
    if chunks == [] {
      assert chunks + [last] == [last] && [last][1..] == [];
    } else {
      ConcatSnoc(chunks[1..], last);
      assert (chunks + [last])[1..] == chunks[1..] + [last];
      Associate(chunks[0], Concat(chunks[1..]), last);
    }
  }

  function Pow10(k: nat): nat { if k == 0 then 1 else 10 * Pow10(k - 1) }
}
