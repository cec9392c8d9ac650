/** Command identities: the ids the campaign driver prints for its intents, and the
    ids derived from an actor's own command id. */
module CommandIds {
  import opened Basics

  // --------------------------------------------------------- driver intents

  datatype Stage =
    | HardValidation | Quality | CandidateCommitAttachRequired | QualityReviewRequired | AwaitingArchitect
    | DeliverAccepted | ReworkEngineering | ReworkValidation | ReworkQuality

  function StageName(s: Stage): string {
    match s
    case HardValidation => "hard_validation"
    case Quality => "quality"
    case CandidateCommitAttachRequired => "candidate_commit_attach_required"
    case QualityReviewRequired => "quality_review_required"
    case AwaitingArchitect => "awaiting_architect"
    case DeliverAccepted => "deliver_accepted"
    case ReworkEngineering => "rework_engineering"
    case ReworkValidation => "rework_validation"
    case ReworkQuality => "rework_quality"
  }

  datatype Intent =
    | Complete(campaign: nat, campaignRevision: nat)
    | FailCampaign(campaign: nat, campaignRevision: nat)
    | LaunchProduct(campaign: nat, campaignRevision: nat)
    | LaunchEngineering(campaign: nat, campaignRevision: nat, attempt: nat)
    | LaunchRework(campaign: nat, campaignRevision: nat, attempt: nat)
    | LaunchQuality(campaign: nat, campaignRevision: nat, attempt: nat, candidate: nat)
    | ClaimTicket(campaign: nat, campaignRevision: nat, ticketRevisionId: nat, ticketRevision: nat)
    | Deliver(stage: Stage, attempt: nat, candidate: nat, attemptRevision: nat, candidateRevision: nat)
    | RetryEngineering(attempt: nat, attemptRevision: nat, ticketRevision: nat)
    | FailAttempt(attempt: nat, attemptRevision: nat, ticketRevision: nat)
    | RetryQuality(attempt: nat, candidate: nat, attemptRevision: nat, ticketRevision: nat)

  /** A literal and the number printed after it. */
  datatype Piece = Piece(literal: string, number: nat)

  function Pieces(i: Intent): seq<Piece> {
    match i
    case Complete(c, r) => [Piece("campaign-", c), Piece("-complete-r", r)]
    case FailCampaign(c, r) => [Piece("campaign-", c), Piece("-fault-r", r)]
    case LaunchProduct(c, r) => [Piece("campaign-", c), Piece("-product-r", r)]
    case LaunchEngineering(c, r, a) => [Piece("campaign-", c), Piece("-engineering-r", r), Piece("-attempt-", a)]
    case LaunchRework(c, r, a) => [Piece("campaign-", c), Piece("-rework-engineering-r", r), Piece("-attempt-", a)]
    case LaunchQuality(c, r, a, k) =>
      [Piece("campaign-", c), Piece("-quality-r", r), Piece("-attempt-", a), Piece("-candidate-", k)]
    case ClaimTicket(c, r, t, v) =>
      [Piece("campaign-", c), Piece("-claim-r", r), Piece("-ticket-revision-", t), Piece("-tr", v)]
    case Deliver(s, a, k, ar, cr) =>
      [Piece("campaign-deliver-" + (StageName(s) + "-attempt-"), a), Piece("-candidate-", k), Piece("-ar", ar),
       Piece("-cr", cr)]
    case RetryEngineering(a, ar, tr) => [Piece("attempt-", a), Piece("-engineering-retry-ar", ar), Piece("-tr", tr)]
    case FailAttempt(a, ar, tr) => [Piece("attempt-", a), Piece("-fault-ar", ar), Piece("-tr", tr)]
    case RetryQuality(a, k, ar, tr) =>
      [Piece("attempt-", a), Piece("-candidate-", k), Piece("-quality-retry-ar", ar), Piece("-tr", tr)]
  }

  function Print(ps: seq<Piece>): string {
    if ps == [] then "" else ps[0].literal + (Decimal(ps[0].number) + Print(ps[1..]))
  }

  /** The command id of an intent. */
  function CommandId(i: Intent): string { Print(Pieces(i)) }

  predicate DigitFree(s: string) { forall i :: 0 <= i < |s| ==> !IsDigit(s[i]) }

  predicate Readable(ps: seq<Piece>) { forall i :: 0 <= i < |ps| ==> ps[i].literal != "" && DigitFree(ps[i].literal) }

  lemma LiteralNotLonger(a: string, r: string, b: string, s: string)
    requires a + r == b + s && DigitFree(a) && s != "" && IsDigit(s[0])
    ensures |a| <= |b|
  {
    var whole := b + s;
    assert whole[|b|] == s[0];
    assert forall i :: 0 <= i < |a| ==> (a + r)[i] == a[i];
  }

  /** Digit-free literals and the numbers between them are read back unambiguously. */
  lemma {:induction false} PrintInjective(ps: seq<Piece>, qs: seq<Piece>)
    requires Readable(ps) && Readable(qs) && Print(ps) == Print(qs)
    ensures ps == qs
  {
    if ps != [] && qs != [] {
      var p, q := ps[0], qs[0];
      var r, s := Decimal(p.number) + Print(ps[1..]), Decimal(q.number) + Print(qs[1..]);
      assert r[0] == Decimal(p.number)[0] && s[0] == Decimal(q.number)[0];
      LiteralNotLonger(p.literal, r, q.literal, s);
      LiteralNotLonger(q.literal, s, p.literal, r);
      AppendInjective(p.literal, r, q.literal, s);
      StartsPlain(ps[1..]);
      StartsPlain(qs[1..]);
      DecimalThenStop(p.number, Print(ps[1..]), q.number, Print(qs[1..]));
      PrintInjective(ps[1..], qs[1..]);
      assert ps == [p] + ps[1..] && qs == [q] + qs[1..];
    }
  }

  lemma StartsPlain(ps: seq<Piece>)
    requires Readable(ps)
    ensures Print(ps) == "" || !IsDigit(Print(ps)[0])
  {
  }

  lemma StageNamesDiffer(s: Stage, t: Stage)
    requires StageName(s) == StageName(t)
    ensures s == t
  {
    assert |StageName(s)| == |StageName(t)| && StageName(s)[0] == StageName(t)[0];
  }

  lemma ShortStagesDigitFree()
    ensures DigitFree("hard_validation") && DigitFree("quality") && DigitFree("awaiting_architect")
            && DigitFree("deliver_accepted")
  {
  }

  lemma LongStagesDigitFree()
    ensures DigitFree("candidate_commit_attach_required") && DigitFree("quality_review_required")
  {
  }

  lemma ReworkStagesDigitFree()
    ensures DigitFree("rework_engineering") && DigitFree("rework_validation") && DigitFree("rework_quality")
  {
  }

  lemma StageIsDigitFree(s: Stage)
    ensures DigitFree(StageName(s))
  {
    hide DigitFree;
    ShortStagesDigitFree();
    LongStagesDigitFree();
    ReworkStagesDigitFree();
  }

  lemma CampaignLiterals()
    ensures DigitFree("campaign-") && DigitFree("-complete-r") && DigitFree("-fault-r") && DigitFree("-product-r")
  {
  }

  lemma LaunchLiterals()
    ensures DigitFree("-engineering-r") && DigitFree("-rework-engineering-r") && DigitFree("-quality-r")
  {
  }

  lemma TargetLiterals()
    ensures DigitFree("-attempt-") && DigitFree("-candidate-") && DigitFree("attempt-")
            && DigitFree("-ticket-revision-") && DigitFree("-claim-r")
  {
  }

  lemma RevisionLiterals()
    ensures DigitFree("-tr") && DigitFree("-ar") && DigitFree("-cr") && DigitFree("campaign-deliver-")
            && DigitFree("-fault-ar")
  {
  }

  lemma RetryLiterals()
    ensures DigitFree("-engineering-retry-ar") && DigitFree("-quality-retry-ar")
  {
  }

  lemma DeliverLiteral(s: Stage)
    ensures DigitFree("campaign-deliver-" + (StageName(s) + "-attempt-"))
  {
    StageIsDigitFree(s);
    TargetLiterals();
    RevisionLiterals();
    DigitFreeJoins(StageName(s), "-attempt-");
    DigitFreeJoins("campaign-deliver-", StageName(s) + "-attempt-");
    hide DigitFree, StageName;
  }

  lemma DigitFreeJoins(a: string, b: string)
    requires DigitFree(a) && DigitFree(b)
    ensures DigitFree(a + b)
  {
  }

  lemma CampaignPiecesReadable(i: Intent)
    requires !i.Deliver? && !i.RetryEngineering? && !i.FailAttempt? && !i.RetryQuality?
    ensures Readable(Pieces(i))
  {
    hide DigitFree;
    CampaignLiterals();
    LaunchLiterals();
    TargetLiterals();
    RevisionLiterals();
  }

  lemma AttemptPiecesReadable(i: Intent)
    requires i.Deliver? || i.RetryEngineering? || i.FailAttempt? || i.RetryQuality?
    ensures Readable(Pieces(i))
  {
    hide DigitFree, StageName;
    TargetLiterals();
    RevisionLiterals();
    RetryLiterals();
    if i.Deliver? {
      DeliverLiteral(i.stage);
    }
  }

  predicate SameConstructor(i: Intent, j: Intent) {
    || (i.Complete? && j.Complete?) || (i.FailCampaign? && j.FailCampaign?) || (i.LaunchProduct? && j.LaunchProduct?)
    || (i.LaunchEngineering? && j.LaunchEngineering?) || (i.LaunchRework? && j.LaunchRework?) || (i.LaunchQuality? && j.LaunchQuality?)
    || (i.ClaimTicket? && j.ClaimTicket?) || (i.Deliver? && j.Deliver?) || (i.RetryEngineering? && j.RetryEngineering?)
    || (i.FailAttempt? && j.FailAttempt?) || (i.RetryQuality? && j.RetryQuality?)
  }

  lemma PiecesNameConstructor(i: Intent, j: Intent)
    requires Pieces(i) == Pieces(j)
    ensures SameConstructor(i, j)
  {
    var p, q := Pieces(i), Pieces(j);
    assert |p| == |q| && p[0] == q[0] && p[1] == q[1];
    assert |p[0].literal| == |q[0].literal| && p[0].literal[0] == q[0].literal[0];
    assert |p[1].literal| == |q[1].literal| && p[1].literal[1] == q[1].literal[1] && p[1].literal[2] == q[1].literal[2];
    hide StageName;
  }

  lemma PiecesInjective(i: Intent, j: Intent)
    requires Pieces(i) == Pieces(j) && SameConstructor(i, j)
    ensures i == j
  {
    var p, q := Pieces(i), Pieces(j);
    assert |p| == |q| && p[0] == q[0] && p[1] == q[1];
    if |p| > 2 { assert p[2] == q[2]; }
    if |p| > 3 { assert p[3] == q[3]; }
    if i.Deliver? {
      var a, b := StageName(i.stage), StageName(j.stage);
      AppendInjective("campaign-deliver-", a + "-attempt-", "campaign-deliver-", b + "-attempt-");
      AppendInjective(a, "-attempt-", b, "-attempt-");
      StageNamesDiffer(i.stage, j.stage);
    }
    hide StageName;
  }

  /** No two different driver intents print the same command id. */
  lemma IntentIdsInjective(i: Intent, j: Intent)
    ensures CommandId(i) == CommandId(j) <==> i == j
  {
    hide Pieces, Print, Readable;
    if CommandId(i) == CommandId(j) {
      IntentReadable(i);
      IntentReadable(j);
      PrintInjective(Pieces(i), Pieces(j));
      PiecesNameConstructor(i, j);
      PiecesInjective(i, j);
    }
  }

  lemma IntentReadable(i: Intent)
    ensures Readable(Pieces(i))
  {
    hide Pieces, Readable;
    if i.Deliver? || i.RetryEngineering? || i.FailAttempt? || i.RetryQuality? {
      AttemptPiecesReadable(i);
    } else {
      CampaignPiecesReadable(i);
    }
  }

  // --------------------------------------------------------- derived ids

  predicate IsSuffix(s: string) {
    0 < |s| <= 80 && forall i :: 0 <= i < |s| ==> IsIdentityChar(s[i])
  }

  /** A digest printed as 64 lowercase hexadecimal digits. */
  type HexHash = h: string -> string | forall s :: |h(s)| == 64 && forall i :: 0 <= i < 64 ==> IsLowerHex(h(s)[i])
    ghost witness (s: string) => seq(64, _ => '0')

  /** What is hashed when the plain form would be too long. */
  function Joined(base: string, suffix: string): string { base + ([0 as char] + suffix) }

  const FALLBACK := "candidate-runtime-"

  /** `derived_command_id` */
  function Derived(h: HexHash, base: string, suffix: string): Option<string> {
    if !IsAuditIdentity(base) || !IsSuffix(suffix) then None
    else
      var direct := base + ("-" + suffix);
      if |direct| <= 160 then Some(direct) else Some(FALLBACK + h(Joined(base, suffix)))
  }

  /** Every result is itself a legal base, on both sides of the length limit, so
      derivation can be nested. */
  lemma DerivedIsLegal(h: HexHash, base: string, suffix: string)
    ensures Derived(h, base, suffix).Some? <==> IsAuditIdentity(base) && IsSuffix(suffix)
    ensures Derived(h, base, suffix).Some? ==> IsAuditIdentity(Derived(h, base, suffix).value)
  {
    if Derived(h, base, suffix).Some? && |base + ("-" + suffix)| > 160 {
      var id := FALLBACK + h(Joined(base, suffix));
      forall i | 0 <= i < |id|
        ensures IsIdentityChar(id[i])
      {
        if i >= |FALLBACK| {
          assert id[i] == h(Joined(base, suffix))[i - |FALLBACK|];
        }
      }
    }
  }

  lemma JoinedInjective(base: string, s: string, t: string)
    requires Joined(base, s) == Joined(base, t)
    ensures s == t
  {
    AppendInjective(base, [0 as char] + s, base, [0 as char] + t);
    AppendInjective([0 as char], s, [0 as char], t);
  }

  /** The plain and the hashed form of one base never meet: where the plain form has
      the dash after its base, the hashed form has a hexadecimal digit. */
  lemma PlainIsNotHashed(h: HexHash, base: string, s: string, t: string)
    requires IsAuditIdentity(base) && IsSuffix(s) && IsSuffix(t)
    requires |base + ("-" + s)| <= 160 < |base + ("-" + t)|
    ensures base + ("-" + s) != FALLBACK + h(Joined(base, t))
  {
    var plain, hashed := base + ("-" + s), FALLBACK + h(Joined(base, t));
    if |plain| == |hashed| {
      assert plain[|base|] == '-';
      assert hashed[|base|] == h(Joined(base, t))[|base| - |FALLBACK|];
      assert !IsLowerHex('-');
    }
  }

  /** For one base, distinct suffixes give distinct ids unless the hash itself collides. */
  lemma SuffixesGiveDistinctIds(h: HexHash, base: string, s: string, t: string)
    requires IsAuditIdentity(base) && IsSuffix(s) && IsSuffix(t)
    requires Derived(h, base, s) == Derived(h, base, t)
    ensures s == t || (Joined(base, s) != Joined(base, t) && h(Joined(base, s)) == h(Joined(base, t)))
  {
    var a, b := base + ("-" + s), base + ("-" + t);
    if |a| <= 160 && |b| <= 160 {
      AppendInjective(base, "-" + s, base, "-" + t);
      AppendInjective("-", s, "-", t);
    } else if |a| <= 160 {
      PlainIsNotHashed(h, base, s, t);
    } else if |b| <= 160 {
      PlainIsNotHashed(h, base, t, s);
    } else {
      AppendInjective(FALLBACK, h(Joined(base, s)), FALLBACK, h(Joined(base, t)));
      if s != t && Joined(base, s) == Joined(base, t) {
        JoinedInjective(base, s, t);
      }
    }
  }

  // ----------------------------------------------------- across bases

  predicate Legal(base: string, suffix: string) { IsAuditIdentity(base) && IsSuffix(suffix) }

  predicate IsPlain(base: string, suffix: string) { |base + ("-" + suffix)| <= 160 }

  /** One base runs over a dash into the other's suffix. */
  ghost predicate Shifted(b: string, s: string, c: string, t: string) {
    exists mid: string :: b == c + ("-" + mid) && t == mid + ("-" + s)
  }

  lemma LongerBaseShifts(b: string, s: string, c: string, t: string)
    requires b + ("-" + s) == c + ("-" + t) && |b| > |c|
    ensures Shifted(b, s, c, t)
  {
    var whole := b + ("-" + s);
    assert whole == c + ("-" + t);
    var mid := b[|c| + 1..];
    assert whole[..|b|] == b && whole[..|c|] == c;
    assert b[..|c|] == whole[..|b|][..|c|] == c;
    assert b[|c|] == whole[|c|] == '-';
    assert b == c + ("-" + mid);
    assert whole == c + ("-" + (mid + ("-" + s)));
    AppendInjective(c, "-" + t, c, "-" + (mid + ("-" + s)));
    AppendInjective("-", t, "-", mid + ("-" + s));
  }

  /** Plain forms meet exactly when the pairs are the same or a dash of one base is the
      separator of the other. */
  lemma PlainFormsMeetExactly(b: string, s: string, c: string, t: string)
    ensures b + ("-" + s) == c + ("-" + t) <==> (b == c && s == t) || Shifted(b, s, c, t) || Shifted(c, t, b, s)
  {
    if b + ("-" + s) == c + ("-" + t) {
      if |b| > |c| {
        LongerBaseShifts(b, s, c, t);
      } else if |c| > |b| {
        LongerBaseShifts(c, t, b, s);
      } else {
        AppendInjective(b, "-" + s, c, "-" + t);
        AppendInjective("-", s, "-", t);
      }
    }
    if mid: string :| b == c + ("-" + mid) && t == mid + ("-" + s) {
      assert b + ("-" + s) == c + ("-" + t);
    }
    if mid: string :| c == b + ("-" + mid) && s == mid + ("-" + t) {
      assert b + ("-" + s) == c + ("-" + t);
    }
  }

  /** The hashed form is also the plain form of these two bases, and of no others. */
  predicate SpellsHashed(base: string, suffix: string, hex: string) {
    (base == "candidate-runtime" && suffix == hex) || (base == "candidate" && suffix == "runtime-" + hex)
  }

  lemma HashedIsPlain(hex: string)
    ensures "candidate-runtime" + ("-" + hex) == FALLBACK + hex
            && "candidate" + ("-" + ("runtime-" + hex)) == FALLBACK + hex
  {
  }

  /** In the hashed form the only dashes are the fallback's own two. */
  lemma DashInHashed(base: string, suffix: string, hex: string)
    requires (forall i :: 0 <= i < |hex| ==> IsLowerHex(hex[i])) && base + ("-" + suffix) == FALLBACK + hex
    ensures (|base| == 9 || |base| == 17) && base == FALLBACK[..|base|]
  {
    var plain, hashed := base + ("-" + suffix), FALLBACK + hex;
    assert plain[|base|] == '-' && !IsLowerHex('-');
    assert forall i :: |FALLBACK| <= i < |hashed| ==> hashed[i] == hex[i - |FALLBACK|];
    assert |base| < |FALLBACK| && FALLBACK[|base|] == '-';
    assert base == plain[..|base|] && hashed[..|base|] == FALLBACK[..|base|];
  }

  lemma PlainMeetsHashedExactly(base: string, suffix: string, hex: string)
    requires forall i :: 0 <= i < |hex| ==> IsLowerHex(hex[i])
    ensures base + ("-" + suffix) == FALLBACK + hex <==> SpellsHashed(base, suffix, hex)
  {
    hide IsLowerHex;
    HashedIsPlain(hex);
    if base + ("-" + suffix) == FALLBACK + hex {
      DashInHashed(base, suffix, hex);
      assert FALLBACK[..9] == "candidate" && FALLBACK[..17] == "candidate-runtime";
      if |base| == 17 {
        AppendInjective(base, "-" + suffix, "candidate-runtime", "-" + hex);
        AppendInjective("-", suffix, "-", hex);
      } else {
        AppendInjective(base, "-" + suffix, "candidate", "-" + ("runtime-" + hex));
        AppendInjective("-", suffix, "-", "runtime-" + hex);
      }
    }
  }

  lemma JoinedPairs(b: string, s: string, c: string, t: string)
    requires IsAuditIdentity(b) && IsAuditIdentity(c) && Joined(b, s) == Joined(c, t)
    ensures b == c && s == t
  {
    var x, y := Joined(b, s), Joined(c, t);
    assert x[|b|] == 0 as char && y[|c|] == 0 as char;
    assert forall i :: 0 <= i < |b| ==> x[i] == b[i];
    assert forall i :: 0 <= i < |c| ==> y[i] == c[i];
    assert |b| == |c|;
    AppendInjective(b, [0 as char] + s, c, [0 as char] + t);
    AppendInjective([0 as char], s, [0 as char], t);
  }

  /** When two derivations, on whatever bases, give one id (hashes not colliding): the same
      pair twice; two plain forms that share a dash; or the plain form of a base that
      spells the fallback's own prefix, with the other's hash for its suffix. */
  lemma DerivedAgreeExactly(h: HexHash, b: string, s: string, c: string, t: string)
    requires Legal(b, s) && Legal(c, t) && (h(Joined(b, s)) == h(Joined(c, t)) ==> Joined(b, s) == Joined(c, t))
    ensures Derived(h, b, s) == Derived(h, c, t)
            <==> || (b == c && s == t)
                 || (IsPlain(b, s) && IsPlain(c, t) && (Shifted(b, s, c, t) || Shifted(c, t, b, s)))
                 || (IsPlain(b, s) && !IsPlain(c, t) && SpellsHashed(b, s, h(Joined(c, t))))
                 || (!IsPlain(b, s) && IsPlain(c, t) && SpellsHashed(c, t, h(Joined(b, s))))
  {
    hide Shifted, SpellsHashed, IsAuditIdentity, IsSuffix, IsLowerHex;
    PlainFormsMeetExactly(b, s, c, t);
    PlainMeetsHashedExactly(b, s, h(Joined(c, t)));
    PlainMeetsHashedExactly(c, t, h(Joined(b, s)));
    if h(Joined(b, s)) == h(Joined(c, t)) {
      JoinedPairs(b, s, c, t);
    } else if FALLBACK + h(Joined(b, s)) == FALLBACK + h(Joined(c, t)) {
      AppendInjective(FALLBACK, h(Joined(b, s)), FALLBACK, h(Joined(c, t)));
    }
  }

  /** Two pairs of each kind that meet: across a dash, and across the hash boundary. */
  lemma BasesMayShareIds(h: HexHash, base: string, suffix: string)
    requires Legal(base, suffix) && !IsPlain(base, suffix)
    ensures Derived(h, "a-b", "c") == Derived(h, "a", "b-c") && Derived(h, "a", "b-c").Some?
    ensures Legal("candidate-runtime", h(Joined(base, suffix)))
            && Derived(h, "candidate-runtime", h(Joined(base, suffix))) == Derived(h, base, suffix)
  {
    assert "a-b" + ("-" + "c") == "a" + ("-" + "b-c");
    var hex := h(Joined(base, suffix));
    assert "candidate-runtime" + ("-" + hex) == FALLBACK + hex;
  }
}
