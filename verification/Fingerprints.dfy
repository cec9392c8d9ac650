/** Command fingerprints: the bytes each audited operation feeds to its hasher.

    BLAKE3 is assumed free of collisions, so a fingerprint is modelled by its
    preimage. What has to be shown is that the preimages themselves never
    coincide for two different commands. */
module Fingerprints {
  import opened Basics

  // --------------------------------------------------------- wire integers

  function Pow256(k: nat): nat {
    if k == 0 then 1 else 256 * Pow256(k - 1)
  }

  /** The low `k` bytes of `n`, most significant first (`to_be_bytes`). */
  function BigEndian(n: nat, k: nat): (s: string)
    ensures |s| == k
  {
    if k == 0 then "" else BigEndian(n / 256, k - 1) + [(n % 256) as char]
  }

  /** The low `k` bytes of `n`, least significant first (`to_le_bytes`). */
  function LittleEndian(n: nat, k: nat): (s: string)
    ensures |s| == k
  {
    if k == 0 then "" else [(n % 256) as char] + LittleEndian(n / 256, k - 1)
  }

  lemma {:induction false} BigEndianInjective(m: nat, n: nat, k: nat)
    requires m < Pow256(k) && n < Pow256(k)
    requires BigEndian(m, k) == BigEndian(n, k)
    ensures m == n
  {
    if k > 0 {
      AppendInjective(BigEndian(m / 256, k - 1), [(m % 256) as char],
                      BigEndian(n / 256, k - 1), [(n % 256) as char]);
      assert [(m % 256) as char][0] == [(n % 256) as char][0];
      BigEndianInjective(m / 256, n / 256, k - 1);
    }
  }

  lemma {:induction false} LittleEndianInjective(m: nat, n: nat, k: nat)
    requires m < Pow256(k) && n < Pow256(k)
    requires LittleEndian(m, k) == LittleEndian(n, k)
    ensures m == n
  {
    if k > 0 {
      AppendInjective([(m % 256) as char], LittleEndian(m / 256, k - 1),
                      [(n % 256) as char], LittleEndian(n / 256, k - 1));
      assert [(m % 256) as char][0] == [(n % 256) as char][0];
      LittleEndianInjective(m / 256, n / 256, k - 1);
    }
  }

  lemma EightBytes()
    ensures Pow256(8) == TWO64 && Pow256(2) == 65536 && Pow256(1) == 256
  {
    assert Pow256(2) == 65536;
    assert Pow256(4) == 0x1_0000_0000;
    assert Pow256(6) == 0x1_0000_0000_0000;
  }

  // ----------------------------------------------------------------- fields

  datatype Artifact = Artifact(id: RowId, digest: Digest, byteLength: U64)

  datatype Attachment = Attachment(artifact: RowId, caption: Text)

  type U16 = n: int | 0 <= n < 65536
  type U8 = n: int | 0 <= n < 256

  /** One `hash_*` call, or one raw `Hasher::update`. */
  datatype Field =
    | FText(text: Text)
    | FWord(word: U64)
    | FLittleWord(littleWord: U64)
    | FShort(short: U16)
    | FByte(byte: U8)
    | FDigest(digest: Digest)
    | FArtifact(artifact: Artifact)
    | FOptional(optional: Option<U64>)
    | FAttachments(attachments: seq<Attachment>)

  type Fields = fs: seq<Field> | forall i :: 0 <= i < |fs| && fs[i].FAttachments? ==> |fs[i].attachments| < TWO64

  function Kind(f: Field): nat {
    match f
    case FText(_) => 0
    case FWord(_) => 1
    case FLittleWord(_) => 2
    case FShort(_) => 3
    case FByte(_) => 4
    case FDigest(_) => 5
    case FArtifact(_) => 6
    case FOptional(_) => 7
    case FAttachments(_) => 8
  }

  function EncodeText(s: Text): string {
    BigEndian(|s|, 8) + s
  }

  function EncodeAttachments(xs: seq<Attachment>): string {
    if xs == [] then ""
    else BigEndian(xs[0].artifact, 8) + (EncodeText(xs[0].caption) + EncodeAttachments(xs[1..]))
  }

  function EncodeField(f: Field): string {
    match f
    case FText(s) => EncodeText(s)
    case FWord(n) => BigEndian(n, 8)
    case FLittleWord(n) => LittleEndian(n, 8)
    case FShort(n) => BigEndian(n, 2)
    case FByte(n) => BigEndian(n, 1)
    case FDigest(d) => d
    case FArtifact(a) => BigEndian(a.id, 8) + (a.digest + BigEndian(a.byteLength, 8))
    case FOptional(None) => BigEndian(0, 1)
    case FOptional(Some(n)) => BigEndian(1, 1) + BigEndian(n, 8)
    case FAttachments(xs) => BigEndian(|xs|, 8) + EncodeAttachments(xs)
  }

  /** Everything fed to the hasher, in order. */
  function Encode(fs: seq<Field>): string {
    if fs == [] then "" else EncodeField(fs[0]) + Encode(fs[1..])
  }

  // ------------------------------------------------------ unique decoding

  lemma WordSplits(m: U64, r: string, n: U64, s: string)
    requires BigEndian(m, 8) + r == BigEndian(n, 8) + s
    ensures m == n && r == s
  {
    EightBytes();
    AppendInjective(BigEndian(m, 8), r, BigEndian(n, 8), s);
    BigEndianInjective(m, n, 8);
  }

  lemma ByteSplits(m: U8, r: string, n: U8, s: string)
    requires BigEndian(m, 1) + r == BigEndian(n, 1) + s
    ensures m == n && r == s
  {
    EightBytes();
    AppendInjective(BigEndian(m, 1), r, BigEndian(n, 1), s);
    BigEndianInjective(m, n, 1);
  }

  lemma TextSplits(a: Text, r: string, b: Text, s: string)
    requires EncodeText(a) + r == EncodeText(b) + s
    ensures a == b && r == s
  {
    assert EncodeText(a) + r == BigEndian(|a|, 8) + (a + r);
    assert EncodeText(b) + s == BigEndian(|b|, 8) + (b + s);
    WordSplits(|a|, a + r, |b|, b + s);
    AppendInjective(a, r, b, s);
  }

  lemma AttachmentSplits(x: Attachment, r: string, y: Attachment, s: string)
    requires BigEndian(x.artifact, 8) + (EncodeText(x.caption) + r) == BigEndian(y.artifact, 8) + (EncodeText(y.caption) + s)
    ensures x == y && r == s
  {
    WordSplits(x.artifact, EncodeText(x.caption) + r, y.artifact, EncodeText(y.caption) + s);
    TextSplits(x.caption, r, y.caption, s);
  }

  lemma AttachmentsUnfold(xs: seq<Attachment>, r: string)
    requires xs != []
    ensures EncodeAttachments(xs) + r
         == BigEndian(xs[0].artifact, 8) + (EncodeText(xs[0].caption) + (EncodeAttachments(xs[1..]) + r))
  {
    var a, b, c := BigEndian(xs[0].artifact, 8), EncodeText(xs[0].caption), EncodeAttachments(xs[1..]);
    Associate(a, b + c, r);
    Associate(b, c, r);
  }

  lemma {:induction false} AttachmentsSplit(xs: seq<Attachment>, r: string, ys: seq<Attachment>, s: string)
    requires |xs| == |ys| && EncodeAttachments(xs) + r == EncodeAttachments(ys) + s
    ensures xs == ys && r == s
  {
    if xs == [] {
      assert EncodeAttachments(xs) + r == r && EncodeAttachments(ys) + s == s;
    } else {
      AttachmentsUnfold(xs, r);
      AttachmentsUnfold(ys, s);
      AttachmentSplits(xs[0], EncodeAttachments(xs[1..]) + r, ys[0], EncodeAttachments(ys[1..]) + s);
      AttachmentsSplit(xs[1..], r, ys[1..], s);
      assert xs == [xs[0]] + xs[1..] && ys == [ys[0]] + ys[1..];
    }
  }

  lemma CountedAttachmentsSplit(xs: seq<Attachment>, r: string, ys: seq<Attachment>, s: string)
    requires |xs| < TWO64 && |ys| < TWO64
    requires EncodeField(FAttachments(xs)) + r == EncodeField(FAttachments(ys)) + s
    ensures xs == ys && r == s
  {
    Associate(BigEndian(|xs|, 8), EncodeAttachments(xs), r);
    Associate(BigEndian(|ys|, 8), EncodeAttachments(ys), s);
    WordSplits(|xs|, EncodeAttachments(xs) + r, |ys|, EncodeAttachments(ys) + s);
    AttachmentsSplit(xs, r, ys, s);
  }

  lemma ArtifactUnfold(a: Artifact, r: string)
    ensures EncodeField(FArtifact(a)) + r == BigEndian(a.id, 8) + (a.digest + (BigEndian(a.byteLength, 8) + r))
  {
    Associate(BigEndian(a.id, 8), a.digest + BigEndian(a.byteLength, 8), r);
    Associate(a.digest, BigEndian(a.byteLength, 8), r);
  }

  lemma ArtifactSplits(a: Artifact, r: string, b: Artifact, s: string)
    requires EncodeField(FArtifact(a)) + r == EncodeField(FArtifact(b)) + s
    ensures a == b && r == s
  {
    ArtifactUnfold(a, r);
    ArtifactUnfold(b, s);
    var ra, rb := BigEndian(a.byteLength, 8) + r, BigEndian(b.byteLength, 8) + s;
    WordSplits(a.id, a.digest + ra, b.id, b.digest + rb);
    AppendInjective(a.digest, ra, b.digest, rb);
    WordSplits(a.byteLength, r, b.byteLength, s);
  }

  lemma OptionalUnfold(a: Option<U64>, r: string)
    ensures EncodeField(FOptional(a)) + r
         == if a.None? then BigEndian(0, 1) + r else BigEndian(1, 1) + (BigEndian(a.value, 8) + r)
  {
    if a.Some? {
      Associate(BigEndian(1, 1), BigEndian(a.value, 8), r);
    }
  }

  lemma OptionalSplits(a: Option<U64>, r: string, b: Option<U64>, s: string)
    requires EncodeField(FOptional(a)) + r == EncodeField(FOptional(b)) + s
    ensures a == b && r == s
  {
    OptionalUnfold(a, r);
    OptionalUnfold(b, s);
    ByteSplits(if a.None? then 0 else 1, if a.None? then r else BigEndian(a.value, 8) + r,
               if b.None? then 0 else 1, if b.None? then s else BigEndian(b.value, 8) + s);
    if a.Some? {
      WordSplits(a.value, r, b.value, s);
    }
  }

  lemma LittleWordSplits(m: U64, r: string, n: U64, s: string)
    requires LittleEndian(m, 8) + r == LittleEndian(n, 8) + s
    ensures m == n && r == s
  {
    EightBytes();
    AppendInjective(LittleEndian(m, 8), r, LittleEndian(n, 8), s);
    LittleEndianInjective(m, n, 8);
  }

  lemma ShortSplits(m: U16, r: string, n: U16, s: string)
    requires BigEndian(m, 2) + r == BigEndian(n, 2) + s
    ensures m == n && r == s
  {
    EightBytes();
    AppendInjective(BigEndian(m, 2), r, BigEndian(n, 2), s);
    BigEndianInjective(m, n, 2);
  }

  /** One hashed field is recovered from the bytes that follow a common prefix. */
  lemma FieldSplits(f: Field, r: string, g: Field, s: string)
    requires Kind(f) == Kind(g)
    requires f.FAttachments? ==> |f.attachments| < TWO64 && |g.attachments| < TWO64
    requires EncodeField(f) + r == EncodeField(g) + s
    ensures f == g && r == s
  {
    match f
    case FText(a) => TextSplits(a, r, g.text, s);
    case FWord(n) => WordSplits(n, r, g.word, s);
    case FLittleWord(n) => LittleWordSplits(n, r, g.littleWord, s);
    case FShort(n) => ShortSplits(n, r, g.short, s);
    case FByte(n) => ByteSplits(n, r, g.byte, s);
    case FDigest(d) => AppendInjective(d, r, g.digest, s);
    case FArtifact(a) => ArtifactSplits(a, r, g.artifact, s);
    case FOptional(a) => OptionalSplits(a, r, g.optional, s);
    case FAttachments(xs) => CountedAttachmentsSplit(xs, r, g.attachments, s);
  }

  predicate SameShape(xs: seq<Field>, ys: seq<Field>) {
    |xs| == |ys| && forall i :: 0 <= i < |xs| ==> Kind(xs[i]) == Kind(ys[i])
  }

  /** Field lists of one shape are recovered from what the hasher was fed. */
  lemma {:induction false} EncodeInjective(xs: Fields, ys: Fields)
    requires SameShape(xs, ys) && Encode(xs) == Encode(ys)
    ensures xs == ys
  {
    if xs != [] {
      FieldSplits(xs[0], Encode(xs[1..]), ys[0], Encode(ys[1..]));
      EncodeInjective(xs[1..], ys[1..]);
      assert xs == [xs[0]] + xs[1..] && ys == [ys[0]] + ys[1..];
    }
  }

  /** Whatever the rest of the lists look like, their leading text is recovered. */
  lemma LeadingText(xs: Fields, ys: Fields)
    requires xs != [] && ys != [] && xs[0].FText? && ys[0].FText?
    requires Encode(xs) == Encode(ys)
    ensures xs[0] == ys[0]
  {
    FieldSplits(xs[0], Encode(xs[1..]), ys[0], Encode(ys[1..]));
  }
}
