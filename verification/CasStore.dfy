/** One adopter of the content-addressed store, undisturbed: the copy loop and the
    methods that create, link and unlink names. */
module CasStores {
  import opened Basics
  import opened Cas

  datatype CasError = SizeLimitExceeded | SourceChanged | CorruptObject | NoTemporaryName

  lemma ConcatPrefix(chunks: seq<string>, i: nat)
    requires i < |chunks|
    ensures Concat(chunks[..i + 1]) == Concat(chunks[..i]) + chunks[i]
    ensures |Concat(chunks[..i + 1])| <= |Concat(chunks)| && Concat(chunks[..i + 1]) <= Concat(chunks)
  {
    assert chunks[..i + 1] == chunks[..i] + [chunks[i]];
    ConcatSnoc(chunks[..i], chunks[i]);
    ConcatSplits(chunks, i + 1);
  }

  lemma {:induction false} ConcatSplits(chunks: seq<string>, i: nat)
    requires i <= |chunks|
    ensures Concat(chunks) == Concat(chunks[..i]) + Concat(chunks[i..])
    decreases |chunks| - i
  {
    if i == |chunks| {
      assert chunks[..i] == chunks;
    } else {
      ConcatSplits(chunks, i + 1);
      assert chunks[..i + 1] == chunks[..i] + [chunks[i]];
      ConcatSnoc(chunks[..i], chunks[i]);
      Associate(Concat(chunks[..i]), chunks[i], Concat(chunks[i + 1..]));
    }
  }

  /** A staged file as one copy sees it: what its reads return, and its metadata before and after. */
  datatype Source = Source(chunks: seq<Chunk>, initialLength: nat, finalLength: nat, sameModified: bool)

  predicate Unchanged(source: Source, copied: nat) {
    source.finalLength == source.initialLength == copied && source.sameModified
  }

  /** `stream_to_temp`: accepted exactly when the bytes fit the limit and the file kept
      its length and time stamp; then exactly those bytes were written and hashed. */
  method StreamToTemp(hash: Hash, source: Source, maximum: nat)
    returns (written: string, streamed: Result<(string, nat), CasError>)
    ensures var all := Concat(source.chunks);
            && written <= all && |written| <= maximum
            && (|all| > maximum ==> streamed == Err(SizeLimitExceeded))
            && (|all| <= maximum && Unchanged(source, |all|) ==> streamed == Ok((hash(all), |all|)))
            && (|all| <= maximum && !Unchanged(source, |all|) ==> streamed == Err(SourceChanged))
            && (streamed.Ok? ==> written == all)
  {
    var hashed, byteLength, i := "", 0, 0;
    written := "";
    while i < |source.chunks|
      invariant 0 <= i <= |source.chunks|
      invariant written == hashed == Concat(source.chunks[..i]) && byteLength == |written| <= maximum
      invariant written <= Concat(source.chunks)
    {
      var buffer := source.chunks[i];
      ConcatPrefix(source.chunks, i);
      var nextLength := byteLength + |buffer|;
      if nextLength > maximum { return written, Err(SizeLimitExceeded); }
      written := written + buffer;
      hashed := hashed + buffer;
      byteLength := nextLength;
      i := i + 1;
    }
    assert source.chunks[..i] == source.chunks;
    if source.finalLength != source.initialLength || source.finalLength != byteLength || !source.sameModified {
      return written, Err(SourceChanged);
    }
    streamed := Ok((hash(hashed), byteLength));
  }

  class CasStore {
    const hash: Hash
    const maximum: nat
    var names: map<Name, nat>
    var contents: map<nat, string>
    var nextInode: nat

    /** Objects hash to their names, and inodes are handed out once. */
    ghost predicate Valid()
      reads this
    {
      && (forall n :: n in names ==> names[n] in contents)
      && (forall n :: n in contents ==> n < nextInode)
      && (forall d :: Object(d) in names ==> hash(contents[names[Object(d)]]) == d)
    }

    constructor (hash: Hash, maximum: nat)
      ensures Valid() && this.hash == hash && this.maximum == maximum && names == map[]
    {
      this.hash, this.maximum := hash, maximum;
      names, contents, nextInode := map[], map[], 0;
    }

    /** The bytes a name reads as. */
    function Bytes(n: Name): string
      requires n in names && names[n] in contents
      reads this
    {
      contents[names[n]]
    }

    /** `create_temporary`: the first generated name that nobody holds. */
    method CreateTemporary(process: nat, suffixes: seq<nat>) returns (temporary: Option<Name>)
      requires Valid()
      modifies this
      ensures Valid()
      ensures temporary.None? <==> forall i :: 0 <= i < |suffixes| ==> Temporary(process, suffixes[i]) in old(names)
      ensures temporary.None? ==> names == old(names) && contents == old(contents) && nextInode == old(nextInode)
      ensures temporary.Some? ==>
                && temporary.value.Temporary? && temporary.value !in old(names)
                && names == old(names)[temporary.value := old(nextInode)]
                && contents == old(contents)[old(nextInode) := ""] && nextInode == old(nextInode) + 1
    {
      var i := 0;
      while i < |suffixes|
        invariant 0 <= i <= |suffixes|
        invariant forall j :: 0 <= j < i ==> Temporary(process, suffixes[j]) in names
        invariant names == old(names) && contents == old(contents) && nextInode == old(nextInode)
      {
        var path := Temporary(process, suffixes[i]);
        if path !in names {
          names := names[path := nextInode];
          contents := contents[nextInode := ""];
          nextInode := nextInode + 1;
          return Some(path);
        }
        i := i + 1;
      }
      temporary := None;
    }

    /** `publish_temporary` after its sync: link if absent, unlink, and verify what was there. */
    method PublishTemporary(temporary: Name, digest: string, byteLength: nat)
      returns (published: Result<(string, nat), CasError>)
      requires Valid() && temporary.Temporary? && temporary in names
      requires hash(Bytes(temporary)) == digest && |Bytes(temporary)| == byteLength
      modifies this`names
      ensures Valid()
      ensures names == if Object(digest) in old(names) then old(names) - {temporary}
                       else old(names)[Object(digest) := old(names)[temporary]] - {temporary}
      ensures published.Ok? ==> published.value == (digest, byteLength) && |Bytes(Object(digest))| == byteLength
      ensures published.Err? ==> Object(digest) in old(names) && |old(Bytes(Object(digest)))| != byteLength
    {
      if Object(digest) !in names {
        names := names[Object(digest) := names[temporary]];
        names := names - {temporary};
        return Ok((digest, byteLength));
      }
      names := names - {temporary};
      if |Bytes(Object(digest))| != byteLength || hash(Bytes(Object(digest))) != digest { return Err(CorruptObject); }
      published := Ok((digest, byteLength));
    }

    /** `adopt_open_file`: whatever happens no temporary name is left and no object
        changes; on success the digest reads back as exactly the source's bytes. */
    method AdoptOpenFile(process: nat, suffixes: seq<nat>, source: Source)
      returns (adopted: Result<(string, nat), CasError>)
      requires Valid() && CollisionFree(hash)
      modifies this
      ensures Valid()
      ensures forall n :: n in old(names) ==> n in names && Bytes(n) == old(Bytes(n))
      ensures forall n :: n in names && n !in old(names) ==> adopted.Ok? && n == Object(adopted.value.0)
      ensures var all := Concat(source.chunks);
              && (adopted.Ok? ==> adopted.value == (hash(all), |all|) && Object(hash(all)) in names && Bytes(Object(hash(all))) == all)
              && (adopted.Ok? <==> |all| <= maximum && Unchanged(source, |all|)
                                   && exists i :: 0 <= i < |suffixes| && Temporary(process, suffixes[i]) !in old(names))
    {
      if source.initialLength > maximum { return Err(SizeLimitExceeded); }
      var temporary := CreateTemporary(process, suffixes);
      if temporary.None? { return Err(NoTemporaryName); }
      var path := temporary.value;
      var inode := names[path];
      var written, streamed := StreamToTemp(hash, source, maximum);
      contents := contents[inode := written];
      if streamed.Err? {
        names := names - {path};
        return Err(streamed.error);
      }
      adopted := PublishTemporary(path, streamed.value.0, streamed.value.1);
    }
  }
}
