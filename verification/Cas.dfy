/** The content-addressed store as a concurrent publication protocol on a file system
    where names share inodes.

    An adopter writes a private temporary file, syncs and closes it, links it to its
    digest's name if that name is absent, syncs the two directories, and unlinks the
    temporary name. Any number of adopters interleave; each may crash anywhere, and
    power may fail, which leaves only what has been written back. */
module Cas {
  import opened Basics

  type Hash = string -> string

  ghost predicate CollisionFree(hash: Hash) { forall a: string, b: string :: hash(a) == hash(b) ==> a == b }

  datatype Name = Temporary(process: nat, suffix: nat) | Object(digest: string)

  /** The first two hexadecimal digits name an object's directory. */
  function Directory(digest: string): string {
    if |digest| <= 2 then digest else digest[..2]
  }

  /** What survives a power loss: contents, directory entries, and prefix directories. */
  datatype Disk = Disk(contents: map<nat, string>, entries: map<Name, nat>, directories: set<string>)

  datatype Phase =
    | Writing | Hashing | Closing | Synced | Prepared | Linked | ParentSynced | RootSynced
    | Exists | Verifying | Cleanup | Finished(ok: bool)

  datatype Adopter = Adopter(temporary: Name, inode: nat, fed: string, pending: string, phase: Phase)

  /** `stale` collects the temporary names that crashes left behind. */
  datatype Store = Store(
    names: map<Name, nat>, contents: map<nat, string>, directories: set<string>, nextInode: nat,
    disk: Disk, adopters: map<int, Adopter>, stale: set<Name>)

  datatype Event =
    | Create(adopter: int, temporary: Name)
    | WriteChunk(adopter: int, chunk: string)
    | TearChunk(adopter: int, chunk: string)
    | HashChunk(adopter: int)
    | EndStream(adopter: int)
    | SyncFile(adopter: int)
    | PrepareParent(adopter: int)
    | LinkObject(adopter: int)
    | SyncParent(adopter: int)
    | SyncRoot(adopter: int)
    | Unlink(adopter: int)
    | Verify(adopter: int)
    | Fail(adopter: int)
    | Crash(adopter: int)
    | WriteBackContent(inode: nat)
    | WriteBackEntry(name: Name)
    | WriteBackDirectory(directory: string)
    | PowerLoss

  predicate In(s: Store, i: int, phase: Phase) { i in s.adopters && s.adopters[i].phase == phase }

  /** Phases in which a failed step removes the temporary name and gives up. */
  predicate CanFail(phase: Phase) {
    phase == Writing || phase == Closing || phase == Synced || phase == Prepared || phase == Linked || phase == ParentSynced
  }

  predicate Enabled(hash: Hash, s: Store, e: Event) {
    match e
    case Create(i, t) => i !in s.adopters && t.Temporary? && t !in s.names
    case WriteChunk(i, _) => In(s, i, Writing)
    case TearChunk(i, _) => In(s, i, Writing)
    case HashChunk(i) => In(s, i, Hashing)
    case EndStream(i) => In(s, i, Writing)
    case SyncFile(i) => In(s, i, Closing)
    case PrepareParent(i) => In(s, i, Synced)
    case LinkObject(i) => In(s, i, Prepared)
    case SyncParent(i) => In(s, i, Linked)
    case SyncRoot(i) => In(s, i, ParentSynced)
    case Unlink(i) => In(s, i, RootSynced) || In(s, i, Exists) || In(s, i, Cleanup)
    case Verify(i) => In(s, i, Verifying)
    case Fail(i) => i in s.adopters && CanFail(s.adopters[i].phase)
    case Crash(i) => i in s.adopters
    case WriteBackContent(n) => n in s.contents
    case WriteBackEntry(_) => true
    case WriteBackDirectory(d) => d in s.directories
    case PowerLoss => true
  }

  function Set(s: Store, i: int, a: Adopter): Store { s.(adopters := s.adopters[i := a]) }

  function Content(s: Store, inode: nat): string {
    if inode in s.contents then s.contents[inode] else ""
  }

  /** Appending through the adopter's open file. */
  function Append(s: Store, inode: nat, chunk: string): Store {
    s.(contents := s.contents[inode := Content(s, inode) + chunk])
  }

  /** `verify_object`: the name resolves and its bytes hash to it at the adopted length. */
  predicate Verifies(hash: Hash, s: Store, digest: string, length: nat) {
    Readable(hash, s, digest) && |Content(s, s.names[Object(digest)])| == length
  }

  /** `read_verified` succeeds. */
  predicate Readable(hash: Hash, s: Store, digest: string) {
    Object(digest) in s.names && Directory(digest) in s.directories
    && hash(Content(s, s.names[Object(digest)])) == digest
  }

  /** `sync_directory` on a prefix directory. */
  function ParentEntries(s: Store, directory: string): map<Name, nat> {
    map n | n in s.names.Keys + s.disk.entries.Keys
            && (if n.Object? && Directory(n.digest) == directory then n in s.names else n in s.disk.entries) ::
      if n.Object? && Directory(n.digest) == directory then s.names[n] else s.disk.entries[n]
  }

  /** `sync_directory` on the objects root: temporary names and prefix directories. */
  function RootEntries(s: Store): map<Name, nat> {
    map n | n in s.names.Keys + s.disk.entries.Keys && (if n.Temporary? then n in s.names else n in s.disk.entries) ::
      if n.Temporary? then s.names[n] else s.disk.entries[n]
  }

  function Surviving(s: Store): map<Name, nat> {
    map n | n in s.disk.entries && (n.Object? ==> Directory(n.digest) in s.disk.directories) :: s.disk.entries[n]
  }

  function Apply(hash: Hash, s: Store, e: Event): Store
    requires Enabled(hash, s, e)
  {
    match e
    case Create(i, t) =>
      s.(names := s.names[t := s.nextInode], contents := s.contents[s.nextInode := ""], nextInode := s.nextInode + 1,
         adopters := s.adopters[i := Adopter(t, s.nextInode, "", "", Writing)])
    case WriteChunk(i, chunk) =>
      var a := s.adopters[i];
      Set(Append(s, a.inode, chunk), i, a.(pending := chunk, phase := Hashing))
    case TearChunk(i, chunk) =>
      var a := s.adopters[i];
      Set(Append(s, a.inode, chunk), i, a.(phase := Cleanup))
    case HashChunk(i) =>
      var a := s.adopters[i];
      Set(s, i, a.(fed := a.fed + a.pending, pending := "", phase := Writing))
    case EndStream(i) => Set(s, i, s.adopters[i].(phase := Closing))
    case SyncFile(i) =>
      var a := s.adopters[i];
      Set(s.(disk := s.disk.(contents := s.disk.contents[a.inode := Content(s, a.inode)])), i, a.(phase := Synced))
    case PrepareParent(i) =>
      var a := s.adopters[i];
      Set(s.(directories := s.directories + {Directory(hash(a.fed))}), i, a.(phase := Prepared))
    case LinkObject(i) =>
      var a := s.adopters[i];
      var name := Object(hash(a.fed));
      if name in s.names then Set(s, i, a.(phase := Exists))
      else Set(s.(names := s.names[name := a.inode]), i, a.(phase := Linked))
    case SyncParent(i) =>
      var a := s.adopters[i];
      Set(s.(disk := s.disk.(entries := ParentEntries(s, Directory(hash(a.fed))))), i, a.(phase := ParentSynced))
    case SyncRoot(i) =>
      Set(s.(disk := s.disk.(entries := RootEntries(s), directories := s.directories)), i,
          s.adopters[i].(phase := RootSynced))
    case Unlink(i) =>
      var a := s.adopters[i];
      var phase := if a.phase == RootSynced then Finished(true) else if a.phase == Exists then Verifying else Finished(false);
      Set(s.(names := s.names - {a.temporary}), i, a.(phase := phase))
    case Verify(i) =>
      var a := s.adopters[i];
      Set(s, i, a.(phase := Finished(Verifies(hash, s, hash(a.fed), |a.fed|))))
    case Fail(i) => Set(s, i, s.adopters[i].(phase := Cleanup))
    case Crash(i) =>
      s.(adopters := s.adopters - {i}, stale := if Owns(s.adopters[i].phase) then s.stale + {s.adopters[i].temporary} else s.stale)
    case WriteBackContent(n) => s.(disk := s.disk.(contents := s.disk.contents[n := s.contents[n]]))
    case WriteBackEntry(n) =>
      s.(disk := s.disk.(entries := if n in s.names then s.disk.entries[n := s.names[n]] else s.disk.entries - {n}))
    case WriteBackDirectory(d) => s.(disk := s.disk.(directories := s.disk.directories + {d}))
    case PowerLoss =>
      s.(names := Surviving(s), contents := s.disk.contents, directories := s.disk.directories, adopters := map[],
         disk := s.disk.(entries := Surviving(s)),
         stale := set n | n in s.disk.entries && n.Temporary?)
  }

  /** The adopter has not unlinked its temporary name yet. */
  predicate Owns(phase: Phase) { phase != Verifying && !phase.Finished? }

  predicate OpenForWriting(phase: Phase) { phase == Writing || phase == Hashing || phase == Closing }

  // ------------------------------------------------------------- invariant

  /** An object's bytes hash to its name and are already on disk. */
  predicate ObjectOk(hash: Hash, s: Store, digest: string)
    requires Object(digest) in s.names
  {
    var n := s.names[Object(digest)];
    && n in s.contents && hash(s.contents[n]) == digest && n in s.disk.contents && s.disk.contents[n] == s.contents[n]
    && n < s.nextInode && Directory(digest) in s.directories
  }

  ghost predicate ObjectsOk(hash: Hash, s: Store) {
    forall d :: Object(d) in s.names ==> ObjectOk(hash, s, d)
  }

  ghost predicate Bounded(s: Store) {
    && (forall n :: n in s.contents ==> n < s.nextInode)
    && (forall n :: n in s.disk.contents ==> n < s.nextInode)
    && (forall n :: n in s.names ==> s.names[n] < s.nextInode)
    && (forall n :: n in s.disk.entries ==> s.disk.entries[n] < s.nextInode)
  }

  /** Directory entries on disk only name objects that are there, and directories that exist. */
  ghost predicate DiskOk(s: Store) {
    && (forall d :: Object(d) in s.disk.entries ==>
          Object(d) in s.names && s.names[Object(d)] == s.disk.entries[Object(d)])
    && s.disk.directories <= s.directories
  }

  /** What an adopter has in its file, and how far its object has got. */
  predicate AdopterOk(hash: Hash, s: Store, a: Adopter) {
    && a.temporary.Temporary? && a.inode in s.contents
    && (a.phase == Hashing ==> s.contents[a.inode] == a.fed + a.pending)
    && (a.phase != Hashing && a.phase != Cleanup && a.phase != Finished(false) ==> s.contents[a.inode] == a.fed)
    && (Owns(a.phase) ==> a.temporary in s.names && s.names[a.temporary] == a.inode)
    && (a.phase == Synced || a.phase == Prepared || a.phase == Linked || a.phase == ParentSynced || a.phase == RootSynced ==>
          a.inode in s.disk.contents && s.disk.contents[a.inode] == s.contents[a.inode])
    && (a.phase == Prepared || a.phase == Linked || a.phase == ParentSynced || a.phase == RootSynced ==>
          Directory(hash(a.fed)) in s.directories)
    && (a.phase == Linked || a.phase == ParentSynced || a.phase == RootSynced || a.phase == Finished(true) ==>
          Object(hash(a.fed)) in s.names)
    && (a.phase == ParentSynced || a.phase == RootSynced ==> Object(hash(a.fed)) in s.disk.entries)
    && (a.phase == RootSynced ==> Directory(hash(a.fed)) in s.disk.directories)
  }

  ghost predicate AdoptersOk(hash: Hash, s: Store) {
    forall i :: i in s.adopters ==> AdopterOk(hash, s, s.adopters[i])
  }

  ghost predicate FilesDistinct(s: Store) {
    forall i, j :: i in s.adopters && j in s.adopters && s.adopters[i].inode == s.adopters[j].inode ==> i == j
  }

  ghost predicate WritersUnnamed(s: Store) {
    forall i, d :: i in s.adopters && OpenForWriting(s.adopters[i].phase) && Object(d) in s.names ==>
      s.names[Object(d)] != s.adopters[i].inode
  }

  /** No two adopters share a file, and no file open for writing has an object name. */
  ghost predicate Unaliased(s: Store) { FilesDistinct(s) && WritersUnnamed(s) }

  /** Every temporary name belongs to an adopter that will unlink it, or was left by a crash. */
  ghost predicate TemporariesOwned(s: Store) {
    forall n :: n in s.names && n.Temporary? && n !in s.stale ==>
      exists i :: i in s.adopters && s.adopters[i].temporary == n && Owns(s.adopters[i].phase)
  }

  ghost predicate Sound(hash: Hash, s: Store) {
    ObjectsOk(hash, s) && Bounded(s) && DiskOk(s) && AdoptersOk(hash, s) && Unaliased(s) && TemporariesOwned(s)
  }

  lemma ObjectsStayOk(hash: Hash, s: Store, e: Event)
    requires Sound(hash, s) && Enabled(hash, s, e)
    ensures ObjectsOk(hash, Apply(hash, s, e))
  {
  }

  lemma StaysBounded(hash: Hash, s: Store, e: Event)
    requires Sound(hash, s) && Enabled(hash, s, e)
    ensures Bounded(Apply(hash, s, e))
  {
  }

  lemma DiskStaysOk(hash: Hash, s: Store, e: Event)
    requires Sound(hash, s) && Enabled(hash, s, e)
    ensures DiskOk(Apply(hash, s, e))
  {
  }

  predicate ByAdopter(e: Event) {
    !e.Create? && !e.WriteBackContent? && !e.WriteBackEntry? && !e.WriteBackDirectory? && !e.PowerLoss?
  }

  lemma OneIsOk(hash: Hash, s: Store, j: int)
    requires AdoptersOk(hash, s) && j in s.adopters
    ensures AdopterOk(hash, s, s.adopters[j])
  {
  }

  lemma FileStepOk(hash: Hash, s: Store, e: Event)
    requires Sound(hash, s) && Enabled(hash, s, e)
    requires e.WriteChunk? || e.TearChunk? || e.HashChunk? || e.EndStream? || e.Fail? || e.SyncFile?
    ensures AdopterOk(hash, Apply(hash, s, e), Apply(hash, s, e).adopters[e.adopter])
  {
    hide ObjectsOk, Bounded, DiskOk, AdoptersOk, Unaliased, TemporariesOwned;
    OneIsOk(hash, s, e.adopter);
  }

  lemma PublishStepOk(hash: Hash, s: Store, e: Event)
    requires Sound(hash, s) && Enabled(hash, s, e)
    requires e.PrepareParent? || e.LinkObject?
    ensures AdopterOk(hash, Apply(hash, s, e), Apply(hash, s, e).adopters[e.adopter])
  {
    hide ObjectsOk, Bounded, DiskOk, AdoptersOk, Unaliased, TemporariesOwned;
    OneIsOk(hash, s, e.adopter);
  }

  lemma UnlinkOk(hash: Hash, s: Store, e: Event)
    requires Sound(hash, s) && Enabled(hash, s, e) && e.Unlink?
    ensures AdopterOk(hash, Apply(hash, s, e), Apply(hash, s, e).adopters[e.adopter])
  {
    hide ObjectsOk, Bounded, DiskOk, AdoptersOk, Unaliased, TemporariesOwned;
    OneIsOk(hash, s, e.adopter);
  }

  lemma VerifyOk(hash: Hash, s: Store, e: Event)
    requires Sound(hash, s) && Enabled(hash, s, e) && e.Verify?
    ensures AdopterOk(hash, Apply(hash, s, e), Apply(hash, s, e).adopters[e.adopter])
  {
    hide ObjectsOk, Bounded, DiskOk, AdoptersOk, Unaliased, TemporariesOwned;
    OneIsOk(hash, s, e.adopter);
  }

  lemma DirectorySyncOk(hash: Hash, s: Store, e: Event)
    requires Sound(hash, s) && Enabled(hash, s, e) && (e.SyncParent? || e.SyncRoot?)
    ensures AdopterOk(hash, Apply(hash, s, e), Apply(hash, s, e).adopters[e.adopter])
  {
    hide ObjectsOk, Bounded, AdoptersOk, Unaliased, TemporariesOwned;
    OneIsOk(hash, s, e.adopter);
  }

  lemma OtherStaysOk(hash: Hash, s: Store, e: Event, j: int)
    requires Sound(hash, s) && Enabled(hash, s, e) && ByAdopter(e) && j in s.adopters && j != e.adopter
    ensures j in Apply(hash, s, e).adopters && AdopterOk(hash, Apply(hash, s, e), Apply(hash, s, e).adopters[j])
  {
    hide ObjectsOk, Bounded, AdoptersOk, WritersUnnamed, TemporariesOwned;
    OneIsOk(hash, s, j);
    OneIsOk(hash, s, e.adopter);
  }

  lemma SystemStepKeepsAdopters(hash: Hash, s: Store, e: Event, j: int)
    requires Sound(hash, s) && Enabled(hash, s, e) && !ByAdopter(e) && j in Apply(hash, s, e).adopters
    ensures AdopterOk(hash, Apply(hash, s, e), Apply(hash, s, e).adopters[j])
  {
    hide ObjectsOk, AdoptersOk, Unaliased, TemporariesOwned;
    if j in s.adopters {
      OneIsOk(hash, s, j);
    }
  }

  lemma AdoptersStayOk(hash: Hash, s: Store, e: Event)
    requires Sound(hash, s) && Enabled(hash, s, e)
    ensures AdoptersOk(hash, Apply(hash, s, e))
  {
    hide Sound, AdopterOk;
    var after := Apply(hash, s, e);
    forall j | j in after.adopters
      ensures AdopterOk(hash, after, after.adopters[j])
    {
      if !ByAdopter(e) {
        SystemStepKeepsAdopters(hash, s, e, j);
      } else if j != e.adopter {
        OtherStaysOk(hash, s, e, j);
      } else if e.WriteChunk? || e.TearChunk? || e.HashChunk? || e.EndStream? || e.Fail? || e.SyncFile? {
        FileStepOk(hash, s, e);
      } else if e.SyncParent? || e.SyncRoot? {
        DirectorySyncOk(hash, s, e);
      } else if e.Unlink? {
        UnlinkOk(hash, s, e);
      } else if e.Verify? {
        VerifyOk(hash, s, e);
      } else if !e.Crash? {
        PublishStepOk(hash, s, e);
      }
    }
  }

  lemma FilesStayDistinct(hash: Hash, s: Store, e: Event)
    requires Sound(hash, s) && Enabled(hash, s, e)
    ensures FilesDistinct(Apply(hash, s, e))
  {
    hide ObjectsOk, DiskOk, TemporariesOwned, WritersUnnamed, ParentEntries, RootEntries, Surviving;
  }

  lemma WritersStayUnnamed(hash: Hash, s: Store, e: Event)
    requires Sound(hash, s) && Enabled(hash, s, e)
    ensures WritersUnnamed(Apply(hash, s, e))
  {
    hide ObjectsOk, DiskOk, TemporariesOwned, AdoptersOk, ParentEntries, RootEntries, Surviving;
  }

  lemma StaysUnaliased(hash: Hash, s: Store, e: Event)
    requires Sound(hash, s) && Enabled(hash, s, e)
    ensures Unaliased(Apply(hash, s, e))
  {
    hide Sound, FilesDistinct, WritersUnnamed, Apply, Enabled;
    FilesStayDistinct(hash, s, e);
    WritersStayUnnamed(hash, s, e);
  }

  lemma TemporariesStayOwned(hash: Hash, s: Store, e: Event)
    requires Sound(hash, s) && Enabled(hash, s, e)
    ensures TemporariesOwned(Apply(hash, s, e))
  {
    hide ObjectsOk, AdoptersOk, Unaliased, Bounded, DiskOk, ParentEntries, RootEntries;
    var after := Apply(hash, s, e);
    forall n | n in after.names && n.Temporary? && n !in after.stale
      ensures exists i :: i in after.adopters && after.adopters[i].temporary == n && Owns(after.adopters[i].phase)
    {
      if e.Create? && n == e.temporary {
        assert after.adopters[e.adopter].temporary == n;
      } else if !e.PowerLoss? {
        var i :| i in s.adopters && s.adopters[i].temporary == n && Owns(s.adopters[i].phase);
        assert i in after.adopters && after.adopters[i].temporary == n;
      }
    }
  }

  /** Any interleaving, crash, write-back or power loss keeps the store sound. */
  lemma EventKeepsSound(hash: Hash, s: Store, e: Event)
    requires Sound(hash, s) && Enabled(hash, s, e)
    ensures Sound(hash, Apply(hash, s, e))
  {
    hide ObjectsOk, AdoptersOk, Unaliased, Bounded, DiskOk, TemporariesOwned, Apply, Enabled;
    ObjectsStayOk(hash, s, e);
    StaysBounded(hash, s, e);
    DiskStaysOk(hash, s, e);
    AdoptersStayOk(hash, s, e);
    StaysUnaliased(hash, s, e);
    TemporariesStayOwned(hash, s, e);
  }

  // ------------------------------------------------------------------- runs

  ghost predicate IsRun(hash: Hash, s: Store, events: seq<Event>)
    decreases |events|
  {
    events == [] || (Enabled(hash, s, events[0]) && IsRun(hash, Apply(hash, s, events[0]), events[1..]))
  }

  function After(hash: Hash, s: Store, events: seq<Event>): Store
    requires IsRun(hash, s, events)
    decreases |events|
  {
    if events == [] then s else After(hash, Apply(hash, s, events[0]), events[1..])
  }

  const EMPTY := Store(map[], map[], {}, 0, Disk(map[], map[], {}), map[], {})

  lemma EmptyIsSound(hash: Hash)
    ensures Sound(hash, EMPTY)
  {
  }

  lemma {:induction false} RunKeepsSound(hash: Hash, s: Store, events: seq<Event>)
    requires Sound(hash, s) && IsRun(hash, s, events)
    ensures Sound(hash, After(hash, s, events))
    decreases |events|
  {
    hide Sound, Enabled, Apply;
    if events != [] {
      EventKeepsSound(hash, s, events[0]);
      RunKeepsSound(hash, Apply(hash, s, events[0]), events[1..]);
    }
  }

  /** A published name keeps its inode, and the inode its bytes, whatever happens next;
      only a power loss can take the name away. */
  lemma PublishedStays(hash: Hash, s: Store, e: Event, digest: string)
    requires Sound(hash, s) && Enabled(hash, s, e) && Object(digest) in s.names
    ensures var after := Apply(hash, s, e);
            && (!e.PowerLoss? ==> Object(digest) in after.names)
            && (Object(digest) in after.names ==>
                  after.names[Object(digest)] == s.names[Object(digest)]
                  && Content(after, after.names[Object(digest)]) == Content(s, s.names[Object(digest)]))
  {
    assert ObjectOk(hash, s, digest);
    if e.WriteChunk? || e.TearChunk? {
      WriterIsPrivate(hash, s, e.adopter, digest);
    }
    hide AdoptersOk, Bounded, TemporariesOwned, ObjectsOk, Unaliased;
  }

  /** No open writer shares a published inode. */
  lemma WriterIsPrivate(hash: Hash, s: Store, i: int, digest: string)
    requires Sound(hash, s) && i in s.adopters && OpenForWriting(s.adopters[i].phase) && Object(digest) in s.names
    ensures s.names[Object(digest)] != s.adopters[i].inode
  {
    hide ObjectsOk, AdoptersOk, Bounded, DiskOk, TemporariesOwned;
  }

  lemma {:induction false} PublishedStaysForever(hash: Hash, s: Store, events: seq<Event>, digest: string)
    requires Sound(hash, s) && IsRun(hash, s, events) && Object(digest) in s.names
    requires PowerLoss !in events
    ensures var after := After(hash, s, events);
            Object(digest) in after.names
            && Content(after, after.names[Object(digest)]) == Content(s, s.names[Object(digest)])
    decreases |events|
  {
    hide Sound, Enabled, Apply, Content;
    if events != [] {
      PublishedStays(hash, s, events[0], digest);
      EventKeepsSound(hash, s, events[0]);
      PublishedStaysForever(hash, Apply(hash, s, events[0]), events[1..], digest);
    }
  }

  /** A store that answered Ok can, at any later time short of a power loss, read back
      exactly the bytes it was given. */
  lemma OkIsReadable(hash: Hash, s: Store, i: int, events: seq<Event>)
    requires CollisionFree(hash) && Sound(hash, s) && In(s, i, Finished(true)) && IsRun(hash, s, events)
             && PowerLoss !in events
    ensures var fed := s.adopters[i].fed;
            var after := After(hash, s, events);
            Readable(hash, after, hash(fed)) && Content(after, after.names[Object(hash(fed))]) == fed
  {
    var digest := hash(s.adopters[i].fed);
    assert AdopterOk(hash, s, s.adopters[i]);
    RunKeepsSound(hash, s, events);
    PublishedStaysForever(hash, s, events, digest);
    var after := After(hash, s, events);
    assert ObjectOk(hash, after, digest);
    hide Sound, AdoptersOk, ObjectsOk;
  }

  // ------------------------------------------------------------- temporaries

  predicate IsCrash(e: Event) { e.Crash? || e.PowerLoss? }

  lemma {:induction false} OnlyCrashesLeaveTemporaries(hash: Hash, s: Store, events: seq<Event>)
    requires IsRun(hash, s, events) && forall i :: 0 <= i < |events| ==> !IsCrash(events[i])
    ensures After(hash, s, events).stale == s.stale
    decreases |events|
  {
    if events != [] {
      assert !IsCrash(events[0]);
      assert Apply(hash, s, events[0]).stale == s.stale;
      OnlyCrashesLeaveTemporaries(hash, Apply(hash, s, events[0]), events[1..]);
    }
  }

  /** Without crashes, once every adopter has answered no temporary name is left,
      however each of them ended. */
  lemma QuietStoreIsClean(hash: Hash, events: seq<Event>, n: Name)
    requires IsRun(hash, EMPTY, events) && forall i :: 0 <= i < |events| ==> !IsCrash(events[i])
    requires var after := After(hash, EMPTY, events);
             forall i :: i in after.adopters ==> after.adopters[i].phase.Finished?
    ensures n in After(hash, EMPTY, events).names ==> n.Object?
  {
    EmptyIsSound(hash);
    RunKeepsSound(hash, EMPTY, events);
    OnlyCrashesLeaveTemporaries(hash, EMPTY, events);
    hide IsRun, After, ObjectsOk, AdoptersOk, Unaliased, Bounded, DiskOk;
  }

  // -------------------------------------------------------------- durability

  /** Both directory entries on the way to the object have been written back. */
  predicate Durable(s: Store, digest: string) {
    Object(digest) in s.disk.entries && Directory(digest) in s.disk.directories
  }

  /** A power loss keeps exactly the durable objects, with their bytes. */
  lemma PowerLossKeepsDurable(hash: Hash, s: Store, digest: string)
    requires Sound(hash, s) && Object(digest) in s.names
    ensures var after := Apply(hash, s, PowerLoss);
            && (Readable(hash, after, digest) <==> Durable(s, digest))
            && (Durable(s, digest) ==>
                  Content(after, after.names[Object(digest)]) == Content(s, s.names[Object(digest)])
                  && Durable(after, digest))
  {
    assert ObjectOk(hash, s, digest);
    hide AdoptersOk, Bounded, TemporariesOwned, Unaliased, ObjectsOk;
  }

  lemma DurableStays(hash: Hash, s: Store, e: Event, digest: string)
    requires Sound(hash, s) && Enabled(hash, s, e) && Durable(s, digest)
    ensures Durable(Apply(hash, s, e), digest)
  {
    hide AdoptersOk, Bounded, TemporariesOwned, Unaliased, ObjectsOk;
  }

  /** An adopter that linked the object itself answers only once it is durable. */
  lemma LinkerIsDurable(hash: Hash, s: Store, i: int)
    requires Sound(hash, s) && In(s, i, RootSynced)
    ensures Durable(s, hash(s.adopters[i].fed)) && Apply(hash, s, Unlink(i)).adopters[i].phase == Finished(true)
    ensures Durable(Apply(hash, s, Unlink(i)), hash(s.adopters[i].fed))
  {
    assert AdopterOk(hash, s, s.adopters[i]);
  }

  /** One event, power loss included, leaves a durable object durable and its bytes alone. */
  lemma DurableKept(hash: Hash, s: Store, e: Event, digest: string)
    requires Sound(hash, s) && Enabled(hash, s, e) && Durable(s, digest)
    ensures var after := Apply(hash, s, e);
            && Object(digest) in s.names && Object(digest) in after.names && Durable(after, digest)
            && Content(after, after.names[Object(digest)]) == Content(s, s.names[Object(digest)])
  {
    hide Sound, Durable, Apply, Content, Enabled;
    DurableIsNamed(hash, s, digest);
    DurableStays(hash, s, e, digest);
    EventKeepsSound(hash, s, e);
    DurableIsNamed(hash, Apply(hash, s, e), digest);
    PublishedStays(hash, s, e, digest);
  }

  lemma DurableIsNamed(hash: Hash, s: Store, digest: string)
    requires Sound(hash, s) && Durable(s, digest)
    ensures Object(digest) in s.names
  {
  }

  lemma {:induction false} DurableForever(hash: Hash, s: Store, events: seq<Event>, digest: string)
    requires Sound(hash, s) && IsRun(hash, s, events) && Durable(s, digest)
    ensures var after := After(hash, s, events);
            && Object(digest) in s.names && Object(digest) in after.names
            && Content(after, after.names[Object(digest)]) == Content(s, s.names[Object(digest)])
    decreases |events|
  {
    hide Sound, Enabled, Apply, Content, Durable;
    if events == [] {
      DurableIsNamed(hash, s, digest);
    } else {
      DurableKept(hash, s, events[0], digest);
      EventKeepsSound(hash, s, events[0]);
      DurableForever(hash, Apply(hash, s, events[0]), events[1..], digest);
    }
  }

  /** The Ok of an adopter that linked its object is final: after any further crashes,
      write-backs and power losses the digest still reads back as exactly its bytes. */
  lemma LinkedOkIsForever(hash: Hash, s: Store, i: int, events: seq<Event>)
    requires CollisionFree(hash) && Sound(hash, s) && In(s, i, RootSynced)
             && IsRun(hash, Apply(hash, s, Unlink(i)), events)
    ensures var fed := s.adopters[i].fed;
            var after := After(hash, Apply(hash, s, Unlink(i)), events);
            && Apply(hash, s, Unlink(i)).adopters[i].phase == Finished(true)
            && Readable(hash, after, hash(fed)) && Content(after, after.names[Object(hash(fed))]) == fed
  {
    hide Sound, IsRun, After, Apply, Content;
    var digest := hash(s.adopters[i].fed);
    LinkerIsDurable(hash, s, i);
    var answered := Apply(hash, s, Unlink(i));
    EventKeepsSound(hash, s, Unlink(i));
    DurableForever(hash, answered, events, digest);
    RunKeepsSound(hash, answered, events);
    ObjectReads(hash, After(hash, answered, events), digest);
  }

  /** In a sound store every object name reads back as the one text it is the hash of. */
  lemma ObjectReads(hash: Hash, s: Store, digest: string)
    requires Sound(hash, s) && Object(digest) in s.names
    ensures Readable(hash, s, digest) && hash(Content(s, s.names[Object(digest)])) == digest
  {
    assert ObjectOk(hash, s, digest);
  }

  // ------------------------------------------------ what makes an Ok durable

  /** The event writes the object's entry in its prefix directory back: that directory is
      synced, or the system flushes the entry by itself. */
  predicate FlushesEntry(hash: Hash, s: Store, e: Event, digest: string)
    requires Enabled(hash, s, e)
  {
    || e == WriteBackEntry(Object(digest))
    || (e.SyncParent? && Directory(hash(s.adopters[e.adopter].fed)) == Directory(digest))
  }

  /** The event writes the prefix directory's own entry back. */
  predicate FlushesDirectory(e: Event, digest: string) {
    e.SyncRoot? || e == WriteBackDirectory(Directory(digest))
  }

  /** Some event of the run flushes the object's entry. */
  ghost predicate EntryFlushed(hash: Hash, s: Store, events: seq<Event>, digest: string)
    requires IsRun(hash, s, events)
    decreases |events|
  {
    events != []
    && (FlushesEntry(hash, s, events[0], digest) || EntryFlushed(hash, Apply(hash, s, events[0]), events[1..], digest))
  }

  /** Some event of the run flushes the prefix directory while it exists. */
  ghost predicate DirectoryFlushed(hash: Hash, s: Store, events: seq<Event>, digest: string)
    requires IsRun(hash, s, events)
    decreases |events|
  {
    events != [] && ((FlushesDirectory(events[0], digest) && Directory(digest) in s.directories)
                     || DirectoryFlushed(hash, Apply(hash, s, events[0]), events[1..], digest))
  }

  /** The object has its name after every event of the run. */
  ghost predicate StaysNamed(hash: Hash, s: Store, events: seq<Event>, digest: string)
    requires IsRun(hash, s, events)
    decreases |events|
  {
    events != [] ==> var next := Apply(hash, s, events[0]); Object(digest) in next.names && StaysNamed(hash, next, events[1..], digest)
  }

  /** Event `link` of the run is the one that gave the object the name it has had ever since. */
  ghost predicate LinkedBy(hash: Hash, before: seq<Event>, link: Event, since: seq<Event>, digest: string) {
    && IsRun(hash, EMPTY, before) && Enabled(hash, After(hash, EMPTY, before), link)
    && var unlinked := After(hash, EMPTY, before);
       var linked := Apply(hash, unlinked, link);
       && Object(digest) !in unlinked.names && Object(digest) in linked.names
       && IsRun(hash, linked, since) && StaysNamed(hash, linked, since, digest)
  }

  /** The event flushed the object's entry after its last link, and its directory at some time. */
  ghost predicate Flushed(hash: Hash, before: seq<Event>, link: Event, since: seq<Event>, digest: string)
    requires LinkedBy(hash, before, link, since, digest) && IsRun(hash, EMPTY, before + [link] + since)
  {
    && EntryFlushed(hash, Apply(hash, After(hash, EMPTY, before), link), since, digest)
    && DirectoryFlushed(hash, EMPTY, before + [link] + since, digest)
  }

  /** A directory's entry is on disk exactly after an event that flushed it. */
  lemma DirectoryStep(hash: Hash, s: Store, e: Event, digest: string)
    requires Sound(hash, s) && Enabled(hash, s, e)
    ensures Directory(digest) in Apply(hash, s, e).disk.directories
            <==> Directory(digest) in s.disk.directories || (FlushesDirectory(e, digest) && Directory(digest) in s.directories)
  {
    hide ObjectsOk, Bounded, AdoptersOk, Unaliased, TemporariesOwned, ParentEntries, RootEntries, Surviving;
  }

  lemma {:induction false} DirectoryOnDisk(hash: Hash, s: Store, events: seq<Event>, digest: string)
    requires Sound(hash, s) && IsRun(hash, s, events)
    ensures Directory(digest) in After(hash, s, events).disk.directories
            <==> Directory(digest) in s.disk.directories || DirectoryFlushed(hash, s, events, digest)
    decreases |events|
  {
    hide Sound, Enabled, Apply, FlushesDirectory;
    if events != [] {
      DirectoryStep(hash, s, events[0], digest);
      EventKeepsSound(hash, s, events[0]);
      DirectoryOnDisk(hash, Apply(hash, s, events[0]), events[1..], digest);
    }
  }

  /** While an object keeps its name, its entry is on disk exactly after an event that flushed it. */
  lemma EntryStep(hash: Hash, s: Store, e: Event, digest: string)
    requires Sound(hash, s) && Enabled(hash, s, e) && Object(digest) in s.names
             && Object(digest) in Apply(hash, s, e).names
    ensures Object(digest) in Apply(hash, s, e).disk.entries <==>
              Object(digest) in s.disk.entries || FlushesEntry(hash, s, e, digest)
  {
    hide ObjectsOk, Bounded, AdoptersOk, Unaliased, TemporariesOwned;
  }

  lemma {:induction false} EntryOnDisk(hash: Hash, s: Store, events: seq<Event>, digest: string)
    requires Sound(hash, s) && IsRun(hash, s, events) && Object(digest) in s.names
             && StaysNamed(hash, s, events, digest)
    ensures Object(digest) in After(hash, s, events).names
    ensures Object(digest) in After(hash, s, events).disk.entries
            <==> Object(digest) in s.disk.entries || EntryFlushed(hash, s, events, digest)
    decreases |events|
  {
    hide Sound, Enabled, Apply, FlushesEntry;
    if events != [] {
      EntryStep(hash, s, events[0], digest);
      EventKeepsSound(hash, s, events[0]);
      EntryOnDisk(hash, Apply(hash, s, events[0]), events[1..], digest);
    }
  }

  lemma LinkIsUnflushed(hash: Hash, s: Store, e: Event, digest: string)
    requires Sound(hash, s) && Enabled(hash, s, e) && Object(digest) !in s.names
             && Object(digest) in Apply(hash, s, e).names
    ensures e.LinkObject? && Object(digest) !in Apply(hash, s, e).disk.entries
  {
    hide ObjectsOk, Bounded, AdoptersOk, Unaliased, TemporariesOwned;
  }

  /** Whatever the run, with all its crashes and power losses, an object that has had its
      name since `link` is durable exactly when an event after the link flushed its entry
      and an event of the whole run flushed its directory. */
  lemma DurableExactly(hash: Hash, before: seq<Event>, link: Event, since: seq<Event>, digest: string)
    requires LinkedBy(hash, before, link, since, digest)
    ensures link.LinkObject? && IsRun(hash, EMPTY, before + [link] + since)
    ensures Durable(After(hash, EMPTY, before + [link] + since), digest) <==> Flushed(hash, before, link, since, digest)
  {
    hide Sound, Enabled, Apply, FlushesEntry, FlushesDirectory;
    EmptyIsSound(hash);
    RunKeepsSound(hash, EMPTY, before);
    var unlinked := After(hash, EMPTY, before);
    EventKeepsSound(hash, unlinked, link);
    LinkIsUnflushed(hash, unlinked, link, digest);
    var linked := Apply(hash, unlinked, link);
    EntryOnDisk(hash, linked, since, digest);
    OneThenRest(hash, unlinked, link, since);
    RunsJoin(hash, EMPTY, before, [link] + since);
    assert before + [link] + since == before + ([link] + since);
    DirectoryOnDisk(hash, EMPTY, before + [link] + since, digest);
  }

  lemma OneThenRest(hash: Hash, s: Store, e: Event, rest: seq<Event>)
    requires Enabled(hash, s, e) && IsRun(hash, Apply(hash, s, e), rest)
    ensures IsRun(hash, s, [e] + rest) && After(hash, s, [e] + rest) == After(hash, Apply(hash, s, e), rest)
  {
    hide Enabled, Apply;
    assert ([e] + rest)[0] == e && ([e] + rest)[1..] == rest;
  }

  lemma {:induction false} RunsJoin(hash: Hash, s: Store, a: seq<Event>, b: seq<Event>)
    requires IsRun(hash, s, a) && IsRun(hash, After(hash, s, a), b)
    ensures IsRun(hash, s, a + b) && After(hash, s, a + b) == After(hash, After(hash, s, a), b)
    decreases |a|
  {
    hide Enabled, Apply;
    if a == [] {
      assert a + b == b;
    } else {
      assert (a + b)[0] == a[0] && (a + b)[1..] == a[1..] + b;
      RunsJoin(hash, Apply(hash, s, a[0]), a[1..], b);
    }
  }

  lemma {:induction false} LastEvent(hash: Hash, s: Store, events: seq<Event>, e: Event)
    requires IsRun(hash, s, events + [e])
    ensures IsRun(hash, s, events) && Enabled(hash, After(hash, s, events), e)
    ensures After(hash, s, events + [e]) == Apply(hash, After(hash, s, events), e)
    decreases |events|
  {
    hide Enabled, Apply;
    var all := events + [e];
    if events == [] {
      assert all[0] == e && all[1..] == [];
    } else {
      assert all[0] == events[0] && all[1..] == events[1..] + [e];
      LastEvent(hash, Apply(hash, s, events[0]), events[1..], e);
    }
  }

  lemma {:induction false} StaysNamedLonger(hash: Hash, s: Store, events: seq<Event>, e: Event, digest: string)
    requires IsRun(hash, s, events) && StaysNamed(hash, s, events, digest) && Enabled(hash, After(hash, s, events), e)
    requires Object(digest) in Apply(hash, After(hash, s, events), e).names
    ensures IsRun(hash, s, events + [e]) && StaysNamed(hash, s, events + [e], digest)
    decreases |events|
  {
    hide Enabled, Apply;
    var all := events + [e];
    if events == [] {
      assert all[0] == e && all[1..] == [];
    } else {
      assert all[0] == events[0] && all[1..] == events[1..] + [e];
      StaysNamedLonger(hash, Apply(hash, s, events[0]), events[1..], e, digest);
    }
  }

  /** Every object there is has such a link. */
  lemma {:induction false} LastLink(hash: Hash, events: seq<Event>, digest: string)
    returns (before: seq<Event>, link: Event, since: seq<Event>)
    requires IsRun(hash, EMPTY, events) && Object(digest) in After(hash, EMPTY, events).names
    ensures events == before + [link] + since && LinkedBy(hash, before, link, since, digest)
    decreases |events|
  {
    hide Enabled, Apply;
    assert events != [];
    var es, e := events[..|events| - 1], events[|events| - 1];
    assert events == es + [e];
    LastEvent(hash, EMPTY, es, e);
    var s := After(hash, EMPTY, es);
    if Object(digest) !in s.names {
      before, link, since := es, e, [];
      assert events == es + [e] + [];
    } else {
      before, link, since := LastLink(hash, es, digest);
      var linked := Apply(hash, After(hash, EMPTY, before), link);
      RunsJoin(hash, EMPTY, before, [link] + since) by { OneThenRest(hash, After(hash, EMPTY, before), link, since); }
      OneThenRest(hash, After(hash, EMPTY, before), link, since);
      assert es == before + ([link] + since);
      StaysNamedLonger(hash, linked, since, e, digest);
      assert events == before + [link] + (since + [e]);
      since := since + [e];
    }
  }

  /** In every run from the empty store, what an adopter's Ok promised survives a power
      loss exactly when, since the object was linked, its entry was flushed, and its
      directory was flushed too. An adopter that found the object already there flushes
      neither: it depends on the one that linked it, or on the system. */
  lemma OkIsDurableExactly(hash: Hash, events: seq<Event>, i: int)
    returns (before: seq<Event>, link: Event, since: seq<Event>)
    requires CollisionFree(hash) && IsRun(hash, EMPTY, events) && In(After(hash, EMPTY, events), i, Finished(true))
    ensures var now := After(hash, EMPTY, events);
            var digest := hash(now.adopters[i].fed);
            && events == before + [link] + since && link.LinkObject? && LinkedBy(hash, before, link, since, digest)
            && Readable(hash, now, digest) && Content(now, now.names[Object(digest)]) == now.adopters[i].fed
            && (Readable(hash, Apply(hash, now, PowerLoss), digest) <==> Flushed(hash, before, link, since, digest))
  {
    hide Sound, Enabled, Apply, Durable, Content, Readable, AdopterOk;
    EmptyIsSound(hash);
    RunKeepsSound(hash, EMPTY, events);
    var now := After(hash, EMPTY, events);
    var digest := hash(now.adopters[i].fed);
    FinishedIsNamed(hash, now, i);
    before, link, since := LastLink(hash, events, digest);
    DurableExactly(hash, before, link, since, digest);
    PowerLossKeepsDurable(hash, now, digest) by { LossIsPossible(hash, now); }
    ObjectReads(hash, now, digest);
  }

  lemma FinishedIsNamed(hash: Hash, s: Store, i: int)
    requires Sound(hash, s) && In(s, i, Finished(true))
    ensures Object(hash(s.adopters[i].fed)) in s.names
  {
    OneIsOk(hash, s, i);
  }

  lemma LossIsPossible(hash: Hash, s: Store)
    ensures Enabled(hash, s, PowerLoss)
  {
  }

  /** The adopter that linked the object answers only after both flushes. */
  lemma LinkerHasFlushed(hash: Hash, events: seq<Event>, i: int)
    returns (before: seq<Event>, link: Event, since: seq<Event>)
    requires IsRun(hash, EMPTY, events) && In(After(hash, EMPTY, events), i, RootSynced)
    ensures var digest := hash(After(hash, EMPTY, events).adopters[i].fed);
            events == before + [link] + since && LinkedBy(hash, before, link, since, digest)
            && Flushed(hash, before, link, since, digest)
  {
    hide Sound, Enabled, Apply, Durable;
    EmptyIsSound(hash);
    RunKeepsSound(hash, EMPTY, events);
    var now := After(hash, EMPTY, events);
    LinkerIsDurable(hash, now, i);
    DurableIsNamed(hash, now, hash(now.adopters[i].fed));
    before, link, since := LastLink(hash, events, hash(now.adopters[i].fed));
    DurableExactly(hash, before, link, since, hash(now.adopters[i].fed));
  }

  /** The state in which one adopter has linked the empty object but synced no directory,
      and a second adopter of the same bytes has found it there. */
  function Unsynced(hash: Hash): Store {
    Store(map[Temporary(1, 1) := 0, Object(hash("")) := 0], map[0 := "", 1 := ""], {Directory(hash(""))}, 2,
          Disk(map[0 := "", 1 := ""], map[], {}),
          map[1 := Adopter(Temporary(1, 1), 0, "", "", Linked), 2 := Adopter(Temporary(1, 2), 1, "", "", Verifying)], {})
  }

  function Steps(hash: Hash, s: Store, i: int, suffix: nat): Store
    requires i !in s.adopters && Temporary(1, suffix) !in s.names
  {
    var s1 := Apply(hash, s, Create(i, Temporary(1, suffix)));
    var s2 := Apply(hash, s1, EndStream(i));
    var s3 := Apply(hash, s2, SyncFile(i));
    var s4 := Apply(hash, s3, PrepareParent(i));
    Apply(hash, s4, LinkObject(i))
  }

  function Linking(hash: Hash): Store {
    Store(map[Temporary(1, 1) := 0, Object(hash("")) := 0], map[0 := ""], {Directory(hash(""))}, 1,
          Disk(map[0 := ""], map[], {}), map[1 := Adopter(Temporary(1, 1), 0, "", "", Linked)], {})
  }

  lemma FirstLinks(hash: Hash)
    ensures Steps(hash, EMPTY, 1, 1) == Linking(hash)
  {
  }

  function Found(hash: Hash): Store {
    Unsynced(hash).(names := Unsynced(hash).names[Temporary(1, 2) := 1],
      adopters := map[1 := Adopter(Temporary(1, 1), 0, "", "", Linked),
                      2 := Adopter(Temporary(1, 2), 1, "", "", Exists)])
  }

  lemma SecondFinds(hash: Hash)
    ensures Steps(hash, Linking(hash), 2, 2) == Found(hash)
  {
  }

  lemma SecondUnlinks(hash: Hash)
    ensures Enabled(hash, Found(hash), Unlink(2)) && Apply(hash, Found(hash), Unlink(2)) == Unsynced(hash)
  {
    assert Apply(hash, Found(hash), Unlink(2)).names == Unsynced(hash).names;
    assert Apply(hash, Found(hash), Unlink(2)).adopters == Unsynced(hash).adopters;
  }

  lemma UnsyncedIsReached(hash: Hash)
    ensures 2 !in Steps(hash, EMPTY, 1, 1).adopters && Temporary(1, 2) !in Steps(hash, EMPTY, 1, 1).names
    ensures Enabled(hash, Steps(hash, Steps(hash, EMPTY, 1, 1), 2, 2), Unlink(2))
    ensures Apply(hash, Steps(hash, Steps(hash, EMPTY, 1, 1), 2, 2), Unlink(2)) == Unsynced(hash)
  {
    hide Steps, Apply, Enabled, Found, Unsynced;
    FirstLinks(hash);
    SecondFinds(hash);
    SecondUnlinks(hash);
  }

  /** The second adopter answers Ok, and a power loss then takes the object away. */
  lemma AcknowledgedObjectIsLost(hash: Hash)
    ensures var s := Unsynced(hash);
            && Enabled(hash, s, Verify(2))
            && Apply(hash, s, Verify(2)).adopters[2].phase == Finished(true)
            && !Readable(hash, Apply(hash, Apply(hash, s, Verify(2)), PowerLoss), hash(""))
  {
  }
}
