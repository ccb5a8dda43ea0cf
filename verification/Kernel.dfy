/** The access manifest kernel: anti-rollback commits to the store, the in-memory directory, and
    the choice made at boot. */
module Kernel {
  import opened Prelude

  type Serial = n: nat | n < 0x1_0000_0000_0000_0000

  /** A signed manifest: its serial and whatever else it says. */
  datatype Manifest = Manifest(serial: Serial, body: string)

  datatype Source = Seed | Lkg | Https(url: string) | WellKnown(apId: string) | Recovery

  datatype FetchMeta = FetchMeta(source: Source, etag: Option<string>, fetchedAtMs: int)

  // ---------- the store ----------

  /** The last-known-good record; `envelope` is absent when it does not decode. */
  datatype StoredDocument = StoredDocument(
    envelope: Option<Manifest>, serial: Serial, etag: Option<string>, source: Source, fetchedAtMs: int)

  /** A stored value: missing, unreadable, or a record. */
  datatype Slot = Missing | Corrupt | Stored(document: StoredDocument)

  /** `serial` is what the serial key parses as; absent and unreadable keys are both `None`. */
  datatype Disk = Disk(serial: Option<Serial>, current: Slot, previous: Slot)

  function SlotSerial(slot: Slot): Option<Serial> {
    if slot.Stored? then Some(slot.document.serial) else None
  }

  /** The persisted maximum: the serial key, or the record when the key is lost. */
  function DiskMax(disk: Disk): Option<Serial> {
    if disk.serial.Some? then disk.serial else SlotSerial(disk.current)
  }

  /** The commit path's cache: not read yet, or the maximum that was read. */
  datatype Cache = Unread | Known(max: Option<Serial>)

  /** Which store calls of one commit succeed. */
  datatype Faults = Faults(readSerial: bool, readRecord: bool, readCurrent: bool, apply: bool)

  const WORKING := Faults(true, true, true, true)

  datatype Commit =
    | Adopted(serial: Serial, previous: Option<Serial>)
    | Unchanged(serial: Serial)
    | Rollback(serial: Serial, max: Serial)
    | StoreFailed

  datatype Committed = Committed(result: Commit, disk: Disk, cache: Cache)

  /** `max_serial`: from the cache, else the serial key, else the record. */
  function ReadMax(disk: Disk, cache: Cache, faults: Faults): Option<Cache> {
    if cache.Known? then Some(cache)
    else if !faults.readSerial then None
    else if disk.serial.Some? then Some(Known(disk.serial))
    else if !faults.readRecord then None
    else Some(Known(SlotSerial(disk.current)))
  }

  function MaxOf(max: Option<Serial>, serial: Serial): Serial {
    if max.Some? && serial < max.value then max.value else serial
  }

  function WriteRecord(disk: Disk, m: Manifest, meta: FetchMeta): Disk {
    Disk(Some(m.serial),
         Stored(StoredDocument(Some(m), m.serial, meta.etag, meta.source, meta.fetchedAtMs)),
         if !disk.current.Missing? && SlotSerial(disk.current) != Some(m.serial) then disk.current else disk.previous)
  }

  /** The store holds exactly this manifest, with the tag, source and time it was fetched with. */
  predicate Holds(disk: Disk, m: Manifest, meta: FetchMeta) {
    && disk.serial == Some(m.serial)
    && disk.current.Stored?
    && disk.current.document.envelope == Some(m) && disk.current.document.serial == m.serial
    && disk.current.document.etag == meta.etag && disk.current.document.source == meta.source
    && disk.current.document.fetchedAtMs == meta.fetchedAtMs
  }

  /** The slot behind after a write: what stood in front, unless that was of the same serial or nothing. */
  function Shifted(disk: Disk, m: Manifest): Slot {
    match disk.current
    case Missing => disk.previous
    case Corrupt => disk.current
    case Stored(document) => if document.serial == m.serial then disk.previous else disk.current
  }

  function CommitAccess(disk: Disk, cache: Cache, m: Manifest, meta: FetchMeta, faults: Faults): Committed {
    match ReadMax(disk, cache, faults)
    case None => Committed(StoreFailed, disk, cache)
    case Some(known) =>
      var max := known.max;
      if max.Some? && m.serial < max.value then Committed(Rollback(m.serial, max.value), disk, known)
      else if !faults.readCurrent then Committed(StoreFailed, disk, known)
      else if max == Some(m.serial) && SlotSerial(disk.current) == Some(m.serial) then
        Committed(Unchanged(m.serial), disk, known)
      else if !faults.apply then Committed(StoreFailed, disk, known)
      else
        Committed(if max == Some(m.serial) then Unchanged(m.serial) else Adopted(m.serial, max),
                  WriteRecord(disk, m, meta), Known(Some(MaxOf(max, m.serial))))
  }

  /** What a commit leaves in the store: either nothing has changed, or it holds exactly this manifest and
      the record it replaced has moved behind. An adopted manifest is always held; a refused or failed one
      changes nothing; an unchanged one is held, or one of its serial was. */
  lemma CommitStores(disk: Disk, cache: Cache, m: Manifest, meta: FetchMeta, faults: Faults)
    ensures var c := CommitAccess(disk, cache, m, meta, faults);
            && (c.disk == disk || (Holds(c.disk, m, meta) && c.disk.previous == Shifted(disk, m)))
            && (c.result.Adopted? ==> Holds(c.disk, m, meta) && c.result.serial == m.serial)
            && (c.result.Rollback? || c.result.StoreFailed? ==> c.disk == disk)
            && (c.result.Unchanged? ==> c.result.serial == m.serial && SlotSerial(c.disk.current) == Some(m.serial))
            && (c.result.Unchanged? ==> Holds(c.disk, m, meta) || SlotSerial(disk.current) == Some(m.serial))
  {
  }

  /** Which commit comes out when, by the maximum it is compared with (the cached one, else the store's),
      whether that can be read, and which later store calls fail. */
  lemma CommitExact(disk: Disk, cache: Cache, m: Manifest, meta: FetchMeta, faults: Faults)
    ensures var c := CommitAccess(disk, cache, m, meta, faults);
            var readable := cache.Known? || (faults.readSerial && (disk.serial.Some? || faults.readRecord));
            var max := if cache.Known? then cache.max else DiskMax(disk);
            var stored := SlotSerial(disk.current) == Some(m.serial);
            && (c.result.Rollback? <==> readable && max.Some? && m.serial < max.value)
            && (c.result.Rollback? ==> c.result == Rollback(m.serial, max.value))
            && (c.result.Adopted? <==>
                  readable && (max.None? || max.value < m.serial) && faults.readCurrent && faults.apply)
            && (c.result.Adopted? ==> c.result == Adopted(m.serial, max))
            && (c.result.Unchanged? <==>
                  readable && max == Some(m.serial) && faults.readCurrent && (stored || faults.apply))
            && (c.cache == if !readable then cache else Known(if c.result.Adopted? then Some(m.serial) else max))
  {
  }

  // ---------- the directory ----------

  /** What the process works with: a manifest and where it came from, or none. */
  datatype Snapshot = Snapshot(manifest: Option<Manifest>, source: Source) {
    const hasManifest := manifest.Some?
    const serial: Serial := if manifest.Some? then manifest.value.serial else 0
  }

  function SnapshotOf(m: Manifest, source: Source): Snapshot {
    Snapshot(Some(m), source)
  }

  /** `replace_if_newer` on a production directory. */
  predicate Replaces(current: Snapshot, next: Snapshot) {
    next.serial > current.serial || !current.hasManifest
  }

  datatype Update = UpdateAdopted(serial: Serial, persisted: bool) | UpdateUnchanged(serial: Serial)

  // ---------- boot ----------

  datatype Origin = FromLkg | FromSeed(persisted: bool) | Unavailable

  datatype Warning =
    | StoredUnreadable | StoredRejected | SeedRejected
    | SeedBelowStored(seed: Serial, stored: Serial) | PersistFailed | NoUsableManifest

  datatype Boot = Boot(snapshot: Snapshot, origin: Origin, fetchedAtMs: int, disk: Disk, cache: Cache, warnings: seq<Warning>)

  datatype BootInput = BootInput(
    seed: Option<Manifest>, trusted: Manifest -> bool, loads: bool, faults: Faults, nowMs: int)

  /** The last-known-good manifest, once read back and verified again. */
  function VerifiedLkg(disk: Disk, input: BootInput): Option<StoredDocument> {
    if input.loads && disk.current.Stored? && disk.current.document.envelope.Some?
       && input.trusted(disk.current.document.envelope.value)
    then Some(disk.current.document) else None
  }

  function LkgWarnings(disk: Disk, input: BootInput): seq<Warning> {
    if !input.loads then [StoredUnreadable]
    else match disk.current
      case Missing => []
      case Corrupt => [StoredUnreadable]
      case Stored(document) =>
        if document.envelope.None? then [StoredUnreadable]
        else if !input.trusted(document.envelope.value) then [StoredRejected]
        else []
  }

  function VerifiedSeed(input: BootInput): Option<Manifest> {
    if input.seed.Some? && input.trusted(input.seed.value) then input.seed else None
  }

  function SeedWarnings(input: BootInput): seq<Warning> {
    if input.seed.Some? && !input.trusted(input.seed.value) then [SeedRejected] else []
  }

  function AdoptSeed(disk: Disk, cache: Cache, seed: Manifest, input: BootInput, warnings: seq<Warning>): Boot {
    var c := CommitAccess(disk, cache, seed, FetchMeta(Seed, None, input.nowMs), input.faults);
    var snapshot := SnapshotOf(seed, Seed);
    match c.result
    case Adopted(_, _) => Boot(snapshot, FromSeed(true), 0, c.disk, c.cache, warnings)
    case Unchanged(_) => Boot(snapshot, FromSeed(true), 0, c.disk, c.cache, warnings)
    case Rollback(serial, max) =>
      Boot(snapshot, FromSeed(false), 0, c.disk, c.cache, warnings + [SeedBelowStored(serial, max)])
    case StoreFailed => Boot(snapshot, FromSeed(false), 0, c.disk, c.cache, warnings + [PersistFailed])
  }

  /** `choose_initial` on a fresh process: the cache is unread. */
  function ChooseInitial(disk: Disk, input: BootInput): Boot {
    var lkg, seed := VerifiedLkg(disk, input), VerifiedSeed(input);
    var warnings := LkgWarnings(disk, input) + SeedWarnings(input);
    if lkg.Some? && !(seed.Some? && seed.value.serial > lkg.value.envelope.value.serial) then
      Boot(SnapshotOf(lkg.value.envelope.value, lkg.value.source), FromLkg, lkg.value.fetchedAtMs, disk, Unread, warnings)
    else if seed.Some? then AdoptSeed(disk, Unread, seed.value, input, warnings)
    else Boot(Snapshot(None, Lkg), Unavailable, 0, disk, Unread, warnings + [NoUsableManifest])
  }

  /** The boot's choice, in terms of the record and the seed themselves: the record if it verifies and no
      verifying seed is of a larger serial, else a verifying seed, else nothing. Only a seed is written. */
  lemma BootChoice(disk: Disk, input: BootInput)
    ensures var b := ChooseInitial(disk, input);
            var record := input.loads && disk.current.Stored? && disk.current.document.envelope.Some?
                          && input.trusted(disk.current.document.envelope.value);
            var seed := input.seed.Some? && input.trusted(input.seed.value);
            && (b.origin.FromLkg? <==>
                  record && (seed ==> input.seed.value.serial <= disk.current.document.envelope.value.serial))
            && (b.origin.Unavailable? <==> !record && !seed)
            && (b.origin.FromLkg? ==>
                  && b.snapshot == Snapshot(disk.current.document.envelope, disk.current.document.source)
                  && b.fetchedAtMs == disk.current.document.fetchedAtMs)
            && (b.origin.Unavailable? ==> b.snapshot == Snapshot(None, Lkg) && b.fetchedAtMs == 0)
            && (b.origin.FromSeed? ==> b.snapshot == Snapshot(input.seed, Seed) && b.fetchedAtMs == 0)
            && (b.origin == FromSeed(true) ==> SlotSerial(b.disk.current) == Some(input.seed.value.serial))
            && (b.disk != disk ==>
                  b.origin == FromSeed(true) && Holds(b.disk, input.seed.value, FetchMeta(Seed, None, input.nowMs)))
  {
    if VerifiedSeed(input).Some? {
      CommitStores(disk, Unread, input.seed.value, FetchMeta(Seed, None, input.nowMs), input.faults);
    }
  }

  lemma LateWarnings(disk: Disk, input: BootInput) returns (late: seq<Warning>)
    ensures var b := ChooseInitial(disk, input);
            && b.warnings == LkgWarnings(disk, input) + SeedWarnings(input) + late
            && (NoUsableManifest in late <==> b.snapshot.manifest.None?)
            && (b.origin == FromSeed(false) <==>
                  PersistFailed in late || exists seed, stored :: SeedBelowStored(seed, stored) in late)
            && (forall seed, stored :: SeedBelowStored(seed, stored) in late ==>
                  && input.seed.Some? && seed == input.seed.value.serial && seed < stored
                  && DiskMax(disk) == Some(stored))
    ensures StoredUnreadable !in late && StoredRejected !in late && SeedRejected !in late
  {
    late := [];
    if ChooseInitial(disk, input).origin.Unavailable? {
      late := [NoUsableManifest];
    } else if ChooseInitial(disk, input).origin.FromSeed? {
      var c := CommitAccess(disk, Unread, input.seed.value, FetchMeta(Seed, None, input.nowMs), input.faults);
      if c.result.Rollback? {
        late := [SeedBelowStored(c.result.serial, c.result.max)];
        assert late[0] in late;
      } else if c.result.StoreFailed? {
        late := [PersistFailed];
      }
    }
  }

  /** Every warning of a boot says something that is so, and nothing that went wrong is kept quiet. */
  lemma BootWarnings(disk: Disk, input: BootInput)
    ensures var b := ChooseInitial(disk, input);
            && (StoredUnreadable in b.warnings <==>
                  !input.loads || disk.current.Corrupt? || (disk.current.Stored? && disk.current.document.envelope.None?))
            && (StoredRejected in b.warnings <==>
                  && input.loads && disk.current.Stored? && disk.current.document.envelope.Some?
                  && !input.trusted(disk.current.document.envelope.value))
            && (SeedRejected in b.warnings <==> input.seed.Some? && !input.trusted(input.seed.value))
            && (NoUsableManifest in b.warnings <==> b.snapshot.manifest.None?)
            && (b.origin == FromSeed(false) <==>
                  PersistFailed in b.warnings || exists seed, stored :: SeedBelowStored(seed, stored) in b.warnings)
            && (forall seed, stored :: SeedBelowStored(seed, stored) in b.warnings ==>
                  && input.seed.Some? && seed == input.seed.value.serial && seed < stored
                  && DiskMax(disk) == Some(stored))
  {
    var late := LateWarnings(disk, input);
  }

  /** One device: its store, and the kernel of the running process. The methods are the atomic
      halves of an accept: `CommitHalf` runs under the commit gate, `InstallHalf` is one
      compare-and-swap. Between them other accepts may run. */
  class AccessKernel {
    var disk: Disk
    var cache: Cache
    var directory: Snapshot
    var fetchedAtMs: int
    var warnings: seq<Warning>
    var origin: Origin

    constructor (input: BootInput, stored: Disk)
      ensures Boot(directory, origin, fetchedAtMs, disk, cache, warnings) == ChooseInitial(stored, input)
    {
      disk, cache := stored, Unread;
      new;
      var lkg := VerifiedLkg(stored, input);
      warnings := LkgWarnings(stored, input);
      if input.seed.Some? && !input.trusted(input.seed.value) {
        warnings := warnings + [SeedRejected];
      }
      var seed := VerifiedSeed(input);
      if lkg.Some? && !(seed.Some? && seed.value.serial > lkg.value.envelope.value.serial) {
        directory, origin := SnapshotOf(lkg.value.envelope.value, lkg.value.source), FromLkg;
        fetchedAtMs := lkg.value.fetchedAtMs;
      } else if seed.Some? {
        var result := CommitHalf(seed.value, FetchMeta(Seed, None, input.nowMs), input.faults);
        origin := FromSeed(result.Adopted? || result.Unchanged?);
        if result.Rollback? {
          warnings := warnings + [SeedBelowStored(result.serial, result.max)];
        } else if result.StoreFailed? {
          warnings := warnings + [PersistFailed];
        }
        directory, fetchedAtMs := SnapshotOf(seed.value, Seed), 0;
      } else {
        warnings := warnings + [NoUsableManifest];
        directory, origin, fetchedAtMs := Snapshot(None, Lkg), Unavailable, 0;
      }
    }

    method CommitHalf(m: Manifest, meta: FetchMeta, faults: Faults) returns (result: Commit)
      modifies this`disk, this`cache
      ensures Committed(result, disk, cache) == CommitAccess(old(disk), old(cache), m, meta, faults)
      ensures disk == old(disk) || (Holds(disk, m, meta) && disk.previous == Shifted(old(disk), m))
      ensures result.Adopted? ==> Holds(disk, m, meta)
    {
      var known := cache;
      if known.Unread? {
        if !faults.readSerial { return StoreFailed; }
        if disk.serial.Some? {
          known := Known(disk.serial);
        } else {
          if !faults.readRecord { return StoreFailed; }
          known := Known(SlotSerial(disk.current));
        }
      }
      cache := known;
      var max := known.max;
      if max.Some? && m.serial < max.value { return Rollback(m.serial, max.value); }
      if !faults.readCurrent { return StoreFailed; }
      var same := max == Some(m.serial);
      if same && SlotSerial(disk.current) == Some(m.serial) { return Unchanged(m.serial); }
      if !faults.apply { return StoreFailed; }
      var record := StoredDocument(Some(m), m.serial, meta.etag, meta.source, meta.fetchedAtMs);
      var previous := disk.previous;
      if !disk.current.Missing? && SlotSerial(disk.current) != Some(m.serial) {
        previous := disk.current;
      }
      disk := Disk(Some(m.serial), Stored(record), previous);
      cache := Known(Some(MaxOf(max, m.serial)));
      result := if same then Unchanged(m.serial) else Adopted(m.serial, max);
    }

    method InstallHalf(m: Manifest, meta: FetchMeta, persisted: bool) returns (update: Update)
      modifies this`directory, this`fetchedAtMs
      ensures var next := SnapshotOf(m, meta.source);
              if Replaces(old(directory), next)
              then directory == next && fetchedAtMs == meta.fetchedAtMs && update == UpdateAdopted(m.serial, persisted)
              else directory == old(directory) && fetchedAtMs == old(fetchedAtMs) && update == UpdateUnchanged(directory.serial)
      ensures directory == if old(directory).manifest.None? || old(directory).manifest.value.serial < m.serial
                           then Snapshot(Some(m), meta.source) else old(directory)
    {
      var next := SnapshotOf(m, meta.source);
      if Replaces(directory, next) {
        directory, fetchedAtMs := next, meta.fetchedAtMs;
        update := UpdateAdopted(m.serial, persisted);
      } else {
        update := UpdateUnchanged(directory.serial);
      }
    }

    /** `adopt` with nothing in between: refused exactly on a rollback. */
    method Adopt(m: Manifest, meta: FetchMeta, faults: Faults) returns (update: Option<Update>)
      modifies this
      ensures var c := CommitAccess(old(disk), old(cache), m, meta, faults);
              && disk == c.disk && cache == c.cache
              && (update.None? <==> c.result.Rollback?)
              && (update.Some? && update.value.UpdateAdopted? ==> update.value == UpdateAdopted(m.serial, !c.result.StoreFailed?))
      ensures update.None? ==> directory == old(directory) && fetchedAtMs == old(fetchedAtMs) && disk == old(disk)
      ensures warnings == old(warnings) && origin == old(origin)
      ensures update.Some? ==>
                && (update.value.UpdateAdopted? <==>
                      old(directory).manifest.None? || old(directory).manifest.value.serial < m.serial)
                && (update.value.UpdateAdopted? ==>
                      directory == Snapshot(Some(m), meta.source) && fetchedAtMs == meta.fetchedAtMs)
                && (update.value.UpdateUnchanged? ==>
                      directory == old(directory) && fetchedAtMs == old(fetchedAtMs) && update.value.serial == directory.serial)
    {
      var result := CommitHalf(m, meta, faults);
      match result {
        case Rollback(_, _) => update := None;
        case StoreFailed =>
          var u := InstallHalf(m, meta, false);
          update := Some(u);
        case _ =>
          var u := InstallHalf(m, meta, true);
          update := Some(u);
      }
    }
  }
}