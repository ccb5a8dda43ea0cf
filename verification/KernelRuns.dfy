/** Anti-rollback over whole runs: any number of accepts, split at their await point, store
    failures, damaged store entries and restarts. */
module KernelRuns {
  import opened Prelude
  import opened Kernel

  /** An accept between its commit and its install. */
  datatype Pending = Pending(m: Manifest, meta: FetchMeta, persisted: bool)

  /** `log` holds what was written to the store, in order, and `high` its largest serial; `unpersisted` is what
      this process has reported as in use but not written, `boot` and `installed` what its directory was
      offered. */
  datatype Device = Device(
    disk: Disk, cache: Cache, directory: Snapshot, pending: map<nat, Pending>,
    high: Option<Serial>, log: seq<(Manifest, FetchMeta)>, unpersisted: set<Serial>, boot: Option<Manifest>,
    installed: set<Manifest>)

  datatype Action =
    | CommitHalf(task: nat, m: Manifest, meta: FetchMeta, faults: Faults)
    | InstallHalf(task: nat)
    | Abandon(task: nat)
    | Restart(input: BootInput)
    | LoseSerialKey
    | LoseRecord

  /** Damage is allowed as long as one of the two copies of the maximum is left. */
  predicate Enabled(d: Device, a: Action) {
    match a
    case CommitHalf(task, _, _, _) => task !in d.pending
    case InstallHalf(task) => task in d.pending
    case Abandon(task) => task in d.pending
    case Restart(_) => true
    case LoseSerialKey => d.disk.current.Stored?
    case LoseRecord => d.disk.serial.Some?
  }

  function Raise(high: Option<Serial>, result: Commit): Option<Serial> {
    match result
    case Adopted(serial, _) => Some(MaxOf(high, serial))
    case Unchanged(serial) => Some(MaxOf(high, serial))
    case _ => high
  }

  /** A write is logged; a commit that leaves the store alone is not. */
  function Logged(log: seq<(Manifest, FetchMeta)>, before: Disk, after: Disk, m: Manifest, meta: FetchMeta)
    : seq<(Manifest, FetchMeta)>
  {
    if after == before then log else log + [(m, meta)]
  }

  function NextCommit(d: Device, task: nat, m: Manifest, meta: FetchMeta, faults: Faults): Device {
    var c := CommitAccess(d.disk, d.cache, m, meta, faults);
    var e := d.(disk := c.disk, cache := c.cache, high := Raise(d.high, c.result), log := Logged(d.log, d.disk, c.disk, m, meta));
    if c.result.Rollback? then e
    else e.(pending := d.pending[task := Pending(m, meta, !c.result.StoreFailed?)])
  }

  function NextInstall(d: Device, task: nat): Device
    requires task in d.pending
  {
    var p := d.pending[task];
    var e := d.(pending := d.pending - {task}, installed := d.installed + {p.m});
    if Replaces(d.directory, SnapshotOf(p.m, p.meta.source)) then
      e.(directory := SnapshotOf(p.m, p.meta.source),
         unpersisted := if p.persisted then d.unpersisted else d.unpersisted + {p.m.serial})
    else e
  }

  function NextRestart(d: Device, input: BootInput): Device {
    var b := ChooseInitial(d.disk, input);
    Device(b.disk, b.cache, b.snapshot, map[],
           if b.origin == FromSeed(true) then Some(MaxOf(d.high, b.snapshot.serial)) else d.high,
           if b.snapshot.manifest.None? then d.log
           else Logged(d.log, d.disk, b.disk, b.snapshot.manifest.value, FetchMeta(Seed, None, input.nowMs)),
           if b.origin == FromSeed(false) then {b.snapshot.serial} else {},
           b.snapshot.manifest, {})
  }

  function Next(d: Device, a: Action): Device
    requires Enabled(d, a)
  {
    match a
    case CommitHalf(task, m, meta, faults) => NextCommit(d, task, m, meta, faults)
    case InstallHalf(task) => NextInstall(d, task)
    case Abandon(task) => d.(pending := d.pending - {task})
    case Restart(input) => NextRestart(d, input)
    case LoseSerialKey => d.(disk := d.disk.(serial := None))
    case LoseRecord => d.(disk := d.disk.(current := Corrupt))
  }

  /** A device before its first boot. */
  const FACTORY := Device(Disk(None, Missing, Missing), Unread, Snapshot(None, Lkg), map[], None, [], {}, None, {})

  ghost predicate Step(d: Device, e: Device) {
    exists a :: Enabled(d, a) && e == Next(d, a)
  }

  ghost predicate IsRun(run: seq<Device>) {
    |run| > 0 && run[0] == FACTORY && forall i :: 0 <= i < |run| - 1 ==> Step(run[i], run[i + 1])
  }

  // ---------- the invariant ----------

  predicate AtMost(n: Serial, high: Option<Serial>) {
    high.Some? && n <= high.value
  }

  /** Both copies of the maximum that are still readable hold the largest serial written. */
  ghost predicate DiskInv(disk: Disk, high: Option<Serial>) {
    && DiskMax(disk) == high
    && (disk.current.Stored? ==>
          && high == Some(disk.current.document.serial)
          && disk.current.document.envelope.Some?
          && disk.current.document.envelope.value.serial == disk.current.document.serial)
  }

  ghost predicate Inv(d: Device) {
    && DiskInv(d.disk, d.high)
    && (d.cache.Known? ==> d.cache.max == d.high)
    && (forall t :: t in d.pending && d.pending[t].persisted ==> AtMost(d.pending[t].m.serial, d.high))
    && (d.directory.hasManifest ==> AtMost(d.directory.serial, d.high) || d.directory.serial in d.unpersisted)
    && MemoryInv(d.directory.manifest, d.boot, d.installed)
    && LogInv(d.disk, d.high, d.log)
  }

  /** The manifest in memory is one that was offered, and none of a larger serial was. */
  ghost predicate MemoryInv(now: Option<Manifest>, boot: Option<Manifest>, installed: set<Manifest>) {
    && (now.None? ==> boot.None? && installed == {})
    && (now.Some? ==> now == boot || now.value in installed)
    && (forall m :: m in installed ==> now.Some? && m.serial <= now.value.serial)
    && (boot.Some? ==> now.Some? && boot.value.serial <= now.value.serial)
  }

  /** The record in the store is the last one written, and its serial the maximum; the record behind is
      an earlier one, of a smaller serial. */
  ghost predicate LogInv(disk: Disk, high: Option<Serial>, log: seq<(Manifest, FetchMeta)>) {
    && (log == [] <==> high.None?)
    && (log != [] ==> high == Some(log[|log| - 1].0.serial))
    && (disk.current.Stored? ==> log != [] && IsRecordOf(disk.current.document, log[|log| - 1]))
    && (disk.previous.Stored? ==>
          exists k :: 0 <= k < |log| && IsRecordOf(disk.previous.document, log[k])
                      && log[k].0.serial < log[|log| - 1].0.serial)
    && (forall i, j :: 0 <= i < j < |log| ==> log[i].0.serial <= log[j].0.serial)
  }

  predicate IsRecordOf(document: StoredDocument, entry: (Manifest, FetchMeta)) {
    && document.envelope == Some(entry.0) && document.serial == entry.0.serial
    && document.etag == entry.1.etag && document.source == entry.1.source
    && document.fetchedAtMs == entry.1.fetchedAtMs
  }

  lemma CommitKeepsDisk(disk: Disk, cache: Cache, high: Option<Serial>, m: Manifest, meta: FetchMeta, faults: Faults)
    requires DiskInv(disk, high) && (cache.Known? ==> cache.max == high)
    ensures var c := CommitAccess(disk, cache, m, meta, faults);
            && DiskInv(c.disk, Raise(high, c.result))
            && (c.cache.Known? ==> c.cache.max == Raise(high, c.result))
            && (c.result.Adopted? || c.result.Unchanged? ==> Raise(high, c.result) == Some(m.serial))
            && (c.result.Rollback? ==> high.Some? && m.serial < high.value)
            && (high.Some? ==> AtMost(high.value, Raise(high, c.result)))
  {
  }

  /** Writing the log on: the commit's own manifest and fetch data are its last entry. */
  lemma CommitKeepsLog(disk: Disk, cache: Cache, high: Option<Serial>, log: seq<(Manifest, FetchMeta)>,
                       m: Manifest, meta: FetchMeta, faults: Faults)
    requires DiskInv(disk, high) && (cache.Known? ==> cache.max == high) && LogInv(disk, high, log)
    ensures var c := CommitAccess(disk, cache, m, meta, faults);
            LogInv(c.disk, Raise(high, c.result), Logged(log, disk, c.disk, m, meta))
  {
    var c := CommitAccess(disk, cache, m, meta, faults);
    CommitKeepsDisk(disk, cache, high, m, meta, faults);
    CommitStores(disk, cache, m, meta, faults);
    if c.disk != disk {
      LogGrows(disk, c.disk, high, log, m, meta);
    }
  }

  lemma LogGrows(disk: Disk, after: Disk, high: Option<Serial>, log: seq<(Manifest, FetchMeta)>, m: Manifest, meta: FetchMeta)
    requires LogInv(disk, high, log) && Holds(after, m, meta) && after.previous == Shifted(disk, m)
    requires high.Some? ==> high.value <= m.serial
    ensures LogInv(after, Some(m.serial), log + [(m, meta)])
  {
    var next := log + [(m, meta)];
    if after.previous.Stored? {
      var k :| 0 <= k < |log| && IsRecordOf(after.previous.document, log[k]) && log[k].0.serial < m.serial;
      assert next[k] == log[k];
    }
  }

  lemma RestartKeeps(d: Device, input: BootInput)
    requires DiskInv(d.disk, d.high) && LogInv(d.disk, d.high, d.log)
    ensures Inv(NextRestart(d, input))
  {
    var seed := VerifiedSeed(input);
    if seed.Some? {
      CommitKeepsDisk(d.disk, Unread, d.high, seed.value, FetchMeta(Seed, None, input.nowMs), input.faults);
      CommitKeepsLog(d.disk, Unread, d.high, d.log, seed.value, FetchMeta(Seed, None, input.nowMs), input.faults);
    }
  }

  lemma StepKeeps(d: Device, a: Action)
    requires Inv(d) && Enabled(d, a)
    ensures Inv(Next(d, a))
  {
    match a
    case CommitHalf(task, m, meta, faults) =>
      CommitKeepsDisk(d.disk, d.cache, d.high, m, meta, faults);
      CommitKeepsLog(d.disk, d.cache, d.high, d.log, m, meta, faults);
    case InstallHalf(task) => InstallKeeps(d, task);
    case Restart(input) => RestartKeeps(d, input);
    case _ =>
  }

  lemma InstallKeeps(d: Device, task: nat)
    requires Inv(d) && task in d.pending
    ensures Inv(NextInstall(d, task))
  {
  }

  lemma {:induction false} RunInv(run: seq<Device>, i: nat)
    requires IsRun(run) && i < |run|
    ensures Inv(run[i])
  {
    if i > 0 {
      RunInv(run, i - 1);
      var d, e := run[i - 1], run[(i - 1) + 1];
      assert Step(d, e);
      var a :| Enabled(d, a) && e == Next(d, a);
      StepKeeps(d, a);
    }
  }

  // ---------- under concurrency ----------

  /** The manifest in memory is the one booted on or one installed since, and of the largest serial among
      them; there is none only if there was none to take. */
  lemma DirectoryIsMaximum(run: seq<Device>, i: nat)
    requires IsRun(run) && i < |run|
    ensures var d := run[i];
            && (d.directory.manifest.None? <==> d.boot.None? && d.installed == {})
            && (d.directory.manifest.Some? ==>
                  && (d.directory.manifest == d.boot || d.directory.manifest.value in d.installed)
                  && (d.boot.Some? ==> d.boot.value.serial <= d.directory.manifest.value.serial)
                  && forall m :: m in d.installed ==> m.serial <= d.directory.manifest.value.serial)
  {
    RunInv(run, i);
  }

  /** As long as the record is readable, it is the last one any commit wrote: that manifest, with the tag,
      source and time it was fetched with. Nothing of a larger serial was written before it, and the
      record kept behind it is one written earlier, of a smaller serial. */
  lemma StoredIsLastWritten(run: seq<Device>, i: nat)
    requires IsRun(run) && i < |run|
    ensures var d := run[i];
            && (d.log == [] <==> DiskMax(d.disk).None?)
            && (d.log != [] ==> DiskMax(d.disk) == Some(d.log[|d.log| - 1].0.serial))
            && (forall k :: 0 <= k < |d.log| ==> d.log[k].0.serial <= d.log[|d.log| - 1].0.serial)
            && (d.disk.current.Stored? ==>
                  && d.log != []
                  && d.disk.current.document.envelope == Some(d.log[|d.log| - 1].0)
                  && d.disk.current.document.serial == d.log[|d.log| - 1].0.serial
                  && d.disk.current.document.etag == d.log[|d.log| - 1].1.etag
                  && d.disk.current.document.source == d.log[|d.log| - 1].1.source
                  && d.disk.current.document.fetchedAtMs == d.log[|d.log| - 1].1.fetchedAtMs)
            && (d.disk.previous.Stored? ==>
                  exists k :: 0 <= k < |d.log| && d.disk.previous.document.envelope == Some(d.log[k].0)
                              && d.log[k].0.serial < d.log[|d.log| - 1].0.serial)
  {
    RunInv(run, i);
    var d := run[i];
    if d.disk.previous.Stored? {
      var k :| 0 <= k < |d.log| && IsRecordOf(d.disk.previous.document, d.log[k])
               && d.log[k].0.serial < d.log[|d.log| - 1].0.serial;
      assert d.disk.previous.document.envelope == Some(d.log[k].0);
    }
  }

  /** While the process runs, the in-memory serial and the persisted maximum never decrease, and the
      manifest in memory gives way only to one of a larger serial. */
  lemma NeverBackwards(run: seq<Device>, i: nat)
    requires IsRun(run) && i + 1 < |run|
    ensures var d, e := run[i], run[i + 1];
            && (d.high.Some? ==> AtMost(d.high.value, DiskMax(e.disk)))
            && (e.directory == d.directory || d.directory.manifest.None? || d.directory.serial < e.directory.serial
                || exists input :: e == NextRestart(d, input))
  {
    RunInv(run, i);
    RunInv(run, i + 1);
    var d, e := run[i], run[i + 1];
    assert Step(d, e);
    var a :| Enabled(d, a) && e == Next(d, a);
    StepRaises(d, a);
  }

  lemma StepRaises(d: Device, a: Action)
    requires Inv(d) && Enabled(d, a)
    ensures d.high.Some? ==> AtMost(d.high.value, Next(d, a).high)
    ensures !a.Restart? ==>
              var e := Next(d, a);
              e.directory == d.directory || d.directory.manifest.None? || d.directory.serial < e.directory.serial
  {
    match a
    case CommitHalf(task, m, meta, faults) => CommitKeepsDisk(d.disk, d.cache, d.high, m, meta, faults);
    case _ =>
  }

  /** The directory runs ahead of the persisted maximum only with a serial that was reported as not
      persisted, by an update or by the boot. */
  lemma AheadOnlyIfReported(run: seq<Device>, i: nat)
    requires IsRun(run) && i < |run|
    requires run[i].directory.hasManifest && !AtMost(run[i].directory.serial, DiskMax(run[i].disk))
    ensures run[i].directory.serial in run[i].unpersisted
  {
    RunInv(run, i);
  }

  // ---------- across restarts ----------

  /** A boot whose last-known-good copy verifies starts on the last manifest written, from where it was
      fetched, unless a verifying seed is of a larger serial: then on the seed. */
  lemma BootTakesTheLarger(run: seq<Device>, i: nat, input: BootInput)
    requires IsRun(run) && i < |run|
    requires VerifiedLkg(run[i].disk, input).Some?
    ensures var d := run[i];
            var e := NextRestart(d, input);
            && d.log != []
            && var last := d.log[|d.log| - 1];
            && e.directory == (if input.seed.Some? && input.trusted(input.seed.value) && input.seed.value.serial > last.0.serial
                               then Snapshot(input.seed, Seed) else Snapshot(Some(last.0), last.1.source))
            && e.boot == e.directory.manifest
            && e.directory.serial == MaxOf(d.high, e.directory.serial)
  {
    RunInv(run, i);
  }

  /** No boot, whatever it falls back to, lowers the persisted maximum. */
  lemma FallbackKeepsMaximum(run: seq<Device>, i: nat, input: BootInput)
    requires IsRun(run) && i < |run| && DiskMax(run[i].disk).Some?
    ensures AtMost(DiskMax(run[i].disk).value, DiskMax(NextRestart(run[i], input).disk))
  {
    RunInv(run, i);
    StepRaises(run[i], Restart(input));
    RestartKeeps(run[i], input);
  }

  function SerialOf(m: Option<Manifest>): Serial {
    if m.Some? then m.value.serial else 0
  }

  /** A commit below `max` can be compared with what is persisted: the maximum is cached, or the store
      yields it. */
  predicate MaxReadable(d: Device, a: Action, max: Serial) {
    a.CommitHalf? && a.m.serial < max ==> ReadMax(d.disk, d.cache, a.faults).Some?
  }

  /** One process from the state after its boot on: no restart, and the maximum is readable whenever a
      commit below `max` needs it. Everything else of the store may still fail. */
  ghost predicate AnchoredStep(d: Device, e: Device, max: Serial) {
    exists a :: Enabled(d, a) && !a.Restart? && MaxReadable(d, a, max) && e == Next(d, a)
  }

  ghost predicate Anchored(d: Device, start: Serial, max: Serial) {
    && AtMost(max, d.high)
    && (forall t :: t in d.pending ==> max <= d.pending[t].m.serial)
    && (d.directory.serial == start || max <= d.directory.serial)
  }

  lemma AnchoredKeeps(d: Device, a: Action, start: Serial, max: Serial)
    requires Inv(d) && Anchored(d, start, max) && Enabled(d, a) && !a.Restart? && MaxReadable(d, a, max)
    ensures Anchored(Next(d, a), start, max)
  {
    match a
    case CommitHalf(task, m, meta, faults) => CommitKeepsDisk(d.disk, d.cache, d.high, m, meta, faults);
    case _ =>
  }

  /** After a boot that fell back to an older seed (or to nothing), the directory only moves to
      serials at or above the persisted maximum it was booted under. */
  lemma {:induction false} AfterFallback(run: seq<Device>, input: BootInput, tail: seq<Device>, i: nat)
    requires IsRun(run) && DiskMax(run[|run| - 1].disk).Some?
    requires |tail| > 0 && tail[0] == NextRestart(run[|run| - 1], input)
    requires forall k :: 0 <= k < |tail| - 1 ==> AnchoredStep(tail[k], tail[k + 1], DiskMax(run[|run| - 1].disk).value)
    requires i < |tail|
    ensures Inv(tail[i]) && Anchored(tail[i], SerialOf(tail[0].boot), DiskMax(run[|run| - 1].disk).value)
    ensures tail[i].directory.serial == tail[0].directory.serial
            || DiskMax(run[|run| - 1].disk).value <= tail[i].directory.serial
  {
    var d := run[|run| - 1];
    var max := DiskMax(d.disk).value;
    if i == 0 {
      RunInv(run, |run| - 1);
      RestartKeeps(d, input);
      FallbackKeepsMaximum(run, |run| - 1, input);
    } else {
      AfterFallback(run, input, tail, i - 1);
      var x, y := tail[i - 1], tail[(i - 1) + 1];
      assert AnchoredStep(x, y, max);
      var a :| Enabled(x, a) && !a.Restart? && MaxReadable(x, a, max) && y == Next(x, a);
      StepKeeps(x, a);
      AnchoredKeeps(x, a, SerialOf(tail[0].boot), max);
    }
  }

  /** A seed refused as older than the store leaves the maximum cached: from then on no store fault
      can make a commit skip the comparison. */
  lemma RefusedSeedCachesMaximum(d: Device, input: BootInput)
    requires Inv(d)
    requires exists stored :: SeedBelowStored(SerialOf(NextRestart(d, input).boot), stored) in ChooseInitial(d.disk, input).warnings
    ensures NextRestart(d, input).cache == Known(d.high) && d.high.Some?
    ensures NextRestart(d, input).directory.serial < d.high.value
  {
    var stored :| SeedBelowStored(SerialOf(NextRestart(d, input).boot), stored) in ChooseInitial(d.disk, input).warnings;
    var seed := VerifiedSeed(input);
    CommitKeepsDisk(d.disk, Unread, d.high, seed.value, FetchMeta(Seed, None, input.nowMs), input.faults);
  }

  /** Accepting the manifest of the persisted maximum again, which the store reports as unchanged,
      still brings a directory that had fallen behind up to it. */
  lemma UnchangedHealsMemory(d: Device, task: nat, m: Manifest, meta: FetchMeta)
    requires Inv(d) && task !in d.pending && d.high == Some(m.serial) && d.directory.serial < m.serial
    ensures CommitAccess(d.disk, d.cache, m, meta, WORKING).result == Unchanged(m.serial)
    ensures var e := NextCommit(d, task, m, meta, WORKING);
            && task in e.pending && NextInstall(e, task).directory == Snapshot(Some(m), meta.source)
            && NextInstall(e, task).unpersisted == d.unpersisted
            && DiskMax(e.disk) == Some(m.serial) && SlotSerial(e.disk.current) == Some(m.serial)
  {
  }

  /** The readability of the maximum is exactly what the guarantee rests on: for every manifest below it
      and all store faults, the commit is refused if and only if the maximum is cached or readable. If
      it is not, the manifest is put to use when it is newer than memory, reported as not persisted. */
  lemma OlderRefusedIffReadable(d: Device, task: nat, m: Manifest, meta: FetchMeta, faults: Faults)
    requires Inv(d) && task !in d.pending && d.high.Some? && m.serial < d.high.value
    ensures CommitAccess(d.disk, d.cache, m, meta, faults).result.Rollback? <==> ReadMax(d.disk, d.cache, faults).Some?
    ensures var e := NextCommit(d, task, m, meta, faults);
            task in e.pending <==> ReadMax(d.disk, d.cache, faults).None?
    ensures ReadMax(d.disk, d.cache, faults).None? ==>
              var e := NextCommit(d, task, m, meta, faults);
              var t := NextInstall(e, task);
              && e.disk == d.disk && !e.pending[task].persisted
              && (d.directory.serial < m.serial ==> t.directory == Snapshot(Some(m), meta.source) && m.serial in t.unpersisted)
              && (m.serial < d.directory.serial ==> t.directory == d.directory)
  {
  }

  // ---------- a commit dropped half way ----------

  /** The commit was dropped after the store applied it and before the cache followed
      (access/src/store/manifests.rs:308-309). */
  function CutCommit(d: Device, m: Manifest, meta: FetchMeta, faults: Faults): Device {
    var c := CommitAccess(d.disk, d.cache, m, meta, faults);
    var read := ReadMax(d.disk, d.cache, faults);
    d.(disk := c.disk, cache := if read.Some? then read.value else d.cache, high := Raise(d.high, c.result),
       log := Logged(d.log, d.disk, c.disk, m, meta))
  }

  /** The cut leaves store and maximum in order; only the cache may have stayed behind. */
  lemma CutKeepsDisk(d: Device, m: Manifest, meta: FetchMeta, faults: Faults)
    requires Inv(d)
    ensures var e := CutCommit(d, m, meta, faults);
            && DiskInv(e.disk, e.high)
            && (d.high.Some? ==> AtMost(d.high.value, e.high))
            && LogInv(e.disk, e.high, e.log)
            && (e.cache.Known? ==> e.cache.max == d.high)
  {
    CommitKeepsDisk(d.disk, d.cache, d.high, m, meta, faults);
    CommitKeepsLog(d.disk, d.cache, d.high, d.log, m, meta, faults);
  }

  /** A commit lowers the persisted maximum if and only if it goes through against a cache that has
      stayed behind and its serial lies between the two. */
  lemma LowersMaximumIff(disk: Disk, cache: Cache, high: Serial, m: Manifest, meta: FetchMeta, faults: Faults)
    requires DiskInv(disk, Some(high))
    ensures var after := DiskMax(CommitAccess(disk, cache, m, meta, faults).disk);
            (after.None? || after.value < high) <==>
              && cache.Known? && m.serial < high && (cache.max.Some? ==> cache.max.value <= m.serial)
              && faults.readCurrent && faults.apply
  {
  }

  /** A restart drops the cache, and with it everything a cut commit can have disturbed. */
  lemma RestartHealsCut(d: Device, m: Manifest, meta: FetchMeta, faults: Faults, input: BootInput)
    requires Inv(d)
    ensures Inv(NextRestart(CutCommit(d, m, meta, faults), input))
  {
    CutKeepsDisk(d, m, meta, faults);
    RestartKeeps(CutCommit(d, m, meta, faults), input);
  }

  // ---------- a store damaged twice ----------

  function Damaged(disk: Disk, serialKey: bool, record: bool): Disk {
    Disk(if serialKey then None else disk.serial, if record then Corrupt else disk.current, disk.previous)
  }

  /** Why damage to both copies at once is outside the guarantee: a manifest older than the maximum
      is committed after a restart exactly when the serial key and the record are both lost. */
  lemma OlderCommittedIffBothLost(disk: Disk, high: Serial, serialKey: bool, record: bool, m: Manifest, meta: FetchMeta)
    requires DiskInv(disk, Some(high)) && disk.serial.Some? && disk.current.Stored? && m.serial < high
    ensures CommitAccess(Damaged(disk, serialKey, record), Unread, m, meta, WORKING).result.Adopted?
            <==> serialKey && record
  {
  }
}
