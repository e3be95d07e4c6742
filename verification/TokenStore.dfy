/**
 The encrypted token store: a map in memory, written through to one file that is replaced
 as a whole.  A crash may come after any system call.
 */
module TokenStores {
  import opened Options
  import opened Texts

  type Bytes = Text
  type Nonce = nat
  type Name = nat
  type Key = string

  datatype Token = Token(access: string, refresh: string, expiresAt: int)

  type Records = map<Key, Token>

  const MAX_BYTES := 64 * 1024 * 1024

  /** JSON, AES-GCM and the envelope around them, for one secret. */
  datatype Codec = Codec(encode: (Records, Nonce) -> Bytes, decode: Bytes -> Option<Records>)

  ghost predicate Invertible(c: Codec) {
    forall r, n :: c.decode(c.encode(r, n)) == Some(r)
  }

  /** A file's content survives a crash only once it has been synced. */
  datatype File = File(bytes: Bytes, private: bool, synced: bool)

  /**
   `versions` are the files a crash may leave at the store's path, oldest first: renames
   are atomic but may be lost until the directory is synced.  Without a crash, the last counts.
   */
  datatype Disk = Disk(versions: seq<Option<File>>, temps: map<Name, File>)

  predicate HasVersion(d: Disk) {
    d.versions != []
  }

  function Current(d: Disk): Option<File>
    requires HasVersion(d)
  {
    d.versions[|d.versions| - 1]
  }

  /** The whole map a file at the store's path stands for; none if its content is not dependable. */
  function ReadBack(c: Codec, file: Option<File>): Option<Records> {
    if file.None? then Some(map[])
    else if file.value.private && file.value.synced then c.decode(file.value.bytes)
    else None
  }

  /** `loadFile`: the map, or an error. */
  function Reload(c: Codec, file: Option<File>): Option<Records> {
    if file.Some? && (!file.value.private || |file.value.bytes| > MAX_BYTES) then None else ReadBack(c, file)
  }

  datatype Call =
    | MakeDirectory
    | Marshal
    | DrawNonce
    | CreateTemp
    | Chmod
    | Write
    | Sync
    | CloseTemp
    | Rename
    | SyncDirectory
    | RemoveTemp

  function WithTemp(d: Disk, n: Name, f: File): Disk {
    d.(temps := d.temps[n := f])
  }

  function WithoutTemp(d: Disk, n: Name): Disk {
    d.(temps := d.temps - {n})
  }

  function Renamed(d: Disk, n: Name): Disk
    requires n in d.temps
  {
    Disk(d.versions + [Some(d.temps[n])], d.temps - {n})
  }

  function DirectorySynced(d: Disk): Disk
    requires HasVersion(d)
  {
    d.(versions := [Current(d)])
  }

  /** Every file a crash may leave reads back as a whole map. */
  ghost predicate AllComplete(c: Codec, d: Disk) {
    HasVersion(d) && forall v | v in d.versions :: ReadBack(c, v).Some?
  }

  /** A moment while `before` is being replaced by the file `next`. */
  ghost predicate IsMoment(before: seq<Option<File>>, next: File, d: Disk) {
    d.versions == before || d.versions == before + [Some(next)] || d.versions == [Some(next)]
  }

  ghost predicate AllMoments(before: seq<Option<File>>, next: File, trail: seq<Disk>) {
    forall d | d in trail :: IsMoment(before, next, d)
  }

  lemma MomentsGrow(before: seq<Option<File>>, next: File, trail: seq<Disk>, n: nat, d: Disk)
    requires n <= |trail| && AllMoments(before, next, trail[n..]) && IsMoment(before, next, d)
    ensures AllMoments(before, next, (trail + [d])[n..])
  {
    assert (trail + [d])[n..] == trail[n..] + [d];
  }

  /** Outcomes of the system calls: which ones fail, and what a failing write leaves behind. */
  datatype Weather = Weather(fails: set<Call>, name: Name, nonce: Nonce, partial: Bytes)

  /** Neither a lost directory sync nor a temporary file left behind is an error. */
  predicate Succeeds(fails: set<Call>) {
    fails !! {MakeDirectory, Marshal, DrawNonce, CreateTemp, Chmod, Write, Sync, CloseTemp, Rename}
  }

  function Replaced(versions: seq<Option<File>>, next: File, fails: set<Call>): seq<Option<File>> {
    if !Succeeds(fails) then versions
    else if SyncDirectory in fails then versions + [Some(next)]
    else [Some(next)]
  }

  class TokenStore {
    const codec: Codec
    var records: Records
    var disk: Disk
    ghost var trail: seq<Disk>

    /** Memory and file agree, and so does whatever a crash may leave with some whole map. */
    ghost predicate Valid()
      reads this
    {
      Invertible(codec) && AllComplete(codec, disk) && ReadBack(codec, Current(disk)) == Some(records)
    }

    /** Opens the store on a disk, as after a crash or a restart. */
    constructor (codec: Codec, disk: Disk)
      requires Invertible(codec) && AllComplete(codec, disk) && Reload(codec, Current(disk)).Some?
      ensures Valid() && this.codec == codec && this.disk == disk && trail == []
      ensures Some(records) == Reload(codec, Current(disk))
    {
      this.codec := codec;
      this.disk := disk;
      records := Reload(codec, Current(disk)).value;
      trail := [];
    }

    method Load(k: Key) returns (found: Option<Token>)
      ensures found == if k in records then Some(records[k]) else None
    {
      found := if k in records then Some(records[k]) else None;
    }

    /**
     Writes `records` to a new file and renames it into place.  The file is replaced as a
     whole or not at all, and so it is at every moment on the way.
     */
    method Persist(w: Weather) returns (ok: bool)
      requires HasVersion(disk) && w.name !in disk.temps
      modifies this`disk, this`trail
      ensures old(trail) <= trail
      ensures var next := File(codec.encode(records, w.nonce), true, true);
              && AllMoments(old(disk.versions), next, trail[|old(trail)|..])
              && ok == (Succeeds(w.fails))
              && disk.versions == Replaced(old(disk.versions), next, w.fails)
      ensures RemoveTemp !in w.fails || ok ==> disk.temps == old(disk.temps)
    {
      if MakeDirectory in w.fails || Marshal in w.fails || DrawNonce in w.fails || CreateTemp in w.fails {
        return false;
      }
      ghost var before := disk;
      var encoded := codec.encode(records, w.nonce);
      ghost var next := File(encoded, true, true);
      ghost var n := |trail|;
      disk := WithTemp(disk, w.name, File([], true, false));
      trail := trail + [disk];
      ok := FillTemp(w, encoded);
      assert AllMoments(before.versions, next, trail[n..]);
      if ok {
        disk := Renamed(disk, w.name);
        MomentsGrow(before.versions, next, trail, n, disk);
        trail := trail + [disk];
        assert disk.temps == before.temps;
        if SyncDirectory !in w.fails {
          disk := DirectorySynced(disk);
          MomentsGrow(before.versions, next, trail, n, disk);
          trail := trail + [disk];
        }
      } else if RemoveTemp !in w.fails {
        disk := WithoutTemp(disk, w.name);
        MomentsGrow(before.versions, next, trail, n, disk);
        trail := trail + [disk];
        assert disk.temps == before.temps;
      }
    }

    /** The part of `Persist` that works on the temporary file only. */
    method FillTemp(w: Weather, encoded: Bytes) returns (ok: bool)
      requires w.name in disk.temps && disk.temps[w.name].private
      requires !(MakeDirectory in w.fails || Marshal in w.fails || DrawNonce in w.fails || CreateTemp in w.fails)
      modifies this`disk, this`trail
      ensures old(trail) <= trail && forall d | d in trail[|old(trail)|..] :: d.versions == old(disk.versions)
      ensures disk.versions == old(disk.versions)
      ensures disk.temps.Keys == old(disk.temps.Keys)
      ensures forall n | n in disk.temps && n != w.name :: disk.temps[n] == old(disk.temps[n])
      ensures ok == (Succeeds(w.fails))
      ensures ok ==> disk.temps[w.name] == File(encoded, true, true)
    {
      if Chmod in w.fails {
        return false;
      }
      disk := WithTemp(disk, w.name, File(if Write in w.fails then w.partial else encoded, true, false));
      trail := trail + [disk];
      if Write in w.fails || Sync in w.fails {
        return false;
      }
      disk := WithTemp(disk, w.name, File(encoded, true, true));
      trail := trail + [disk];
      ok := CloseTemp !in w.fails && Rename !in w.fails;
    }

    /** Saves one token, or changes nothing. */
    method Save(k: Key, token: Token, w: Weather) returns (ok: bool)
      requires Valid() && w.name !in disk.temps
      modifies this
      ensures Valid()
      ensures ok == (k != "" && !(token.access == "" && token.refresh == "") && Succeeds(w.fails))
      ensures records == if ok then old(records)[k := token] else old(records)
      ensures !ok ==> disk.versions == old(disk.versions)
      ensures ok ==> (Reload(codec, Current(disk)).Some? <==> |codec.encode(records, w.nonce)| <= MAX_BYTES)
      ensures var after := AfterDo(codec, History(old(records), old(disk), {}), Put(k, token), w);
              records == after.memory && disk.versions == after.disk.versions
      ensures old(trail) <= trail
      ensures AllMoments(old(disk.versions), File(codec.encode(old(records)[k := token], w.nonce), true, true),
                         trail[|old(trail)|..])
    {
      if k == "" || (token.access == "" && token.refresh == "") {
        return false;
      }
      var existed := k in records;
      var previous := if existed then records[k] else token;
      records := records[k := token];
      ok := Persist(w);
      if !ok {
        if existed {
          records := records[k := previous];
        } else {
          records := records - {k};
        }
        assert records == old(records);
      }
    }

    /** Deletes one token, or changes nothing. */
    method Delete(k: Key, w: Weather) returns (ok: bool)
      requires Valid() && w.name !in disk.temps
      modifies this
      ensures Valid()
      ensures ok == (k !in old(records) || Succeeds(w.fails))
      ensures records == if ok then old(records) - {k} else old(records)
      ensures !ok || k !in old(records) ==> disk.versions == old(disk.versions)
      ensures var after := AfterDo(codec, History(old(records), old(disk), {}), Drop(k), w);
              records == after.memory && disk.versions == after.disk.versions
      ensures old(trail) <= trail
      ensures AllMoments(old(disk.versions), File(codec.encode(old(records) - {k}, w.nonce), true, true),
                         trail[|old(trail)|..])
    {
      if k !in records {
        assert records - {k} == records;
        return true;
      }
      var previous := records[k];
      records := records - {k};
      ok := Persist(w);
      if !ok {
        records := records[k := previous];
        assert records == old(records);
      }
    }
  }

  // ---------------------------------------------------------------------------
  // Crashes
  // ---------------------------------------------------------------------------

  /** What a crash leaves behind: one of the versions at the path, durable, and any temporary files. */
  function Crashed(d: Disk, i: nat, temps: map<Name, File>): Disk
    requires i < |d.versions|
  {
    Disk([d.versions[i]], temps)
  }

  /** The file for the map `records`. */
  function FileOf(c: Codec, records: Records, nonce: Nonce): File {
    File(c.encode(records, nonce), true, true)
  }

  predicate IsOldOrNew(c: Codec, file: Option<File>, before: Records, after: Records) {
    ReadBack(c, file) == Some(before) || ReadBack(c, file) == Some(after)
  }

  /**
   A crash at any moment of replacing the map `before` by `after` leaves a whole map.  It leaves
   the old or the new one, at every moment and whatever was made durable, if and only if that is
   all a crash could leave before.
   */
  lemma CrashLeavesOldOrNew(c: Codec, d0: Disk, before: Records, after: Records, nonce: Nonce)
    requires Invertible(c) && AllComplete(c, d0) && ReadBack(c, Current(d0)) == Some(before)
    ensures forall d: Disk | IsMoment(d0.versions, FileOf(c, after, nonce), d) :: AllComplete(c, d)
    ensures (forall d: Disk, i | IsMoment(d0.versions, FileOf(c, after, nonce), d) && 0 <= i < |d.versions| ::
               IsOldOrNew(c, d.versions[i], before, after))
            <==> forall v | v in d0.versions :: IsOldOrNew(c, v, before, after)
    ensures forall d: Disk | IsMoment(d0.versions, FileOf(c, after, nonce), d) ::
              d.versions != [] && IsOldOrNew(c, Current(d), before, after)
  {
    var file := FileOf(c, after, nonce);
    assert ReadBack(c, Some(file)) == Some(after);
    forall d: Disk | IsMoment(d0.versions, file, d)
      ensures AllComplete(c, d) && IsOldOrNew(c, Current(d), before, after)
      ensures forall i | 0 <= i < |d.versions| :: d.versions[i] in d0.versions || d.versions[i] == Some(file)
    {
      MomentVersions(d0, file, d);
    }
    assert IsMoment(d0.versions, file, d0);
  }

  lemma MomentVersions(d0: Disk, file: File, d: Disk)
    requires HasVersion(d0) && IsMoment(d0.versions, file, d)
    ensures HasVersion(d) && (Current(d) == Current(d0) || Current(d) == Some(file))
    ensures forall v | v in d.versions :: v in d0.versions || v == Some(file)
  {
  }

  /** A whole map reloads exactly when its file is within the loader's limit. */
  lemma ReloadIffItFits(c: Codec, file: Option<File>)
    requires ReadBack(c, file).Some?
    ensures Reload(c, file) == if file.None? || |file.value.bytes| <= MAX_BYTES then ReadBack(c, file) else None
  {
  }

  // ---------------------------------------------------------------------------
  // Whole runs, with crashes
  // ---------------------------------------------------------------------------

  datatype Op = Put(key: Key, token: Token) | Drop(key: Key)

  function Applied(op: Op, r: Records): Records {
    match op
    case Put(k, token) => r[k := token]
    case Drop(k) => r - {k}
  }

  /** Whether the operation gets as far as writing a file: saves of nothing and deletes of nothing do not. */
  predicate Writes(op: Op, r: Records) {
    match op
    case Put(k, token) => k != "" && !(token.access == "" && token.refresh == "")
    case Drop(k) => k in r
  }

  /** `past` are all maps the store has held in memory after some operation. */
  datatype History = History(memory: Records, disk: Disk, past: set<Records>)

  datatype Step =
    | Do(op: Op, weather: Weather)
    | CrashDuring(op: Op, nonce: Nonce, moment: Disk, version: nat, temps: map<Name, File>)

  function Start(): History {
    History(map[], Disk([None], map[]), {map[]})
  }

  /** Whether the step can happen: a crash comes at some moment of an operation, and the file left must load. */
  ghost predicate CanStep(c: Codec, h: History, step: Step) {
    match step
    case Do(op, w) => true
    case CrashDuring(op, nonce, moment, i, _) =>
      && Writes(op, h.memory)
      && IsMoment(h.disk.versions, FileOf(c, Applied(op, h.memory), nonce), moment)
      && i < |moment.versions|
      && Reload(c, moment.versions[i]).Some?
  }

  function AfterDo(c: Codec, h: History, op: Op, w: Weather): History {
    if !Writes(op, h.memory) || !Succeeds(w.fails) then h
    else
      var next := Applied(op, h.memory);
      History(next, h.disk.(versions := Replaced(h.disk.versions, FileOf(c, next, w.nonce), w.fails)), h.past + {next})
  }

  ghost function After(c: Codec, h: History, step: Step): History
    requires CanStep(c, h, step)
  {
    match step
    case Do(op, w) => AfterDo(c, h, op, w)
    case CrashDuring(op, nonce, moment, i, temps) =>
      var left := Crashed(moment, i, temps);
      History(Reload(c, Current(left)).value, left, h.past + {Applied(op, h.memory)})
  }

  ghost predicate HistoryOk(c: Codec, h: History) {
    && HasVersion(h.disk)
    && ReadBack(c, Current(h.disk)) == Some(h.memory)
    && h.memory in h.past
    && forall v | v in h.disk.versions :: ReadBack(c, v).Some? && ReadBack(c, v).value in h.past
  }

  lemma StepKeepsHistory(c: Codec, h: History, step: Step)
    requires Invertible(c) && HistoryOk(c, h) && CanStep(c, h, step)
    ensures HistoryOk(c, After(c, h, step))
  {
    match step
    case Do(op, w) =>
      var next := Applied(op, h.memory);
      assert ReadBack(c, Some(FileOf(c, next, w.nonce))) == Some(next);
    case CrashDuring(op, nonce, moment, i, temps) =>
      var next := Applied(op, h.memory);
      var file := Some(FileOf(c, next, nonce));
      assert ReadBack(c, file) == Some(next);
      assert moment.versions[i] in h.disk.versions || moment.versions[i] == file;
      ReloadIffItFits(c, moment.versions[i]);
  }

  ghost predicate IsRun(c: Codec, run: seq<History>, steps: seq<Step>) {
    && |run| == |steps| + 1
    && run[0] == Start()
    && forall k | 0 <= k < |steps| :: CanStep(c, run[k], steps[k]) && run[k + 1] == After(c, run[k], steps[k])
  }

  /**
   After any run of saves, deletes, failures and crashes, memory is what the file says, and
   whatever a crash would now restore is a whole map that memory held at some time.
   */
  lemma {:induction false} RunsKeepMemoryAndFileInStep(c: Codec, run: seq<History>, steps: seq<Step>, k: nat)
    requires Invertible(c) && IsRun(c, run, steps) && k < |run|
    ensures HistoryOk(c, run[k])
  {
    if k > 0 {
      RunsKeepMemoryAndFileInStep(c, run, steps, k - 1);
      assert CanStep(c, run[k - 1], steps[k - 1]) && run[k - 1 + 1] == After(c, run[k - 1], steps[k - 1]);
      StepKeepsHistory(c, run[k - 1], steps[k - 1]);
    }
  }

  /**
   A lost directory sync, and then a crash during the next save, restore a map that is neither
   the one before that save nor the one after it.
   */
  lemma LostRenameRestoresOlderMap(c: Codec, k: Key, x: Token, y: Token) returns (run: seq<History>, steps: seq<Step>)
    requires Invertible(c) && k != "" && x.access != "" && y.access != "" && x != y
    ensures IsRun(c, run, steps) && |steps| == 2
    ensures steps[0].Do? && steps[0].op == Put(k, x) && steps[1].CrashDuring? && steps[1].op == Put(k, y)
    ensures run[1].memory == map[k := x] && run[2].memory == map[]
  {
    var w := Weather({SyncDirectory}, 0, 0, []);
    var h := AfterDo(c, Start(), Put(k, x), w);
    assert h.disk.versions[0] == None;
    var crash := CrashDuring(Put(k, y), 0, h.disk, 0, map[]);
    assert CanStep(c, Start(), Do(Put(k, x), w)) && CanStep(c, h, crash);
    run, steps := [Start(), h, After(c, h, crash)], [Do(Put(k, x), w), crash];
  }

  /**
   After a save or delete that wrote a file, the store can be opened again if and only if the
   encoding fits the loader; one that had nothing to write leaves everything as it was.
   */
  lemma SavedStoreReopensIffItFits(c: Codec, h: History, op: Op, w: Weather)
    requires Invertible(c) && Succeeds(w.fails)
    ensures var saved := AfterDo(c, h, op, w);
            if Writes(op, h.memory) then
              && HasVersion(saved.disk)
              && Reload(c, Current(saved.disk))
                 == if |c.encode(saved.memory, w.nonce)| <= MAX_BYTES then Some(saved.memory) else None
            else saved == h
  {
    var file := Some(FileOf(c, Applied(op, h.memory), w.nonce));
    assert ReadBack(c, file) == Some(Applied(op, h.memory));
    ReloadIffItFits(c, file);
  }

  // ---------------------------------------------------------------------------
  // What a crash restores, read off the run
  // ---------------------------------------------------------------------------

  /** The step leaves one file only: a crash, or a write whose directory was synced. */
  ghost predicate IsDurable(h: History, step: Step) {
    || step.CrashDuring?
    || (step.Do? && Writes(step.op, h.memory) && Succeeds(step.weather.fails) && SyncDirectory !in step.weather.fails)
  }

  /** State `b` is the last one up to `m` that left one file only. */
  ghost predicate IsBase(run: seq<History>, steps: seq<Step>, b: nat, m: nat)
    requires m <= |steps| < |run|
  {
    && b <= m && (b == 0 || IsDurable(run[b - 1], steps[b - 1]))
    && forall q | b <= q < m :: !IsDurable(run[q], steps[q])
  }

  lemma {:induction false} FindBase(run: seq<History>, steps: seq<Step>, m: nat) returns (b: nat)
    requires m <= |steps| < |run|
    ensures IsBase(run, steps, b, m)
  {
    if m == 0 || IsDurable(run[m - 1], steps[m - 1]) {
      b := m;
    } else {
      b := FindBase(run, steps, m - 1);
    }
  }

  ghost predicate Restorable(c: Codec, h: History, r: Records) {
    exists v :: v in h.disk.versions && ReadBack(c, v) == Some(r)
  }

  /** A crash in state `m` can restore exactly the maps that memory has held since state `b`. */
  ghost predicate RestoresSince(c: Codec, run: seq<History>, b: nat, m: nat)
    requires b <= m < |run|
  {
    && (forall v | v in run[m].disk.versions ::
          exists j :: b <= j <= m && ReadBack(c, v) == Some(run[j].memory))
    && (forall j | b <= j <= m :: Restorable(c, run[m], run[j].memory))
  }

  lemma BaseRestoresItself(c: Codec, run: seq<History>, steps: seq<Step>, b: nat)
    requires Invertible(c) && IsRun(c, run, steps) && b < |run| && IsBase(run, steps, b, b)
    ensures RestoresSince(c, run, b, b)
  {
    RunsKeepMemoryAndFileInStep(c, run, steps, b);
    if b > 0 {
      assert CanStep(c, run[b - 1], steps[b - 1]) && run[b - 1 + 1] == After(c, run[b - 1], steps[b - 1]);
    }
    assert |run[b].disk.versions| == 1 && Current(run[b].disk) in run[b].disk.versions;
  }

  lemma NextRestores(c: Codec, run: seq<History>, b: nat, m: nat, op: Op, w: Weather)
    requires Invertible(c) && b <= m < m + 1 < |run| && RestoresSince(c, run, b, m)
    requires run[m + 1] == AfterDo(c, run[m], op, w) && !IsDurable(run[m], Do(op, w))
    ensures RestoresSince(c, run, b, m + 1)
  {
    var h, next := run[m], run[m + 1];
    var file := Some(FileOf(c, Applied(op, h.memory), w.nonce));
    assert ReadBack(c, file) == Some(Applied(op, h.memory));
    forall v | v in next.disk.versions
      ensures exists j :: b <= j <= m + 1 && ReadBack(c, v) == Some(run[j].memory)
    {
      if v in h.disk.versions {
        var j :| b <= j <= m && ReadBack(c, v) == Some(run[j].memory);
      } else {
        assert v == file && ReadBack(c, v) == Some(run[m + 1].memory);
      }
    }
    forall j | b <= j <= m + 1
      ensures Restorable(c, next, run[j].memory)
    {
      if j <= m {
        var v :| v in h.disk.versions && ReadBack(c, v) == Some(run[j].memory);
        assert v in next.disk.versions;
      } else if next.memory == h.memory && next.disk == h.disk {
        assert Restorable(c, h, run[m].memory);
      } else {
        assert file in next.disk.versions;
      }
    }
  }

  lemma {:induction false} RestorableMaps(c: Codec, run: seq<History>, steps: seq<Step>, b: nat, m: nat)
    requires Invertible(c) && IsRun(c, run, steps) && m < |run| && IsBase(run, steps, b, m)
    ensures RestoresSince(c, run, b, m)
    decreases m
  {
    if b == m {
      BaseRestoresItself(c, run, steps, b);
    } else {
      RestorableMaps(c, run, steps, b, m - 1);
      NextInRun(c, run, steps, m - 1);
      NextRestores(c, run, b, m - 1, steps[m - 1].op, steps[m - 1].weather);
    }
  }

  lemma NextInRun(c: Codec, run: seq<History>, steps: seq<Step>, m: nat)
    requires IsRun(c, run, steps) && m < |steps| && !IsDurable(run[m], steps[m])
    ensures steps[m].Do? && run[m + 1] == AfterDo(c, run[m], steps[m].op, steps[m].weather)
    ensures !IsDurable(run[m], Do(steps[m].op, steps[m].weather))
  {
    assert CanStep(c, run[m], steps[m]) && run[m + 1] == After(c, run[m], steps[m]);
  }

  /**
   Over every run, a crash can restore exactly the maps that memory has held since the last step
   that left one file only: the start, a crash, or a write whose directory was synced.  Hence
   every crash of a further write leaves the old or the new map if and only if memory has held
   no other since then.
   */
  lemma CrashInRunLeavesOldOrNew(c: Codec, run: seq<History>, steps: seq<Step>, m: nat, op: Op, nonce: Nonce)
    returns (b: nat)
    requires Invertible(c) && IsRun(c, run, steps) && m < |run| && Writes(op, run[m].memory)
    ensures IsBase(run, steps, b, m) && RestoresSince(c, run, b, m)
    ensures var before, after := run[m].memory, Applied(op, run[m].memory);
            (forall d: Disk, i | IsMoment(run[m].disk.versions, FileOf(c, after, nonce), d) && 0 <= i < |d.versions| ::
               IsOldOrNew(c, d.versions[i], before, after))
            <==> forall j | b <= j <= m :: run[j].memory == before || run[j].memory == after
  {
    b := FindBase(run, steps, m);
    RestorableMaps(c, run, steps, b, m);
    RunsKeepMemoryAndFileInStep(c, run, steps, m);
    CrashLeavesOldOrNew(c, run[m].disk, run[m].memory, Applied(op, run[m].memory), nonce);
    OldOrNewSince(c, run, b, m, Applied(op, run[m].memory));
  }

  lemma OldOrNewSince(c: Codec, run: seq<History>, b: nat, m: nat, after: Records)
    requires b <= m < |run| && RestoresSince(c, run, b, m)
    ensures (forall v | v in run[m].disk.versions :: IsOldOrNew(c, v, run[m].memory, after))
            <==> forall j | b <= j <= m :: run[j].memory == run[m].memory || run[j].memory == after
  {
    if forall v | v in run[m].disk.versions :: IsOldOrNew(c, v, run[m].memory, after) {
      forall j | b <= j <= m
        ensures run[j].memory == run[m].memory || run[j].memory == after
      {
        assert Restorable(c, run[m], run[j].memory);
        var v :| v in run[m].disk.versions && ReadBack(c, v) == Some(run[j].memory);
      }
    }
    if forall j | b <= j <= m :: run[j].memory == run[m].memory || run[j].memory == after {
      forall v | v in run[m].disk.versions
        ensures IsOldOrNew(c, v, run[m].memory, after)
      {
        var j :| b <= j <= m && ReadBack(c, v) == Some(run[j].memory);
      }
    }
  }
}
