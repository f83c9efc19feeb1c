/** The file-backed state store of the labeller (packages/core/src/state/file.ts):
    a bounded first-in-first-out window of the ids of processed emails and the
    time stamp of the last run. The JSON file is the field `file`; every
    operation loads it, changes the loaded state and saves it back. The clock
    (`new Date().toISOString()`) is the `now` parameter. */
module StateStore {
  import opened Wrappers
  import opened Errors

  /** The persisted record. */
  datatype FileState = FileState(processedIds: seq<string>, lastRun: string)

  /** What is on disk: no file yet, a file that `JSON.parse` rejects, or a
      saved record. */
  datatype StoredFile = Missing | Corrupt | Saved(state: FileState)

  /** `maxProcessedIds` when the options leave it out. */
  const DefaultMaxProcessedIds := 5000

  const ParseFailure := Thrown("state file is not valid JSON")
  const WriteFailure := Thrown("state file could not be written")

  // ----- the processed-id window -----

  /** `s.slice(start)`: a negative start counts from the end and is clamped
      to the beginning; a start past the end gives the empty list. */
  function SliceFrom<T>(s: seq<T>, start: int): (r: seq<T>)
    ensures |r| <= |s|
    ensures r == s[|s| - |r|..]
    ensures start < 0 ==> |r| == if -start <= |s| then -start else |s|
    ensures start >= 0 ==> |r| == if start <= |s| then |s| - start else 0
  {
    if start < 0 then (if |s| + start < 0 then s else s[|s| + start..])
    else if start < |s| then s[start..] else []
  }

  /** `s.slice(-max)`: the newest `max` entries. `-0` is `0`, so a bound of
      zero keeps everything; a negative bound drops the oldest `-max`. */
  function Window<T>(s: seq<T>, max: int): (r: seq<T>)
    ensures |r| <= |s|
    ensures r == s[|s| - |r|..]
    ensures max > 0 ==> |r| == if |s| <= max then |s| else max
    ensures max == 0 ==> r == s
    ensures max < 0 ==> |r| == if -max <= |s| then |s| + max else 0
  {
    SliceFrom(s, -max)
  }

  /** `ids.filter(id => !stored.includes(id))`, which is also what
      `filterUnprocessed` returns: the ids not stored, in their order, with
      repetitions kept. */
  function NewIds(stored: seq<string>, ids: seq<string>): (r: seq<string>)
    ensures |r| <= |ids|
    ensures forall x :: x in r <==> x in ids && x !in stored
  {
    if ids == [] then []
    else NewIds(stored, ids[..|ids| - 1]) + (if ids[|ids| - 1] in stored then [] else [ids[|ids| - 1]])
  }

  /** The id list `markProcessed(ids)` leaves behind. */
  function Marked(stored: seq<string>, ids: seq<string>, max: int): seq<string>
  {
    Window(stored + NewIds(stored, ids), max)
  }

  // ----- the file operations as transitions -----

  /** `load()`: a missing file reads as an empty record, a corrupt one throws. */
  function LoadState(file: StoredFile): (r: Result<FileState, Error>)
    ensures r.Err? <==> file.Corrupt?
    ensures file.Missing? ==> r == Ok(FileState([], ""))
    ensures file.Saved? ==> r == Ok(file.state)
  {
    match file
    case Missing => Ok(FileState([], ""))
    case Corrupt => Err(ParseFailure)
    case Saved(state) => Ok(state)
  }

  /** `save(state)`: a failed write throws and leaves the file as it was. */
  function SaveStep(file: StoredFile, state: FileState, writable: bool): (r: (StoredFile, Option<Error>))
    ensures r.1.None? <==> writable
    ensures writable ==> r.0 == Saved(state)
    ensures !writable ==> r.0 == file
  {
    if writable then (Saved(state), None) else (file, Some(WriteFailure))
  }

  /** The file after `markProcessed(ids)` and what it threw, if anything. */
  function MarkStep(file: StoredFile, ids: seq<string>, now: string, max: int, writable: bool): (r: (StoredFile, Option<Error>))
    ensures r.1.None? <==> !file.Corrupt? && writable
    ensures r.1.Some? ==> r.0 == file
    ensures r.1.None? ==> r.0 == Saved(FileState(Marked(LoadState(file).value.processedIds, ids, max), now))
  {
    match LoadState(file)
    case Err(e) => (file, Some(e))
    case Ok(st) => SaveStep(file, st.(processedIds := Marked(st.processedIds, ids, max), lastRun := now), writable)
  }

  /** `clearProcessed()` writes a fresh record without loading the old one. */
  function ClearStep(file: StoredFile, now: string, writable: bool): (r: (StoredFile, Option<Error>))
    ensures r.1.None? <==> writable
    ensures writable ==> r.0 == Saved(FileState([], now))
    ensures !writable ==> r.0 == file
  {
    SaveStep(file, FileState([], now), writable)
  }

  /** `setLastRun(date)` with `date.toISOString()` as `iso`. */
  function SetLastRunStep(file: StoredFile, iso: string, writable: bool): (r: (StoredFile, Option<Error>))
    ensures r.1.None? <==> !file.Corrupt? && writable
    ensures r.1.Some? ==> r.0 == file
    ensures r.1.None? ==> r.0 == Saved(FileState(LoadState(file).value.processedIds, iso))
  {
    match LoadState(file)
    case Err(e) => (file, Some(e))
    case Ok(st) => SaveStep(file, st.(lastRun := iso), writable)
  }

  // ----- what marking promises -----

  /** A bound of zero, or a positive bound the list stays within. */
  predicate WithinBound(ids: seq<string>, max: int) {
    max == 0 || (max > 0 && |ids| <= max)
  }

  predicate NoDuplicates(ids: seq<string>) {
    forall i, j :: 0 <= i < j < |ids| ==> ids[i] != ids[j]
  }

  /** Filtering distributes over concatenation, so the new ids keep the
      argument order. */
  lemma {:induction false} NewIdsAppend(stored: seq<string>, a: seq<string>, b: seq<string>)
    ensures NewIds(stored, a + b) == NewIds(stored, a) + NewIds(stored, b)
    decreases |b|
  {
    if b == [] {
      assert a + b == a;
    } else {
      var b' := b[..|b| - 1];
      var x := b[|b| - 1];
      assert (a + b)[..|a + b| - 1] == a + b';
      assert (a + b)[|a + b| - 1] == x;
      NewIdsAppend(stored, a, b');
    }
  }

  /** Ids that are all stored leave nothing new. */
  lemma {:induction false} NewIdsNoneNew(stored: seq<string>, ids: seq<string>)
    requires forall id :: id in ids ==> id in stored
    ensures NewIds(stored, ids) == []
    decreases |ids|
  {
    if ids != [] {
      var front := ids[..|ids| - 1];
      assert forall id :: id in front ==> id in ids;
      NewIdsNoneNew(stored, front);
      assert ids[|ids| - 1] in ids;
    }
  }

  /** While everything fits, nothing is evicted: every marked id is stored and
      every old id stays. */
  lemma MarkedKeepsAll(stored: seq<string>, ids: seq<string>, max: int)
    requires WithinBound(stored + NewIds(stored, ids), max)
    ensures Marked(stored, ids, max) == stored + NewIds(stored, ids)
    ensures forall id :: id in ids ==> id in Marked(stored, ids, max)
  {
    var m := Marked(stored, ids, max);
    forall id | id in ids ensures id in m {
      if id !in stored {
        assert id in NewIds(stored, ids);
      }
    }
  }

  /** Marking ids that are all stored changes nothing but the time stamp. */
  lemma MarkedStoredOnly(stored: seq<string>, ids: seq<string>, max: int)
    requires WithinBound(stored, max)
    requires forall id :: id in ids ==> id in stored
    ensures Marked(stored, ids, max) == stored
  {
    NewIdsNoneNew(stored, ids);
    assert stored + NewIds(stored, ids) == stored;
  }

  /** Marking the same ids twice is marking them once, as long as the first
      marking kept them all. */
  lemma MarkedIdempotent(stored: seq<string>, ids: seq<string>, max: int)
    requires WithinBound(stored + NewIds(stored, ids), max)
    ensures Marked(Marked(stored, ids, max), ids, max) == Marked(stored, ids, max)
  {
    MarkedKeepsAll(stored, ids, max);
    MarkedStoredOnly(Marked(stored, ids, max), ids, max);
  }

  /** A single id just marked is stored afterwards, whether or not it was
      stored before. */
  lemma MarkedOneIsStored(stored: seq<string>, id: string, max: int)
    requires WithinBound(stored, max)
    ensures id in Marked(stored, [id], max)
  {
    var n := NewIds(stored, [id]);
    if id in stored {
      MarkedStoredOnly(stored, [id], max);
    } else {
      assert n == [id] by {
        assert [id][..0] == [];
      }
      var all := stored + n;
      var m := Marked(stored, [id], max);
      assert |m| > 0;
      assert m[|m| - 1] == all[|all| - 1] == id;
    }
  }

  lemma {:induction false} NewIdsNoDuplicates(stored: seq<string>, ids: seq<string>)
    requires NoDuplicates(ids)
    ensures NoDuplicates(NewIds(stored, ids))
    decreases |ids|
  {
    if ids != [] {
      var front := ids[..|ids| - 1];
      var x := ids[|ids| - 1];
      assert NoDuplicates(front);
      NewIdsNoDuplicates(stored, front);
      assert x !in front by {
        forall k | 0 <= k < |front| ensures front[k] != x {
          assert front[k] == ids[k];
        }
      }
    }
  }

  /** An id list free of repetitions stays free of them when ids that are
      themselves distinct are marked. */
  lemma MarkedNoDuplicates(stored: seq<string>, ids: seq<string>, max: int)
    requires NoDuplicates(stored) && NoDuplicates(ids)
    ensures NoDuplicates(Marked(stored, ids, max))
  {
    var n := NewIds(stored, ids);
    NewIdsNoDuplicates(stored, ids);
    var all := stored + n;
    forall i, j | 0 <= i < j < |all| ensures all[i] != all[j] {
      if j < |stored| {
      } else if i >= |stored| {
        assert all[i] == n[i - |stored|] && all[j] == n[j - |stored|];
      } else {
        assert all[j] == n[j - |stored|];
        assert all[j] in n;
        assert all[i] in stored;
      }
    }
    var m := Marked(stored, ids, max);
    forall i, j | 0 <= i < j < |m| ensures m[i] != m[j] {
      assert m[i] == all[|all| - |m| + i] && m[j] == all[|all| - |m| + j];
    }
  }

  /** Repetitions inside one argument list are all appended: the filter
      compares against the stored list only. */
  lemma MarkedRepeatsWithinOneCall()
    ensures Marked([], ["m1", "m1"], DefaultMaxProcessedIds) == ["m1", "m1"]
  {
    assert NewIds([], ["m1"]) == ["m1"] by {
      assert ["m1"][..0] == [];
    }
    assert ["m1", "m1"][..1] == ["m1"];
  }

  /** After a successful `markProcessed([id])`, `isProcessed(id)` holds. */
  lemma MarkThenProcessed(file: StoredFile, id: string, now: string, max: int, writable: bool)
    requires LoadState(file).Ok? && WithinBound(LoadState(file).value.processedIds, max)
    requires writable
    ensures MarkStep(file, [id], now, max, writable).1.None?
    ensures id in LoadState(MarkStep(file, [id], now, max, writable).0).value.processedIds
  {
    MarkedOneIsStored(LoadState(file).value.processedIds, id, max);
  }

  /** A successful `markProcessed(ids)` leaves `filterUnprocessed(ids)` empty
      while the window has room. */
  lemma MarkThenNothingUnprocessed(file: StoredFile, ids: seq<string>, now: string, max: int, writable: bool)
    requires LoadState(file).Ok? && writable
    requires var stored := LoadState(file).value.processedIds;
      WithinBound(stored + NewIds(stored, ids), max)
    ensures NewIds(LoadState(MarkStep(file, ids, now, max, writable).0).value.processedIds, ids) == []
  {
    var stored := LoadState(file).value.processedIds;
    MarkedKeepsAll(stored, ids, max);
    NewIdsNoneNew(Marked(stored, ids, max), ids);
  }

  // ----- the store object -----

  class FileStateStore {
    /** The contents of the state file. */
    var file: StoredFile
    /** The `maxProcessedIds` option. */
    const maxProcessedIds: int
    /** Whether `writeFileSync` succeeds on the state path. */
    const writable: bool

    /** `createFileStateStore({ path, maxProcessedIds })` over a file that
        holds `contents`. */
    constructor (contents: StoredFile, maxProcessedIds: Option<int>, writable: bool)
      ensures file == contents && this.writable == writable
      ensures this.maxProcessedIds == maxProcessedIds.GetOr(DefaultMaxProcessedIds)
    {
      file := contents;
      this.maxProcessedIds := maxProcessedIds.GetOr(DefaultMaxProcessedIds);
      this.writable := writable;
    }

    function Load(): Result<FileState, Error>
      reads this
    {
      LoadState(file)
    }

    method Save(state: FileState) returns (failure: Option<Error>)
      modifies this
      ensures (file, failure) == SaveStep(old(file), state, writable)
    {
      if writable {
        file := Saved(state);
        failure := None;
      } else {
        failure := Some(WriteFailure);
      }
    }

    method MarkProcessed(emailIds: seq<string>, now: string) returns (failure: Option<Error>)
      modifies this
      ensures (file, failure) == MarkStep(old(file), emailIds, now, maxProcessedIds, writable)
    {
      var loaded := Load();
      if loaded.Err? {
        return Some(loaded.error);
      }
      var state := loaded.value;
      var newIds := NewIds(state.processedIds, emailIds);
      state := state.(processedIds := Window(state.processedIds + newIds, maxProcessedIds));
      state := state.(lastRun := now);
      failure := Save(state);
    }

    method IsProcessed(emailId: string) returns (r: Result<bool, Error>)
      ensures r.Err? <==> file.Corrupt?
      ensures r.Err? ==> r.error == Load().error
      ensures r.Ok? ==> (r.value <==> emailId in Load().value.processedIds)
    {
      var loaded := Load();
      if loaded.Err? {
        return Err(loaded.error);
      }
      r := Ok(emailId in loaded.value.processedIds);
    }

    method FilterUnprocessed(emailIds: seq<string>) returns (r: Result<seq<string>, Error>)
      ensures r.Err? <==> file.Corrupt?
      ensures r.Err? ==> r.error == Load().error
      ensures r.Ok? ==> r.value == NewIds(Load().value.processedIds, emailIds)
      ensures r.Ok? ==> forall id :: id in r.value <==> id in emailIds && id !in Load().value.processedIds
    {
      var loaded := Load();
      if loaded.Err? {
        return Err(loaded.error);
      }
      r := Ok(NewIds(loaded.value.processedIds, emailIds));
    }

    method ClearProcessed(now: string) returns (failure: Option<Error>)
      modifies this
      ensures (file, failure) == ClearStep(old(file), now, writable)
    {
      failure := Save(FileState([], now));
    }

    /** `getLastRun()`: the stored stamp, or nothing when it is empty. */
    method GetLastRun() returns (r: Result<Option<string>, Error>)
      ensures r.Err? <==> file.Corrupt?
      ensures r.Err? ==> r.error == Load().error
      ensures r.Ok? ==> (r.value.None? <==> Load().value.lastRun == "")
      ensures r.Ok? && r.value.Some? ==> r.value.value == Load().value.lastRun
      ensures file.Missing? ==> r == Ok(None)
    {
      var loaded := Load();
      if loaded.Err? {
        return Err(loaded.error);
      }
      var lastRun := loaded.value.lastRun;
      r := Ok(if lastRun != "" then Some(lastRun) else None);
    }

    method SetLastRun(iso: string) returns (failure: Option<Error>)
      modifies this
      ensures (file, failure) == SetLastRunStep(old(file), iso, writable)
    {
      var loaded := Load();
      if loaded.Err? {
        return Some(loaded.error);
      }
      var state := loaded.value.(lastRun := iso);
      failure := Save(state);
    }
  }
}
