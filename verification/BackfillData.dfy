// What a backfill leaves on disk: the refinement of one sequential sort.
module BackfillData {
  import opened Base
  import opened Decode
  import opened Rows
  import opened Parquet
  import opened StableSort
  import opened ChunkRanges
  import opened ChunkTask
  import opened Backfill

  // The rows of a file, if it can be read at all, and of the file under a name, if any.
  ghost function Read(file: ParquetFile): seq<Row> {
    if Readable(file) then RowsIn(file) else []
  }

  ghost function RowsAt(files: map<FileName, ParquetFile>, name: FileName): seq<Row> {
    if name in files then Read(files[name]) else []
  }

  // The rows of event type t in the files of the first n chunks, in chunk order.
  ghost function Data(env: Env, files: map<FileName, ParquetFile>, t: EventType, n: nat): seq<Row>
    requires n <= |env.ranges|
  {
    if n == 0 then [] else Data(env, files, t, n - 1) + RowsAt(files, FileName(t, env.ranges[n - 1]))
  }

  // All of the rows of event type t under the names of a backfill's chunks.
  ghost function DataOnDisk(env: Env, s: System, t: EventType): seq<Row> {
    Data(env, s.files, t, |env.ranges|)
  }

  // The reference: one sequential pass and one sort over the whole range.
  function Reference(chain: seq<ChainLog>, start: u64, end: u64, t: EventType): seq<Row>
  {
    SortRows(RowsOf(t, LogsIn(chain, Range(start, end))))
  }

  lemma LogsInSnoc(before: seq<ChainLog>, last: ChainLog, range: Range)
    ensures LogsIn(before + [last], range)
            == if range.Contains(last.block) then LogsIn(before, range) + [last.log] else LogsIn(before, range)
  {
    assert (before + [last])[..|before|] == before;
  }

  lemma {:induction false} RowsWithin(chain: seq<ChainLog>, range: Range, t: EventType)
    requires HonestBlocks(chain)
    ensures forall r :: r in RowsOf(t, LogsIn(chain, range)) ==> range.Contains(r.blockNumber)
  {
    hide DecodeLog, ColumnNames;
    if chain != [] {
      var before, last := chain[..|chain| - 1], chain[|chain| - 1];
      assert chain == before + [last];
      RowsWithin(before, range, t);
      LogsInSnoc(before, last, range);
      RowsOfSnoc(t, LogsIn(before, range), last.log);
    }
  }

  // The rows of one key depend only on whether the range holds the key's block.
  lemma {:induction false} KeyRows(chain: seq<ChainLog>, a: Range, b: Range, t: EventType, k: Row)
    requires HonestBlocks(chain) && (a.Contains(k.blockNumber) <==> b.Contains(k.blockNumber))
    ensures WithKey(RowsOf(t, LogsIn(chain, a)), k) == WithKey(RowsOf(t, LogsIn(chain, b)), k)
  {
    if chain != [] {
      hide DecodeLog, ColumnNames, RowsOf, LogsIn;
      var before, last := chain[..|chain| - 1], chain[|chain| - 1];
      assert chain == before + [last];
      KeyRows(before, a, b, t, k);
      KeyRowsSnoc(before, last, a, t, k);
      KeyRowsSnoc(before, last, b, t, k);
    }
  }

  lemma KeyRowsSnoc(before: seq<ChainLog>, last: ChainLog, range: Range, t: EventType, k: Row)
    requires last.log.blockNumber.Some? ==> last.log.blockNumber.value == last.block
    ensures WithKey(RowsOf(t, LogsIn(before + [last], range)), k)
            == WithKey(RowsOf(t, LogsIn(before, range)), k)
               + if range.Contains(k.blockNumber) then WithKey(RowPart(t, last.log), k) else []
  {
    hide DecodeLog, ColumnNames, RowsOf, LogsIn, IsEvent;
    LogsInSnoc(before, last, range);
    RowsOfSnoc(t, LogsIn(before, range), last.log);
    WithKeyConcat(RowsOf(t, LogsIn(before, range)), RowPart(t, last.log), k);
  }

  // Sorting what lies below a block and what lies above it, and appending, is
  // sorting the whole.
  lemma SortConcat(a: seq<Row>, b: seq<Row>, c: seq<Row>, mid: nat)
    requires forall r :: r in a ==> r.blockNumber <= mid
    requires forall r :: r in b ==> mid < r.blockNumber
    requires forall k: Row :: WithKey(c, k) == if k.blockNumber <= mid then WithKey(a, k) else WithKey(b, k)
    ensures SortRows(a) + SortRows(b) == SortRows(c)
  {
    SortRowsCorrect(a);
    SortRowsCorrect(b);
    hide SortRows, WithKey;
    var sa, sb := SortRows(a), SortRows(b);
    SameMembers(sa, a);
    SameMembers(sb, b);
    forall k ensures WithKey(sa + sb, k) == WithKey(c, k) {
      WithKeyConcat(sa, sb, k);
      if k.blockNumber <= mid {
        WithKeyNone(b, k);
      } else {
        WithKeyNone(a, k);
      }
    }
    assert Sorted(sa + sb);
    StableSortUnique(sa + sb, c);
  }

  lemma SameMembers(r: seq<Row>, s: seq<Row>)
    requires multiset(r) == multiset(s)
    ensures forall x :: x in r <==> x in s
  {
    assert forall x :: x in r <==> x in multiset(r);
  }

  lemma SortSplit(chain: seq<ChainLog>, lo: nat, mid: nat, hi: nat, t: EventType)
    requires HonestBlocks(chain) && lo <= mid < hi
    ensures SortRows(RowsOf(t, LogsIn(chain, Range(lo, mid)))) + SortRows(RowsOf(t, LogsIn(chain, Range(mid + 1, hi))))
            == SortRows(RowsOf(t, LogsIn(chain, Range(lo, hi))))
  {
    hide DecodeLog, ColumnNames, RowsOf, LogsIn, SortRows, WithKey;
    var a, b := RowsOf(t, LogsIn(chain, Range(lo, mid))), RowsOf(t, LogsIn(chain, Range(mid + 1, hi)));
    var c := RowsOf(t, LogsIn(chain, Range(lo, hi)));
    RowsWithin(chain, Range(lo, mid), t);
    RowsWithin(chain, Range(mid + 1, hi), t);
    forall k: Row
      ensures WithKey(c, k) == if k.blockNumber <= mid then WithKey(a, k) else WithKey(b, k)
    {
      KeyRows(chain, if k.blockNumber <= mid then Range(lo, mid) else Range(mid + 1, hi), Range(lo, hi), t, k);
    }
    SortConcat(a, b, c, mid);
  }

  lemma WithKeyNone(rows: seq<Row>, k: Row)
    requires forall r :: r in rows ==> r.blockNumber != k.blockNumber
    ensures WithKey(rows, k) == []
  {
    WithKeyMember(rows, k);
    assert WithKey(rows, k) != [] ==> WithKey(rows, k)[0] in WithKey(rows, k);
  }

  // --- the chunks of a range, sorted apart ---

  // The sorted rows of the first n chunks, one chunk after the other.
  function SortedChunks(env: Env, t: EventType, n: nat): seq<Row>
    requires n <= |env.ranges|
  {
    if n == 0 then [] else SortedChunks(env, t, n - 1) + SortRows(RowsOf(t, ChunkLogs(env, n - 1)))
  }

  lemma {:induction false} ChunksSortTogether(env: Env, t: EventType, n: nat)
    requires env.Valid() && 0 < n <= |env.ranges|
    ensures SortedChunks(env, t, n) == SortRows(RowsOf(t, LogsIn(env.chain, Range(env.start, env.ranges[n - 1].hi))))
  {
    hide DecodeLog, ColumnNames, RowsOf, LogsIn, SortRows;
    if n == 1 {
      assert SortedChunks(env, t, 0) == [];
    } else {
      ChunksSortTogether(env, t, n - 1);
      PartitionOrder(env.ranges, env.start, env.end, n - 2, n - 1);
      assert env.ranges[n - 1].lo == env.ranges[n - 2].hi + 1;
      SortSplit(env.chain, env.start, env.ranges[n - 2].hi, env.ranges[n - 1].hi, t);
      assert env.ranges[n - 1] == Range(env.ranges[n - 2].hi + 1, env.ranges[n - 1].hi);
    }
  }

  lemma WholeRangeSorted(env: Env, t: EventType)
    requires env.Valid()
    ensures SortedChunks(env, t, |env.ranges|) == Reference(env.chain, env.start, env.end, t)
  {
    ChunksSortTogether(env, t, |env.ranges|);
  }

  // --- the directory after a run ---

  // The run writes a file under this name if nothing fails: it names a chunk of
  // the run and a type that has a row in it.
  ghost predicate Owns(env: Env, name: FileName) {
    exists i :: 0 <= i < |env.ranges| && env.ranges[i] == name.range && RowsOf(name.eventType, ChunkLogs(env, i)) != []
  }

  // In every state of every run, also of one that fails, each file on disk was
  // there before the run, or is a torn one whose write was reported as failed, or
  // is the whole and sorted file of one chunk: under the columns of its event type
  // it holds the sorted rows, with that type in every row.
  lemma EveryFileIsRight(env: Env, steps: seq<Step>, name: FileName)
    requires env.Valid() && IsRun(env, steps) && name in Exec(env, steps).files
    ensures var s := Exec(env, steps);
            || AsBefore(env, s.files, name)
            || (Owns(env, name) && s.files[name] == Torn && WriteFailed(name.range, name.eventType) in s.failures)
            || (&& Owns(env, name)
                && Read(s.files[name]) == SortRows(RowsOf(name.eventType, LogsIn(env.chain, name.range)))
                && s.files[name].ParquetFile?
                && Lays(s.files[name].schema, s.files[name].arrays, name.eventType, ColumnNames(name.eventType),
                        SortRows(RowsOf(name.eventType, LogsIn(env.chain, name.range)))))
  {
    var s := Exec(env, steps);
    RunKeepsFiles(env, steps);
    hide Exec, IsRun, RowsOf, DecodeLog, ColumnNames, LogsIn, ChunkFile, SortRows, AsBefore, Lays;
    if name.range in env.ranges {
      var i :| 0 <= i < |env.ranges| && env.ranges[i] == name.range;
      assert FileInv(env, s, i, name.eventType);
      ChunkFileRows(name.eventType, ChunkLogs(env, i));
    }
  }

  // A name the run does not own is never touched, however the run goes.
  lemma OthersUntouched(env: Env, steps: seq<Step>, name: FileName)
    requires env.Valid() && IsRun(env, steps) && !Owns(env, name)
    ensures AsBefore(env, Exec(env, steps).files, name)
  {
    var s := Exec(env, steps);
    RunKeepsFiles(env, steps);
    hide Exec, IsRun, RowsOf, DecodeLog, ColumnNames, LogsIn, ChunkFile, AsBefore;
    if name.range in env.ranges {
      var i :| 0 <= i < |env.ranges| && env.ranges[i] == name.range;
      assert FileInv(env, s, i, name.eventType);
    }
  }

  // A finished run in which no chunk's fetch was reported as failed, nor a write of
  // type t.  Writes of other types may have failed, and decoded logs may have
  // lacked metadata, in which case the run returns an error all the same.
  ghost predicate Clean(env: Env, s: System, t: EventType) {
    && Terminal(s)
    && forall range :: range in env.ranges ==>
                         FetchFailed(range) !in s.failures && WriteFailed(range, t) !in s.failures
  }

  lemma OkIsClean(env: Env, s: System)
    requires ReturnsOk(s)
    ensures forall t :: Clean(env, s, t)
  {
  }

  // A clean run leaves the right file under every name it owns, whatever was there
  // before.  With OthersUntouched: the directory is the earlier one, overwritten by
  // the run's files.
  lemma CleanOverwrites(env: Env, steps: seq<Step>, name: FileName)
    requires env.Valid() && IsRun(env, steps) && Clean(env, Exec(env, steps), name.eventType) && Owns(env, name)
    ensures name in Exec(env, steps).files
    ensures Exec(env, steps).files[name] == ChunkFile(name.eventType, LogsIn(env.chain, name.range))
  {
    var s := Exec(env, steps);
    RunKeepsFiles(env, steps);
    hide Exec, IsRun, RowsOf, DecodeLog, ColumnNames, LogsIn, ChunkFile, AsBefore;
    var i :| 0 <= i < |env.ranges| && env.ranges[i] == name.range && RowsOf(name.eventType, ChunkLogs(env, i)) != [];
    assert PhaseInv(env, s, i) && FileInv(env, s, i, name.eventType);
    assert Settled(env, s, i, name.eventType);
  }

  lemma OwnsChunk(env: Env, i: nat, t: EventType)
    requires env.Valid() && i < |env.ranges|
    ensures Owns(env, FileName(t, env.ranges[i])) <==> RowsOf(t, ChunkLogs(env, i)) != []
  {
    hide RowsOf, LogsIn;
  }

  // What a reader finds under the name of a chunk after a clean run.
  lemma CleanChunkRows(env: Env, steps: seq<Step>, i: nat, t: EventType)
    requires env.Valid() && IsRun(env, steps) && Clean(env, Exec(env, steps), t) && i < |env.ranges|
    ensures RowsAt(Exec(env, steps).files, FileName(t, env.ranges[i]))
            == if RowsOf(t, ChunkLogs(env, i)) == [] then RowsAt(env.directory, FileName(t, env.ranges[i]))
               else SortRows(RowsOf(t, ChunkLogs(env, i)))
  {
    var name := FileName(t, env.ranges[i]);
    hide Exec, IsRun, Clean, RowsOf, ChunkFile, SortRows, Readable, Owns;
    OwnsChunk(env, i, t);
    if RowsOf(t, ChunkLogs(env, i)) == [] {
      OthersUntouched(env, steps, name);
    } else {
      CleanOverwrites(env, steps, name);
      ChunkFileRows(t, ChunkLogs(env, i));
    }
  }

  // Rows that the directory already had under the name of a chunk and a type
  // without rows.  A backfill writes no file there, and removes none.
  ghost function StaleRows(env: Env, t: EventType, n: nat): nat
    requires n <= |env.ranges|
  {
    if n == 0 then 0
    else
      StaleRows(env, t, n - 1)
      + if RowsOf(t, ChunkLogs(env, n - 1)) == [] then |RowsAt(env.directory, FileName(t, env.ranges[n - 1]))| else 0
  }

  ghost predicate NoStaleRows(env: Env, t: EventType) {
    forall i :: 0 <= i < |env.ranges| && RowsOf(t, ChunkLogs(env, i)) == [] ==>
                  RowsAt(env.directory, FileName(t, env.ranges[i])) == []
  }

  lemma {:induction false} StaleRowsZero(env: Env, t: EventType, n: nat)
    requires n <= |env.ranges|
    ensures StaleRows(env, t, n) == 0 <==>
            forall i :: 0 <= i < n && RowsOf(t, ChunkLogs(env, i)) == [] ==>
                          RowsAt(env.directory, FileName(t, env.ranges[i])) == []
  {
    hide RowsOf, RowsAt, ChunkLogs;
    if n > 0 {
      StaleRowsZero(env, t, n - 1);
    }
  }

  lemma {:induction false} CleanData(env: Env, steps: seq<Step>, t: EventType, n: nat)
    requires env.Valid() && IsRun(env, steps) && Clean(env, Exec(env, steps), t) && n <= |env.ranges|
    ensures var data := Data(env, Exec(env, steps).files, t, n);
            && |data| == |SortedChunks(env, t, n)| + StaleRows(env, t, n)
            && (StaleRows(env, t, n) == 0 ==> data == SortedChunks(env, t, n))
  {
    hide Exec, IsRun, Clean, RowsOf, RowsAt, ChunkLogs, SortRows;
    if n > 0 {
      CleanData(env, steps, t, n - 1);
      CleanChunkRows(env, steps, n - 1, t);
      SortsNothing(RowsOf(t, ChunkLogs(env, n - 1)));
    }
  }

  lemma SortsNothing(rows: seq<Row>)
    ensures rows == [] ==> SortRows(rows) == []
  {
  }

  // The main theorem.  Whatever the interleaving, the parallelism, the rate, the
  // chunk boundaries and the order of visiting the per-type map, and whether or
  // not some logs lacked metadata, the files of a clean run, read in chunk order,
  // are one stable sort of the complete rows of the range, exactly if the
  // directory had no rows under the name of a chunk and a type without rows.  It
  // is enough that it had none of the run's file names.
  lemma BackfillRefinesSequentialSort(env: Env, steps: seq<Step>, t: EventType)
    requires env.Valid() && IsRun(env, steps) && Clean(env, Exec(env, steps), t)
    ensures DataOnDisk(env, Exec(env, steps), t) == Reference(env.chain, env.start, env.end, t) <==> NoStaleRows(env, t)
    ensures (forall i :: 0 <= i < |env.ranges| ==> FileName(t, env.ranges[i]) !in env.directory) ==> NoStaleRows(env, t)
  {
    hide Exec, IsRun, Clean, RowsOf, ChunkLogs, SortedChunks, Reference, Read;
    CleanData(env, steps, t, |env.ranges|);
    StaleRowsZero(env, t, |env.ranges|);
    WholeRangeSorted(env, t);
  }

  // In particular after a run that returns Ok.
  lemma OkRefinesSequentialSort(env: Env, steps: seq<Step>, t: EventType)
    requires env.Valid() && IsRun(env, steps) && ReturnsOk(Exec(env, steps))
    ensures DataOnDisk(env, Exec(env, steps), t) == Reference(env.chain, env.start, env.end, t) <==> NoStaleRows(env, t)
  {
    OkIsClean(env, Exec(env, steps));
    hide *;
    BackfillRefinesSequentialSort(env, steps, t);
  }

  // So no setting changes the data.
  lemma SettingsDoNotMatter(a: Env, stepsA: seq<Step>, b: Env, stepsB: seq<Step>, t: EventType)
    requires a.Valid() && IsRun(a, stepsA) && Clean(a, Exec(a, stepsA), t) && NoStaleRows(a, t)
    requires b.Valid() && IsRun(b, stepsB) && Clean(b, Exec(b, stepsB), t) && NoStaleRows(b, t)
    requires a.chain == b.chain && a.start == b.start && a.end == b.end
    ensures DataOnDisk(a, Exec(a, stepsA), t) == DataOnDisk(b, Exec(b, stepsB), t)
  {
    hide Exec, IsRun, Clean, NoStaleRows, DataOnDisk, Reference;
    BackfillRefinesSequentialSort(a, stepsA, t);
    BackfillRefinesSequentialSort(b, stepsB, t);
  }

  // Whatever a directory holds under the names that a backfill owns, also files
  // torn by a crash, is of no account to the data that it leaves.
  lemma OwnNamesDoNotMatter(a: Env, b: Env, stepsB: seq<Step>, t: EventType)
    requires a.Valid() && b.Valid() && b.chain == a.chain && b.ranges == a.ranges
    requires forall name :: !Owns(a, name) ==> AsBefore(a, b.directory, name)
    requires IsRun(b, stepsB) && Clean(b, Exec(b, stepsB), t)
    ensures DataOnDisk(b, Exec(b, stepsB), t) == Reference(b.chain, b.start, b.end, t) <==> NoStaleRows(a, t)
  {
    hide Exec, IsRun, Clean, RowsOf, Reference, DataOnDisk, Read, Owns, LogsIn;
    BackfillRefinesSequentialSort(b, stepsB, t);
    forall i | 0 <= i < |a.ranges| && RowsOf(t, ChunkLogs(a, i)) == []
      ensures RowsAt(b.directory, FileName(t, a.ranges[i])) == RowsAt(a.directory, FileName(t, a.ranges[i]))
    {
      OwnsChunk(a, i, t);
      assert AsBefore(a, b.directory, FileName(t, a.ranges[i]));
    }
  }

  // So a backfill can be repeated: in the directory that any earlier run of the
  // same chunks has left, however that run went, a clean run has the right data
  // exactly if the earlier one could have had it.
  lemma RepeatingIsSafe(a: Env, stepsA: seq<Step>, b: Env, stepsB: seq<Step>, t: EventType)
    requires a.Valid() && IsRun(a, stepsA)
    requires b.Valid() && b.chain == a.chain && b.ranges == a.ranges && b.directory == Exec(a, stepsA).files
    requires IsRun(b, stepsB) && Clean(b, Exec(b, stepsB), t)
    ensures DataOnDisk(b, Exec(b, stepsB), t) == Reference(b.chain, b.start, b.end, t) <==> NoStaleRows(a, t)
  {
    hide *;
    forall name | !Owns(a, name) ensures AsBefore(a, b.directory, name) {
      OthersUntouched(a, stepsA, name);
    }
    OwnNamesDoNotMatter(a, b, stepsB, t);
  }

  // --- directories that only backfills have written ---

  // Each file reads as nothing or as the sorted rows that its name stands for.
  ghost predicate Honest(chain: seq<ChainLog>, files: map<FileName, ParquetFile>) {
    forall name :: name in files ==>
                     || Read(files[name]) == []
                     || Read(files[name]) == SortRows(RowsOf(name.eventType, LogsIn(chain, name.range)))
  }

  // A backfill keeps a directory honest in every state, whatever its settings and
  // however it goes.
  lemma RunKeepsHonest(env: Env, steps: seq<Step>)
    requires env.Valid() && IsRun(env, steps) && Honest(env.chain, env.directory)
    ensures Honest(env.chain, Exec(env, steps).files)
  {
    hide Exec, IsRun, RowsOf, LogsIn, SortRows, Owns, RowsIn;
    forall name | name in Exec(env, steps).files
      ensures var file := Exec(env, steps).files[name];
              || Read(file) == []
              || Read(file) == SortRows(RowsOf(name.eventType, LogsIn(env.chain, name.range)))
    {
      EveryFileIsRight(env, steps, name);
    }
  }

  // And in an honest directory stale rows cannot occur.
  lemma HonestHasNoStaleRows(env: Env, t: EventType)
    requires Honest(env.chain, env.directory)
    ensures NoStaleRows(env, t)
  {
    hide RowsOf, LogsIn, SortRows, Read;
    forall i | 0 <= i < |env.ranges| && RowsOf(t, ChunkLogs(env, i)) == []
      ensures RowsAt(env.directory, FileName(t, env.ranges[i])) == []
    {
      SortsNothing(RowsOf(t, ChunkLogs(env, i)));
    }
  }

  datatype Backfilled = Backfilled(env: Env, steps: seq<Step>)

  // Backfills of one chain, one after the other in one directory that was empty
  // at first; each may have its own range and settings, and stop or fail anywhere.
  ghost predicate IsHistory(chain: seq<ChainLog>, runs: seq<Backfilled>)
    decreases |runs|, 0
  {
    runs == []
    || (&& IsHistory(chain, runs[..|runs| - 1])
        && var last := runs[|runs| - 1];
           && last.env.Valid() && last.env.chain == chain && IsRun(last.env, last.steps)
           && last.env.directory == DirectoryAfter(chain, runs[..|runs| - 1]))
  }

  ghost function DirectoryAfter(chain: seq<ChainLog>, runs: seq<Backfilled>): map<FileName, ParquetFile>
    requires IsHistory(chain, runs)
    decreases |runs|, 1
  {
    if runs == [] then map[] else Exec(runs[|runs| - 1].env, runs[|runs| - 1].steps).files
  }

  lemma {:induction false} HistoryIsHonest(chain: seq<ChainLog>, runs: seq<Backfilled>)
    requires IsHistory(chain, runs)
    ensures Honest(chain, DirectoryAfter(chain, runs))
    decreases |runs|
  {
    hide Honest, Exec, IsRun;
    if runs == [] {
      NothingIsHonest(chain);
    } else {
      HistoryIsHonest(chain, runs[..|runs| - 1]);
      RunKeepsHonest(runs[|runs| - 1].env, runs[|runs| - 1].steps);
    }
  }

  lemma NothingIsHonest(chain: seq<ChainLog>)
    ensures Honest(chain, map[])
  {
  }

  // So a clean run has the right data in any directory that only backfills of its
  // chain have written, whatever these were and however they went.
  lemma HistoryDoesNotMatter(runs: seq<Backfilled>, env: Env, steps: seq<Step>, t: EventType)
    requires IsHistory(env.chain, runs) && env.directory == DirectoryAfter(env.chain, runs)
    requires env.Valid() && IsRun(env, steps) && Clean(env, Exec(env, steps), t)
    ensures DataOnDisk(env, Exec(env, steps), t) == Reference(env.chain, env.start, env.end, t)
  {
    hide *;
    HistoryIsHonest(env.chain, runs);
    HonestHasNoStaleRows(env, t);
    BackfillRefinesSequentialSort(env, steps, t);
  }
}
