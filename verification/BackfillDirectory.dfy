// The whole output directory: what a backfill adds to the rows that were there.
module BackfillDirectory {
  import opened Decode
  import opened Rows
  import opened Parquet
  import opened StableSort
  import opened ChunkRanges
  import opened ChunkTask
  import opened Backfill
  import opened BackfillData

  // All rows of some files, each as often as it is there.
  ghost function AllRows(files: map<FileName, ParquetFile>): multiset<Row>
    decreases files.Keys
  {
    if files == map[] then multiset{}
    else
      var name :| name in files;
      AllRows(files - {name}) + multiset(Read(files[name]))
  }

  ghost function OfType(files: map<FileName, ParquetFile>, t: EventType): map<FileName, ParquetFile> {
    map name | name in files && name.eventType == t :: files[name]
  }

  // What a reader of all files of a type finds, whatever their names.
  ghost function OnDisk(files: map<FileName, ParquetFile>, t: EventType): multiset<Row> {
    AllRows(OfType(files, t))
  }

  // It does not matter which file is read first.
  lemma {:induction false} TakeOut(files: map<FileName, ParquetFile>, name: FileName)
    requires name in files
    ensures AllRows(files) == AllRows(files - {name}) + multiset(Read(files[name]))
    decreases files.Keys
  {
    hide Read;
    var first :| first in files && AllRows(files) == AllRows(files - {first}) + multiset(Read(files[first]));
    if first != name {
      TakeOut(files - {first}, name);
      TakeOut(files - {name}, first);
      assert files - {first} - {name} == files - {name} - {first};
    }
  }

  lemma PutIn(files: map<FileName, ParquetFile>, name: FileName, file: ParquetFile)
    requires name !in files
    ensures AllRows(files[name := file]) == AllRows(files) + multiset(Read(file))
  {
    hide Read, AllRows;
    TakeOut(files[name := file], name);
    assert files[name := file] - {name} == files;
  }

  // The files of earlier runs that a backfill leaves alone.
  ghost function Leftover(env: Env): map<FileName, ParquetFile> {
    map name | name in env.directory && !Owns(env, name) :: env.directory[name]
  }

  // The leftover files of type t and those of the first n chunks.
  ghost function Stage(env: Env, t: EventType, n: nat): map<FileName, ParquetFile>
    requires n <= |env.ranges|
  {
    if n == 0 then OfType(Leftover(env), t)
    else if RowsOf(t, ChunkLogs(env, n - 1)) == [] then Stage(env, t, n - 1)
    else Stage(env, t, n - 1)[FileName(t, env.ranges[n - 1]) := ChunkFile(t, ChunkLogs(env, n - 1))]
  }

  ghost predicate InChunks(env: Env, t: EventType, n: nat, name: FileName)
    requires n <= |env.ranges|
  {
    exists i :: 0 <= i < n && name == FileName(t, env.ranges[i]) && RowsOf(t, ChunkLogs(env, i)) != []
  }

  lemma {:induction false} StageNames(env: Env, t: EventType, n: nat, name: FileName)
    requires env.Valid() && n <= |env.ranges|
    ensures name in Stage(env, t, n) <==> name in OfType(Leftover(env), t) || InChunks(env, t, n, name)
    ensures InChunks(env, t, n, name) ==> Stage(env, t, n)[name] == ChunkFile(t, LogsIn(env.chain, name.range))
    ensures name in OfType(Leftover(env), t) ==>
              !InChunks(env, t, n, name) && Stage(env, t, n)[name] == env.directory[name]
  {
    hide RowsOf, LogsIn, ChunkFile, Partitions, HonestBlocks, Owns, InChunks, OfType, Leftover;
    LeftoverNames(env, t, name);
    if n == 0 {
      NoChunks(env, t, name);
    } else {
      StageNames(env, t, n - 1, name);
      OwnsChunk(env, n - 1, t);
      OneMoreChunk(env, t, n, name);
    }
  }

  lemma LeftoverNames(env: Env, t: EventType, name: FileName)
    ensures name in OfType(Leftover(env), t) ==>
              !Owns(env, name) && OfType(Leftover(env), t)[name] == env.directory[name]
  {
    hide Owns;
  }

  lemma NoChunks(env: Env, t: EventType, name: FileName)
    ensures !InChunks(env, t, 0, name)
  {
  }

  lemma OneMoreChunk(env: Env, t: EventType, n: nat, name: FileName)
    requires 0 < n <= |env.ranges|
    ensures InChunks(env, t, n, name) <==>
            InChunks(env, t, n - 1, name)
            || (name == FileName(t, env.ranges[n - 1]) && RowsOf(t, ChunkLogs(env, n - 1)) != [])
  {
    hide RowsOf, ChunkLogs;
  }

  lemma StageIsFresh(env: Env, t: EventType, n: nat)
    requires env.Valid() && n < |env.ranges| && RowsOf(t, ChunkLogs(env, n)) != []
    ensures FileName(t, env.ranges[n]) !in Stage(env, t, n)
  {
    hide RowsOf, LogsIn, ChunkFile, Stage, Partitions, HonestBlocks;
    StageNames(env, t, n, FileName(t, env.ranges[n]));
    forall i | 0 <= i < n ensures env.ranges[i] != env.ranges[n] {
      RangesDistinct(env, i, n);
    }
  }

  lemma ChunkFileReads(t: EventType, logs: seq<Log>)
    ensures Read(ChunkFile(t, logs)) == SortRows(RowsOf(t, logs))
  {
    hide ChunkFile, Readable, RowsIn, SortRows, RowsOf, Lays;
    ChunkFileRows(t, logs);
  }

  lemma AddRows(left: multiset<Row>, some: seq<Row>, more: seq<Row>)
    ensures left + multiset(some) + multiset(more) == left + multiset(some + more)
  {
  }

  // What the n-th chunk adds to the stage.
  lemma StageStep(env: Env, t: EventType, n: nat)
    requires env.Valid() && 0 < n <= |env.ranges|
    ensures AllRows(Stage(env, t, n))
            == AllRows(Stage(env, t, n - 1)) + multiset(SortRows(RowsOf(t, ChunkLogs(env, n - 1))))
  {
    hide RowsOf, ChunkLogs, ChunkFile, SortRows, AllRows, Read, Partitions, HonestBlocks, OfType, Leftover;
    var logs := ChunkLogs(env, n - 1);
    if RowsOf(t, logs) == [] {
      SortsNothing(RowsOf(t, logs));
    } else {
      StageIsFresh(env, t, n - 1);
      PutIn(Stage(env, t, n - 1), FileName(t, env.ranges[n - 1]), ChunkFile(t, logs));
      ChunkFileReads(t, logs);
    }
  }

  lemma {:induction false} StageRows(env: Env, t: EventType, n: nat)
    requires env.Valid() && n <= |env.ranges|
    ensures AllRows(Stage(env, t, n)) == OnDisk(Leftover(env), t) + multiset(SortedChunks(env, t, n))
  {
    hide RowsOf, ChunkLogs, SortRows, AllRows, Partitions, HonestBlocks, OfType, Leftover;
    if n > 0 {
      hide Stage, OnDisk;
      StageRows(env, t, n - 1);
      StageStep(env, t, n);
      AddRows(OnDisk(Leftover(env), t), SortedChunks(env, t, n - 1), SortRows(RowsOf(t, ChunkLogs(env, n - 1))));
    }
  }

  lemma CleanStage(env: Env, steps: seq<Step>, t: EventType)
    requires env.Valid() && IsRun(env, steps) && Clean(env, Exec(env, steps), t)
    ensures OfType(Exec(env, steps).files, t) == Stage(env, t, |env.ranges|)
  {
    hide Exec, IsRun, Clean, RowsOf, LogsIn, ChunkFile, Stage, Partitions, HonestBlocks;
    var files := Exec(env, steps).files;
    forall name: FileName | name.eventType == t
      ensures name in files <==> name in Stage(env, t, |env.ranges|)
      ensures name in files ==> files[name] == Stage(env, t, |env.ranges|)[name]
    {
      StageNames(env, t, |env.ranges|, name);
      if Owns(env, name) {
        CleanOverwrites(env, steps, name);
      } else {
        OthersUntouched(env, steps, name);
      }
    }
    forall name | name in Stage(env, t, |env.ranges|) ensures name.eventType == t {
      StageNames(env, t, |env.ranges|, name);
    }
  }

  // Conservation over the whole directory: after a clean run the rows of a type,
  // over all of its files, are the complete ones of the range, each as often as the chain has it, and
  // those of the files that the run does not own.  So nothing else is on disk
  // exactly if no such file has a row.
  lemma CleanConservesRows(env: Env, steps: seq<Step>, t: EventType)
    requires env.Valid() && IsRun(env, steps) && Clean(env, Exec(env, steps), t)
    ensures var rows := multiset(RowsOf(t, LogsIn(env.chain, Range(env.start, env.end))));
            && OnDisk(Exec(env, steps).files, t) == rows + OnDisk(Leftover(env), t)
            && (OnDisk(Exec(env, steps).files, t) == rows <==> OnDisk(Leftover(env), t) == multiset{})
  {
    hide Exec, IsRun, Clean, RowsOf, LogsIn, Stage, AllRows, OfType, Leftover, SortRows;
    CleanStage(env, steps, t);
    StageRows(env, t, |env.ranges|);
    WholeRangeSorted(env, t);
    SortRowsCorrect(RowsOf(t, LogsIn(env.chain, Range(env.start, env.end))));
    CancelRows(multiset(RowsOf(t, LogsIn(env.chain, Range(env.start, env.end)))), OnDisk(Leftover(env), t));
  }

  lemma CancelRows(a: multiset<Row>, b: multiset<Row>)
    ensures a + b == a <==> b == multiset{}
  {
    if a + b == a {
      forall r ensures b[r] == 0 {
        assert (a + b)[r] == a[r] + b[r];
      }
    }
  }

  // The other case is real: a backfill of the same blocks into the directory of
  // an earlier one, cut into other chunks, stores every row twice.
  lemma OtherChunksDuplicate(a: Env, stepsA: seq<Step>, b: Env, stepsB: seq<Step>, t: EventType)
    requires a.Valid() && IsRun(a, stepsA) && Clean(a, Exec(a, stepsA), t) && a.directory == map[]
    requires b.Valid() && IsRun(b, stepsB) && Clean(b, Exec(b, stepsB), t) && b.directory == Exec(a, stepsA).files
    requires a.chain == b.chain && a.start == b.start && a.end == b.end
    requires forall range :: range in a.ranges ==> range !in b.ranges
    ensures var rows := multiset(RowsOf(t, LogsIn(a.chain, Range(a.start, a.end))));
            OnDisk(Exec(b, stepsB).files, t) == rows + rows
  {
    hide Exec, IsRun, Clean, RowsOf, LogsIn, AllRows, OfType, Partitions, HonestBlocks, Owns;
    CleanConservesRows(a, stepsA, t);
    CleanConservesRows(b, stepsB, t);
    NothingLeft(a, t);
    forall name | name in b.directory ensures !Owns(b, name) {
      OwnsRange(a, name);
      OwnsRange(b, name);
      if !Owns(a, name) {
        OthersUntouched(a, stepsA, name);
      }
    }
    assert Leftover(b) == b.directory;
  }

  lemma OwnsRange(env: Env, name: FileName)
    ensures Owns(env, name) ==> name.range in env.ranges
  {
    hide RowsOf, LogsIn;
  }

  lemma NothingLeft(env: Env, t: EventType)
    requires env.directory == map[]
    ensures OnDisk(Leftover(env), t) == multiset{}
  {
    assert OfType(Leftover(env), t) == map[];
  }
}
