// When a backfill returns Ok, and what each outcome means for the logs of the range.
module BackfillOutcome {
  import opened Base
  import opened Decode
  import opened Rows
  import opened Parquet
  import opened StableSort
  import opened ChunkRanges
  import opened ChunkTask
  import opened Backfill
  import opened BackfillData

  function FetchErrors(steps: seq<Step>): nat {
    if steps == [] then 0
    else FetchErrors(steps[..|steps| - 1]) + if steps[|steps| - 1].FetchErr? then 1 else 0
  }

  function FileErrors(steps: seq<Step>): nat {
    if steps == [] then 0
    else FileErrors(steps[..|steps| - 1]) + if steps[|steps| - 1].WriteErr? then 1 else 0
  }

  function MetadataFlag(env: Env, i: nat, p: Phase): nat
    requires i < |env.ranges|
  {
    if p == Done(true) && Incomplete(ChunkLogs(env, i)) > 0 then 1 else 0
  }

  function MetadataFlags(env: Env, phases: seq<Phase>): (flags: seq<nat>)
    requires |phases| == |env.ranges|
    ensures |flags| == |phases|
    ensures forall i :: 0 <= i < |phases| ==> flags[i] == MetadataFlag(env, i, phases[i])
  {
    seq(|phases|, i requires 0 <= i < |phases| => MetadataFlag(env, i, phases[i]))
  }

  // Finished chunks with a decoded log that lacks metadata.
  function ChunksMissingMetadata(env: Env, phases: seq<Phase>): nat
    requires |phases| == |env.ranges|
  {
    Sum(MetadataFlags(env, phases))
  }

  lemma MetadataUpdate(env: Env, phases: seq<Phase>, i: nat, p: Phase)
    requires |phases| == |env.ranges| && i < |phases|
    ensures ChunksMissingMetadata(env, phases[i := p]) + MetadataFlag(env, i, phases[i])
            == ChunksMissingMetadata(env, phases) + MetadataFlag(env, i, p)
  {
    hide ChunkLogs, Incomplete;
    var flags := MetadataFlags(env, phases);
    assert MetadataFlags(env, phases[i := p]) == flags[i := MetadataFlag(env, i, p)];
    SumUpdate(flags, i, MetadataFlag(env, i, p));
  }

  lemma StepCounts(env: Env, s: System, step: Step)
    requires |s.phases| == |env.ranges| && CanStep(env, s, step)
    requires !IsRefill(step) ==> PhaseInv(env, s, step.i)
    ensures var s' := Next(env, s, step);
            |s'.failures| - |s.failures|
            == (if step.FetchErr? then 1 else 0) + (if step.WriteErr? then 1 else 0)
               + (ChunksMissingMetadata(env, s'.phases) - ChunksMissingMetadata(env, s.phases))
  {
    if !IsRefill(step) {
      if step.WriteOk? {
        WriteEffect(env, s, step.i, step.t);
      }
      hide ChunkLogs, Incomplete, Grouped, InFlight, ChunkFile, FileOf, InBounds, SortRows;
      MetadataUpdate(env, s.phases, step.i, Next(env, s, step).phases[step.i]);
    }
  }

  // In every state: one failure for each failed fetch, one for each failed
  // write, and one for each finished chunk with missing metadata.
  lemma {:induction false} FailureCount(env: Env, steps: seq<Step>)
    requires env.Valid() && IsRun(env, steps)
    ensures |Exec(env, steps).failures|
            == FetchErrors(steps) + FileErrors(steps) + ChunksMissingMetadata(env, Exec(env, steps).phases)
    decreases |steps|
  {
    if steps == [] {
      SumZero(MetadataFlags(env, Init(env).phases));
    } else {
      var before, step := steps[..|steps| - 1], steps[|steps| - 1];
      FailureCount(env, before);
      RunKeepsFiles(env, before);
      assert !IsRefill(step) ==> PhaseInv(env, Exec(env, before), step.i);
      hide ChunksMissingMetadata, Next, PhaseInv, FileInv;
      StepCounts(env, Exec(env, before), step);
    }
  }

  // Every log of the range that decodes to an event has its metadata.
  ghost predicate AllComplete(chain: seq<ChainLog>, range: Range) {
    forall n :: 0 <= n < |chain| && range.Contains(chain[n].block) && DecodeLog(chain[n].log).Event? ==>
                  chain[n].log.Complete()
  }

  lemma AllCompleteSnoc(before: seq<ChainLog>, last: ChainLog, range: Range)
    ensures AllComplete(before + [last], range)
            <==> && AllComplete(before, range)
                 && (range.Contains(last.block) && DecodeLog(last.log).Event? ==> last.log.Complete())
  {
    hide DecodeLog;
    var chain := before + [last];
    assert chain[|before|] == last;
    assert forall n :: 0 <= n < |before| ==> chain[n] == before[n];
  }

  lemma {:induction false} IncompleteLogs(chain: seq<ChainLog>, range: Range)
    ensures Incomplete(LogsIn(chain, range)) == 0 <==> AllComplete(chain, range)
  {
    if chain != [] {
      hide DecodeLog, AllComplete, LogsIn, Incomplete;
      var before, last := chain[..|chain| - 1], chain[|chain| - 1];
      assert chain == before + [last];
      IncompleteLogs(before, range);
      LogsInSnoc(before, last, range);
      IncompleteSnoc(LogsIn(before, range), last.log);
      AllCompleteSnoc(before, last, range);
    }
  }

  lemma ChunksAllComplete(env: Env)
    requires env.Valid()
    ensures AllComplete(env.chain, Range(env.start, env.end))
            <==> forall i :: 0 <= i < |env.ranges| ==> AllComplete(env.chain, env.ranges[i])
  {
    hide DecodeLog;
    var whole := Range(env.start, env.end);
    forall i | 0 <= i < |env.ranges|
      ensures env.start <= env.ranges[i].lo && env.ranges[i].hi <= env.end
    {
      PartitionBounds(env.ranges, env.start, env.end, i);
    }
    forall n | 0 <= n < |env.chain| && whole.Contains(env.chain[n].block)
      ensures exists i :: 0 <= i < |env.ranges| && env.ranges[i].Contains(env.chain[n].block)
    {
      var i := PartitionFind(env.ranges, env.start, env.end, env.chain[n].block);
    }
  }

  lemma {:induction false} ErrorSteps(steps: seq<Step>)
    ensures FetchErrors(steps) == 0 && FileErrors(steps) == 0
            <==> forall step :: step in steps ==> !step.FetchErr? && !step.WriteErr?
  {
    if steps != [] {
      ErrorSteps(steps[..|steps| - 1]);
      assert steps == steps[..|steps| - 1] + [steps[|steps| - 1]];
    }
  }

  lemma NoMetadataMissing(env: Env, s: System)
    requires |s.phases| == |env.ranges| && Terminal(s)
    ensures ChunksMissingMetadata(env, s.phases) == 0
            <==> forall i :: 0 <= i < |s.phases| && s.phases[i] == Done(true) ==> AllComplete(env.chain, env.ranges[i])
  {
    hide DecodeLog, LogsIn, Incomplete;
    var flags := MetadataFlags(env, s.phases);
    SumZero(flags);
    forall i | 0 <= i < |s.phases|
      ensures flags[i] == 0 <==> (s.phases[i] == Done(true) ==> AllComplete(env.chain, env.ranges[i]))
    {
      IncompleteLogs(env.chain, env.ranges[i]);
    }
  }

  // A finished run returns Ok exactly when no fetch failed, no write failed and
  // no log of the range that decodes to an event lacks metadata.  Logs that do
  // not decode play no part in it.
  lemma OkExactly(env: Env, steps: seq<Step>)
    requires env.Valid() && IsRun(env, steps) && Terminal(Exec(env, steps))
    ensures ReturnsOk(Exec(env, steps)) <==>
            && (forall step :: step in steps ==> !step.FetchErr? && !step.WriteErr?)
            && AllComplete(env.chain, Range(env.start, env.end))
  {
    var s := Exec(env, steps);
    FailureCount(env, steps);
    ErrorSteps(steps);
    NoMetadataMissing(env, s);
    ChunksAllComplete(env);
    RunKeepsFiles(env, steps);
    hide Exec, IsRun, AllComplete, ChunksMissingMetadata, FileInv;
    forall i | 0 <= i < |s.phases| && s.failures == [] ensures s.phases[i] == Done(true) {
      assert PhaseInv(env, s, i);
    }
  }

  // After a clean run, each complete log that decodes to an event is in the file
  // of its type and chunk, as the row it decodes to.  Another file of its type has
  // that row exactly if the run does not own its name and it had the row before.
  lemma CleanPlacesEveryLog(env: Env, steps: seq<Step>, n: nat, t: EventType) returns (i: nat)
    requires env.Valid() && IsRun(env, steps) && Clean(env, Exec(env, steps), t)
    requires n < |env.chain| && env.start <= env.chain[n].block <= env.end
    requires IsEvent(t, env.chain[n].log) && env.chain[n].log.Complete()
    ensures i < |env.ranges| && env.ranges[i].Contains(env.chain[n].block)
    ensures var files := Exec(env, steps).files;
            var row := RowOf(env.chain[n].log, DecodeLog(env.chain[n].log).event);
            && row in RowsAt(files, FileName(t, env.ranges[i]))
            && forall name: FileName :: name.eventType == t && name.range != env.ranges[i] ==>
                                (row in RowsAt(files, name) <==> !Owns(env, name) && row in RowsAt(env.directory, name))
  {
    i := PartitionFind(env.ranges, env.start, env.end, env.chain[n].block);
    hide DecodeLog, LogsIn, RowsOf, SortRows, Exec, IsRun, Read, RowsAt, Partitions, HonestBlocks, Clean, Owns;
    RowPresent(env.chain, env.ranges[i], n, t);
    SortedMembers(env.chain, env.ranges[i], t);
    var row := RowOf(env.chain[n].log, DecodeLog(env.chain[n].log).event);
    assert row in RowsOf(t, ChunkLogs(env, i)) && row in SortRows(RowsOf(t, ChunkLogs(env, i)));
    CleanChunkRows(env, steps, i, t);
    forall name: FileName | name.eventType == t && name.range != env.ranges[i]
      ensures row in RowsAt(Exec(env, steps).files, name) <==> !Owns(env, name) && row in RowsAt(env.directory, name)
    {
      if Owns(env, name) {
        NotElsewhere(env, steps, name, i, row);
      } else {
        SameRowsAt(env, steps, name);
      }
    }
  }

  // Read by column name, that file shows the log: its block number, transaction
  // hash and log index, its event type, and under each column the log's value.
  lemma CleanShowsEveryLog(env: Env, steps: seq<Step>, n: nat, t: EventType) returns (i: nat, k: nat)
    requires env.Valid() && IsRun(env, steps) && Clean(env, Exec(env, steps), t)
    requires n < |env.chain| && env.start <= env.chain[n].block <= env.end
    requires RowPart(t, env.chain[n].log) != []
    ensures i < |env.ranges| && env.ranges[i].Contains(env.chain[n].block)
    ensures FileName(t, env.ranges[i]) in Exec(env, steps).files
    ensures var file := Exec(env, steps).files[FileName(t, env.ranges[i])];
            file.ParquetFile? && ShowsLog(file.schema, file.arrays, k, t, env.chain[n].log)
  {
    i := PartitionFind(env.ranges, env.start, env.end, env.chain[n].block);
    hide LogsIn, RowsOf, SortRows, Exec, IsRun, Partitions, HonestBlocks, Clean, RowPart, ChunkFile, Lays, ShowsLog,
         ColumnNames;
    var logs, log := ChunkLogs(env, i), env.chain[n].log;
    RowPartExactly(t, log);
    var row := RowPart(t, log)[0];
    PartPresent(env.chain, env.ranges[i], n, t);
    SortedMembers(env.chain, env.ranges[i], t);
    OwnsChunk(env, i, t);
    CleanOverwrites(env, steps, FileName(t, env.ranges[i]));
    k := ShownRow(t, logs, row);
    RowShowsLog(ChunkFile(t, logs).schema, ChunkFile(t, logs).arrays, k, t, log, row);
  }

  lemma PartPresent(chain: seq<ChainLog>, range: Range, n: nat, t: EventType)
    requires n < |chain| && range.Contains(chain[n].block) && RowPart(t, chain[n].log) != []
    ensures RowPart(t, chain[n].log)[0] in RowsOf(t, LogsIn(chain, range))
  {
    hide DecodeLog, RowOf, RowsOf, LogsIn;
    RowPresent(chain, range, n, t);
  }

  lemma ShownRow(t: EventType, logs: seq<Log>, row: Row) returns (k: nat)
    requires row in SortRows(RowsOf(t, logs))
    ensures k < |SortRows(RowsOf(t, logs))| && SortRows(RowsOf(t, logs))[k] == row
    ensures Shows(ChunkFile(t, logs).schema, ChunkFile(t, logs).arrays, k, t, row)
  {
    hide RowsOf, SortRows, ChunkFile, Lays, Shows, ColumnNames;
    k :| 0 <= k < |SortRows(RowsOf(t, logs))| && SortRows(RowsOf(t, logs))[k] == row;
    ChunkFileRows(t, logs);
    SortRowsCorrect(RowsOf(t, logs));
    SameMembers(SortRows(RowsOf(t, logs)), RowsOf(t, logs));
    RowsRectangular(t, logs);
    LaidOutShows(ChunkFile(t, logs).schema, ChunkFile(t, logs).arrays, t, SortRows(RowsOf(t, logs)), k);
  }

  // And every row of such a file, read by name, is some log of its chunk.
  lemma FilesShowLogs(env: Env, steps: seq<Step>, name: FileName, k: nat) returns (log: Log)
    requires env.Valid() && IsRun(env, steps) && Clean(env, Exec(env, steps), name.eventType) && Owns(env, name)
    requires k < |RowsAt(Exec(env, steps).files, name)|
    ensures log in LogsIn(env.chain, name.range)
    ensures name in Exec(env, steps).files
    ensures var file := Exec(env, steps).files[name];
            file.ParquetFile? && ShowsLog(file.schema, file.arrays, k, name.eventType, log)
  {
    hide RowsOf, SortRows, ChunkFile, Lays, ShowsLog, ColumnNames, Exec, IsRun, Clean, Owns, LogsIn, RowPart,
         HonestBlocks, RowsIn, Readable;
    var t, logs := name.eventType, LogsIn(env.chain, name.range);
    CleanOverwrites(env, steps, name);
    ChunkFileRows(t, logs);
    var rows := SortRows(RowsOf(t, logs));
    var row := rows[k];
    SortRowsCorrect(RowsOf(t, logs));
    SameMembers(rows, RowsOf(t, logs));
    RowsRectangular(t, logs);
    LaidOutShows(ChunkFile(t, logs).schema, ChunkFile(t, logs).arrays, t, rows, k);
    RowHasLog(t, logs, row);
    var n :| 0 <= n < |logs| && RowPart(t, logs[n]) == [row];
    log := logs[n];
    RowShowsLog(ChunkFile(t, logs).schema, ChunkFile(t, logs).arrays, k, t, log, row);
  }

  // On Ok that is every log of the range that decodes to an event.
  lemma OkPlacesEveryLog(env: Env, steps: seq<Step>, n: nat, t: EventType) returns (i: nat)
    requires env.Valid() && IsRun(env, steps) && ReturnsOk(Exec(env, steps))
    requires n < |env.chain| && env.start <= env.chain[n].block <= env.end && IsEvent(t, env.chain[n].log)
    ensures i < |env.ranges| && env.ranges[i].Contains(env.chain[n].block)
    ensures env.chain[n].log.Complete()
    ensures var files := Exec(env, steps).files;
            var row := RowOf(env.chain[n].log, DecodeLog(env.chain[n].log).event);
            && row in RowsAt(files, FileName(t, env.ranges[i]))
            && forall name: FileName :: name.eventType == t && name.range != env.ranges[i] ==>
                                (row in RowsAt(files, name) <==> !Owns(env, name) && row in RowsAt(env.directory, name))
  {
    OkIsClean(env, Exec(env, steps));
    hide DecodeLog, RowOf, Exec, IsRun, RowsAt, Partitions, HonestBlocks, Clean, Owns, ReturnsOk;
    OkMeansComplete(env, steps, n);
    i := CleanPlacesEveryLog(env, steps, n, t);
  }

  lemma SameRowsAt(env: Env, steps: seq<Step>, name: FileName)
    requires env.Valid() && IsRun(env, steps) && !Owns(env, name)
    ensures RowsAt(Exec(env, steps).files, name) == RowsAt(env.directory, name)
  {
    hide Exec, IsRun, Owns, Read;
    OthersUntouched(env, steps, name);
  }

  lemma OkMeansComplete(env: Env, steps: seq<Step>, n: nat)
    requires env.Valid() && IsRun(env, steps) && ReturnsOk(Exec(env, steps))
    requires n < |env.chain| && env.start <= env.chain[n].block <= env.end
    requires DecodeLog(env.chain[n].log).Event?
    ensures env.chain[n].log.Complete()
  {
    OkExactly(env, steps);
    assert Range(env.start, env.end).Contains(env.chain[n].block);
  }

  lemma NotElsewhere(env: Env, steps: seq<Step>, name: FileName, i: nat, row: Row)
    requires env.Valid() && IsRun(env, steps) && Clean(env, Exec(env, steps), name.eventType) && Owns(env, name)
    requires i < |env.ranges| && env.ranges[i].Contains(row.blockNumber) && name.range != env.ranges[i]
    ensures row !in RowsAt(Exec(env, steps).files, name)
  {
    hide Exec, IsRun, Clean, RowsOf, LogsIn, SortRows, ChunkFile, HonestBlocks;
    CleanOverwrites(env, steps, name);
    ChunkFileRows(name.eventType, LogsIn(env.chain, name.range));
    SortedMembers(env.chain, name.range, name.eventType);
    var j :| 0 <= j < |env.ranges| && env.ranges[j] == name.range;
    if j < i {
      PartitionOrder(env.ranges, env.start, env.end, j, i);
    } else {
      PartitionOrder(env.ranges, env.start, env.end, i, j);
    }
  }

  lemma SortedMembers(chain: seq<ChainLog>, range: Range, t: EventType)
    requires HonestBlocks(chain)
    ensures forall r :: r in SortRows(RowsOf(t, LogsIn(chain, range))) <==> r in RowsOf(t, LogsIn(chain, range))
    ensures forall r :: r in SortRows(RowsOf(t, LogsIn(chain, range))) ==> range.Contains(r.blockNumber)
  {
    hide DecodeLog, LogsIn, RowsOf;
    SortRowsCorrect(RowsOf(t, LogsIn(chain, range)));
    SameMembers(SortRows(RowsOf(t, LogsIn(chain, range))), RowsOf(t, LogsIn(chain, range)));
    RowsWithin(chain, range, t);
  }

  lemma EventRow(t: EventType, log: Log)
    requires IsEvent(t, log) && log.Complete()
    ensures RowPart(t, log) == [RowOf(log, DecodeLog(log).event)]
  {
  }

  lemma {:induction false} RowPresent(chain: seq<ChainLog>, range: Range, n: nat, t: EventType)
    requires n < |chain| && range.Contains(chain[n].block)
    requires IsEvent(t, chain[n].log) && chain[n].log.Complete()
    ensures RowOf(chain[n].log, DecodeLog(chain[n].log).event) in RowsOf(t, LogsIn(chain, range))
  {
    hide DecodeLog, RowOf, RowPart, RowsOf, LogsIn;
    var before, last := chain[..|chain| - 1], chain[|chain| - 1];
    assert chain == before + [last];
    LogsInSnoc(before, last, range);
    RowsOfSnoc(t, LogsIn(before, range), last.log);
    if n < |before| {
      RowPresent(before, range, n, t);
    } else {
      EventRow(t, last.log);
    }
  }
}
