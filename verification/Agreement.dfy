// Backfill and frontfill against each other: what they store of the same logs.
module Agreement {
  import opened Base
  import opened Decode
  import opened Rows
  import opened StableSort
  import opened ChunkRanges
  import opened Storage
  import opened ChunkTask
  import Backfill
  import BackfillData
  import Frontfill
  import FrontfillRuns
  import FrontfillResults

  // Complete logs in ascending (block number, log index) order.
  ghost predicate InKeyOrder(logs: seq<Log>) {
    forall i, j :: 0 <= i < j < |logs| && logs[i].Complete() && logs[j].Complete() ==>
                     || logs[i].blockNumber.value < logs[j].blockNumber.value
                     || (logs[i].blockNumber == logs[j].blockNumber && logs[i].logIndex.value <= logs[j].logIndex.value)
  }

  predicate HasKey(log: Log, r: Row) {
    log.Complete() && log.blockNumber.value == r.blockNumber && log.logIndex.value == r.logIndex
  }

  lemma PartHasKey(t: EventType, log: Log)
    ensures |RowPart(t, log)| <= 1 && forall r :: r in RowPart(t, log) ==> HasKey(log, r)
  {
    RowPartExactly(t, log);
    hide RowPart, ColumnNames;
  }

  lemma KeyOrder(logs: seq<Log>, n: nat, r: Row, q: Row)
    requires InKeyOrder(logs) && n < |logs| - 1 && HasKey(logs[n], r) && HasKey(logs[|logs| - 1], q)
    ensures AtMost(r, q)
  {
  }

  lemma {:induction false} RowsInKeyOrder(t: EventType, logs: seq<Log>)
    requires InKeyOrder(logs)
    ensures Sorted(RowsOf(t, logs))
  {
    hide RowPart, HasKey, AtMost;
    if logs != [] {
      var last := |logs| - 1;
      var rows, part := RowsOf(t, logs[..last]), RowPart(t, logs[last]);
      RowsInKeyOrder(t, logs[..last]);
      PartHasKey(t, logs[last]);
      hide InKeyOrder;
      forall i | 0 <= i < |rows| && part != [] ensures AtMost(rows[i], part[0]) {
        RowHasLog(t, logs[..last], rows[i]);
        var n :| 0 <= n < last && RowPart(t, logs[..last][n]) == [rows[i]];
        PartHasKey(t, logs[n]);
        KeyOrder(logs, n, rows[i], part[0]);
      }
    }
  }

  // A frontfill that was shut down and a backfill that is clean for a type have
  // seen the same logs: those of the blocks start to end.
  ghost predicate SameLogs(flush: u64, metricsEnabled: bool, events: seq<Frontfill.Event>,
                           env: Backfill.Env, steps: seq<Backfill.Step>, t: EventType)
  {
    && flush > 0
    && Frontfill.IsRun(flush, metricsEnabled, events)
    && Frontfill.Exec(flush, metricsEnabled, events).mode == Frontfill.Exited(Frontfill.Shutdown)
    && env.Valid()
    && Backfill.IsRun(env, steps)
    && BackfillData.Clean(env, Backfill.Exec(env, steps), t)
    && FrontfillRuns.Logs(events) == Backfill.LogsIn(env.chain, Range(env.start, env.end))
  }

  // Whatever the reconnects, rotations, chunks and interleavings, the files of an
  // event type, read one after the other, hold the same rows in the same order in
  // both modes, exactly when its logs arrived in the order of their keys and the
  // backfill's directory had no stale rows.
  lemma ModesAgreeExactly(flush: u64, metricsEnabled: bool, events: seq<Frontfill.Event>,
                          env: Backfill.Env, steps: seq<Backfill.Step>, t: EventType)
    requires SameLogs(flush, metricsEnabled, events, env, steps, t)
    ensures RowsInFiles(Frontfill.Exec(flush, metricsEnabled, events).sink.closed, t)
            == BackfillData.DataOnDisk(env, Backfill.Exec(env, steps), t)
            <==> Sorted(RowsOf(t, FrontfillRuns.Logs(events))) && BackfillData.NoStaleRows(env, t)
  {
    hide Frontfill.Exec, Backfill.Exec, RowsOf, RowsInFiles, BackfillData.DataOnDisk, BackfillData.NoStaleRows,
         SortRows, Backfill.LogsIn, BackfillData.Clean, Sorted, Frontfill.IsRun, Backfill.IsRun;
    FrontfillResults.ShutdownKeepsEveryRow(flush, metricsEnabled, events, t);
    BackfillData.BackfillRefinesSequentialSort(env, steps, t);
    DataIsReferenceOrLonger(env, steps, t);
    var rows := RowsOf(t, FrontfillRuns.Logs(events));
    SortedExactly(rows);
  }

  lemma SortedExactly(rows: seq<Row>)
    ensures SortRows(rows) == rows <==> Sorted(rows)
    ensures |SortRows(rows)| == |rows|
  {
    SortRowsCorrect(rows);
    assert |multiset(SortRows(rows))| == |multiset(rows)|;
    if Sorted(rows) {
      SortRowsOfSorted(rows);
    }
  }

  lemma DataIsReferenceOrLonger(env: Backfill.Env, steps: seq<Backfill.Step>, t: EventType)
    requires env.Valid() && Backfill.IsRun(env, steps) && BackfillData.Clean(env, Backfill.Exec(env, steps), t)
    ensures var data := BackfillData.DataOnDisk(env, Backfill.Exec(env, steps), t);
            var reference := BackfillData.Reference(env.chain, env.start, env.end, t);
            |data| >= |reference| && (|data| == |reference| ==> data == reference)
  {
    hide Backfill.Exec, Backfill.IsRun, BackfillData.Clean, BackfillData.Reference, BackfillData.SortedChunks,
         BackfillData.StaleRows;
    BackfillData.CleanData(env, steps, t, |env.ranges|);
    BackfillData.WholeRangeSorted(env, t);
  }

  // In particular they agree on logs that arrived in (block number, log index) order.
  lemma ModesAgree(flush: u64, metricsEnabled: bool, events: seq<Frontfill.Event>,
                   env: Backfill.Env, steps: seq<Backfill.Step>, t: EventType)
    requires SameLogs(flush, metricsEnabled, events, env, steps, t)
    requires InKeyOrder(FrontfillRuns.Logs(events)) && BackfillData.NoStaleRows(env, t)
    ensures RowsInFiles(Frontfill.Exec(flush, metricsEnabled, events).sink.closed, t)
            == BackfillData.DataOnDisk(env, Backfill.Exec(env, steps), t)
  {
    hide Frontfill.Exec, Backfill.Exec, InKeyOrder, RowsOf, RowsInFiles, BackfillData.DataOnDisk,
         BackfillData.NoStaleRows;
    RowsInKeyOrder(t, FrontfillRuns.Logs(events));
    ModesAgreeExactly(flush, metricsEnabled, events, env, steps, t);
  }

  // The columns agree in any two runs, whatever they have seen and however they
  // ended, for all files that the backfill has written.
  lemma SchemasAgree(flush: u64, metricsEnabled: bool, events: seq<Frontfill.Event>, f: SinkFile,
                     env: Backfill.Env, steps: seq<Backfill.Step>, name: FileName)
    requires flush > 0 && Frontfill.IsRun(flush, metricsEnabled, events)
    requires f in Frontfill.Exec(flush, metricsEnabled, events).sink.closed
    requires env.Valid() && Backfill.IsRun(env, steps) && name in Backfill.Exec(env, steps).files
    requires !Backfill.AsBefore(env, Backfill.Exec(env, steps).files, name)
    requires Backfill.Exec(env, steps).files[name] != Torn
    requires f.eventType == name.eventType
    ensures Backfill.Exec(env, steps).files[name].ParquetFile?
    ensures f.writer.schema == Backfill.Exec(env, steps).files[name].schema
            == [EventTypeName, BlockNumber, TransactionHash, LogIndex] + ColumnNames(f.eventType)
  {
    hide Frontfill.Exec, Frontfill.IsRun, Backfill.Exec, Backfill.IsRun, Backfill.AsBefore, ColumnNames, SortRows,
         RowsOf, Backfill.LogsIn, BackfillData.Read, BackfillData.Owns;
    FrontfillResults.FilesHaveTheirSchema(flush, metricsEnabled, events, f);
    BackfillData.EveryFileIsRight(env, steps, name);
  }
}
