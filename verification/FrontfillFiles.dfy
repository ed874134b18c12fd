// What a reader of a frontfill's files finds under each column name.
module FrontfillFiles {
  import opened Base
  import opened Decode
  import opened Rows
  import opened Parquet
  import opened Storage
  import opened Frontfill
  import opened FrontfillRuns
  import opened FrontfillResults

  // The batches of a writer of type t are those of its rows.
  ghost predicate BatchesOk(t: EventType, w: Writer) {
    |w.batches| == |w.rows| && forall n :: 0 <= n < |w.rows| ==> w.batches[n] == BatchOf(t, w.rows[n])
  }

  ghost predicate SinkBatches(s: Sink) {
    && (forall t :: t in s.writers ==> BatchesOk(t, s.writers[t]))
    && (forall i :: 0 <= i < |s.closed| ==> BatchesOk(s.closed[i].eventType, s.closed[i].writer))
  }

  lemma WriteKeepsBatches(s: Sink, t: EventType, names: seq<Column>, row: Row, io: WriteIo)
    requires SinkBatches(s)
    ensures SinkBatches(Write(s, t, names, row, io).0)
  {
    WriteExactly(s, t, names, row, io);
    hide Write, BatchOf;
  }

  lemma {:induction false} DrainKeepsBatches(s: Sink, order: seq<EventType>, failing: set<EventType>)
    requires SinkBatches(s)
    ensures SinkBatches(Drain(s, order, failing).0)
    decreases |order|
  {
    hide BatchesOk;
    if order != [] && order[0] !in s.writers {
      DrainKeepsBatches(s, order[1..], failing);
    } else if order != [] && order[0] !in failing {
      DrainKeepsBatches(CloseOne(s, order[0]), order[1..], failing);
    }
  }

  lemma CloseKeepsBatches(s: Sink, io: CloseIo)
    requires SinkBatches(s)
    ensures SinkBatches(Close(s, io).0) && SinkBatches(Rotate(s, io).0)
  {
    DrainKeepsBatches(s, io.order, io.failing);
    hide Drain, BatchesOk;
  }

  lemma StoreKeepsBatches(s: State, log: Log, io: WriteIo)
    requires SinkBatches(s.sink) && log.Complete()
    ensures SinkBatches(Store(s, log, io).sink)
  {
    hide DecodeLog, Write, SinkBatches, Names, RowOf;
    if DecodeLog(log).Event? {
      var e := DecodeLog(log).event;
      WriteKeepsBatches(s.sink, e.eventType, Names(e.columns), RowOf(log, e), io);
    }
  }

  lemma NextKeepsBatches(flush: u64, s: State, event: Event)
    requires SinkBatches(s.sink)
    ensures SinkBatches(Next(flush, s, event).sink)
  {
    if event.LogArrived? && event.log.Complete() {
      hide SinkBatches, RotateIfDue, Store, Next, Rotate;
      var seen := s.(metrics := s.metrics.ObserveLog());
      NextOnLog(flush, s, event);
      RotateCases(flush, seen, event.log.blockNumber.value, event.rotateIo);
      CloseKeepsBatches(s.sink, event.rotateIo);
      var rotated := RotateIfDue(flush, seen, event.log.blockNumber.value, event.rotateIo);
      StoreKeepsBatches(rotated, event.log, event.writeIo);
    } else {
      hide SinkBatches, RotateIfDue, Store, Close, ReconnectDelay;
      if event.Interrupt? {
        CloseKeepsBatches(s.sink, event.closeIo);
      }
    }
  }

  lemma {:induction false} RunBatches(flush: u64, metricsEnabled: bool, events: seq<Event>)
    requires IsRun(flush, metricsEnabled, events)
    ensures SinkBatches(Exec(flush, metricsEnabled, events).sink)
    decreases |events|
  {
    hide Next, SinkBatches;
    if events == [] {
      NoBatches();
    } else {
      RunBatches(flush, metricsEnabled, events[..|events| - 1]);
      NextKeepsBatches(flush, Exec(flush, metricsEnabled, events[..|events| - 1]), events[|events| - 1]);
    }
  }

  lemma NoBatches()
    ensures SinkBatches(Empty())
  {
  }

  // A row of a file is a row of the files.
  lemma {:induction false} FileRowsInFiles(files: seq<SinkFile>, f: SinkFile, r: Row)
    requires f in files && r in f.writer.rows
    ensures r in RowsInFiles(files, f.eventType)
  {
    var last := |files| - 1;
    if f != files[last] {
      assert f in files[..last];
      FileRowsInFiles(files[..last], f, r);
    }
  }

  // And the other way round.
  lemma {:induction false} RowInSomeFile(files: seq<SinkFile>, t: EventType, r: Row) returns (f: SinkFile, n: nat)
    requires r in RowsInFiles(files, t)
    ensures f in files && f.eventType == t && n < |f.writer.rows| && f.writer.rows[n] == r
  {
    var last := |files| - 1;
    if files[last].eventType == t && r in files[last].writer.rows {
      f := files[last];
      n :| 0 <= n < |f.writer.rows| && f.writer.rows[n] == r;
    } else {
      f, n := RowInSomeFile(files[..last], t, r);
    }
  }

  // Read by column name, batch n of a closed file is its row n, with the file's type.
  lemma ClosedFileShows(flush: u64, metricsEnabled: bool, events: seq<Event>, f: SinkFile, n: nat)
    requires flush > 0 && IsRun(flush, metricsEnabled, events)
    requires f in Exec(flush, metricsEnabled, events).sink.closed
    requires n < |f.writer.rows| && |f.writer.rows[n].values| == |ColumnNames(f.eventType)|
    ensures n < |f.writer.batches| && Shows(f.writer.schema, f.writer.batches[n], 0, f.eventType, f.writer.rows[n])
  {
    hide Exec, IsRun, ColumnNames, Shows, BatchOf, Lays;
    FilesHaveTheirSchema(flush, metricsEnabled, events, f);
    RunBatches(flush, metricsEnabled, events);
    var closed := Exec(flush, metricsEnabled, events).sink.closed;
    var i :| 0 <= i < |closed| && closed[i] == f;
    assert BatchesOk(f.eventType, f.writer);
    BatchLays(f.eventType, ColumnNames(f.eventType), f.writer.rows[n]);
    LaidOutShows(f.writer.schema, f.writer.batches[n], f.eventType, [f.writer.rows[n]], 0);
  }

  // A closed row comes from an arrived log.
  lemma ClosedRowHasLog(flush: u64, metricsEnabled: bool, events: seq<Event>, f: SinkFile, r: Row) returns (log: Log)
    requires flush > 0 && IsRun(flush, metricsEnabled, events)
    requires f in Exec(flush, metricsEnabled, events).sink.closed && r in f.writer.rows
    ensures log in Logs(events) && RowPart(f.eventType, log) == [r]
  {
    hide Exec, IsRun, RowPart, RowsOf, RowsInFiles, RowsOpen, RowsDropped, StoredLogs;
    var s := Exec(flush, metricsEnabled, events);
    ExitsKeepAcceptedRows(flush, metricsEnabled, events, f.eventType);
    FileRowsInFiles(s.sink.closed, f, r);
    assert r in RowsOf(f.eventType, StoredLogs(s, events));
    RowHasLog(f.eventType, StoredLogs(s, events), r);
    var n :| 0 <= n < |StoredLogs(s, events)| && RowPart(f.eventType, StoredLogs(s, events)[n]) == [r];
    log := StoredLogs(s, events)[n];
    StoredArrived(s, events, log);
  }

  lemma StoredArrived(s: State, events: seq<Event>, log: Log)
    requires log in StoredLogs(s, events)
    ensures log in Logs(events)
  {
  }

  // Every row of every closed file, read by column name, is some log that has
  // arrived: its type, its metadata, and under each column its own value.
  lemma FilesShowLogs(flush: u64, metricsEnabled: bool, events: seq<Event>, f: SinkFile, n: nat) returns (log: Log)
    requires flush > 0 && IsRun(flush, metricsEnabled, events)
    requires f in Exec(flush, metricsEnabled, events).sink.closed && n < |f.writer.rows|
    ensures log in Logs(events)
    ensures n < |f.writer.batches| && ShowsLog(f.writer.schema, f.writer.batches[n], 0, f.eventType, log)
  {
    hide Exec, IsRun, RowPart, ColumnNames, Shows, ShowsLog;
    var r := f.writer.rows[n];
    assert r in f.writer.rows;
    log := ClosedRowHasLog(flush, metricsEnabled, events, f, r);
    RowPartExactly(f.eventType, log);
    assert RowPart(f.eventType, log)[0] == r;
    ClosedFileShows(flush, metricsEnabled, events, f, n);
    RowShowsLog(f.writer.schema, f.writer.batches[n], 0, f.eventType, log, r);
  }

  // After a shutdown every log that has a row in its type is shown in this way by
  // some closed file of the type.
  lemma ShutdownShowsEveryLog(flush: u64, metricsEnabled: bool, events: seq<Event>, t: EventType, k: nat)
    returns (f: SinkFile, n: nat)
    requires flush > 0 && IsRun(flush, metricsEnabled, events)
    requires Exec(flush, metricsEnabled, events).mode == Exited(Shutdown)
    requires k < |Logs(events)| && RowPart(t, Logs(events)[k]) != []
    ensures f in Exec(flush, metricsEnabled, events).sink.closed && f.eventType == t && n < |f.writer.batches|
    ensures ShowsLog(f.writer.schema, f.writer.batches[n], 0, t, Logs(events)[k])
  {
    hide Exec, IsRun, RowPart, RowsOf, RowsInFiles, ColumnNames, Shows, ShowsLog, Logs;
    var log := Logs(events)[k];
    ShutdownKeepsEveryRow(flush, metricsEnabled, events, t);
    RowPartExactly(t, log);
    var r := RowPart(t, log)[0];
    LogHasRow(t, Logs(events), k);
    f, n := RowInSomeFile(Exec(flush, metricsEnabled, events).sink.closed, t, r);
    ClosedFileShows(flush, metricsEnabled, events, f, n);
    RowShowsLog(f.writer.schema, f.writer.batches[n], 0, t, log, r);
  }

  lemma {:induction false} LogHasRow(t: EventType, logs: seq<Log>, k: nat)
    requires k < |logs| && RowPart(t, logs[k]) != []
    ensures RowPart(t, logs[k])[0] in RowsOf(t, logs)
  {
    hide RowPart;
    if k < |logs| - 1 {
      LogHasRow(t, logs[..|logs| - 1], k);
    }
  }
}
