// src/backfill.rs: what one chunk task does with the logs it has fetched.
module ChunkTask {
  import opened Base
  import opened Decode
  import opened Rows
  import opened Parquet
  import opened StableSort
  import opened ChunkRanges

  // The value of the per-chunk map: column names and rows of one event type.
  datatype Group = Group(columns: seq<Column>, rows: seq<Row>)

  // A complete file, or what is left of one that was created but not completed.
  datatype ParquetFile = ParquetFile(schema: seq<Column>, arrays: seq<Array>) | Torn

  // At which point the file system fails a write: nothing was created; the file
  // was created, or truncated, but no writer could be opened on it; or a batch
  // could not be written or the writer not closed.
  datatype Fault = NotCreated | NotOpened | NotCompleted

  // <event_type>/<chunk_start>-<chunk_end>.parquet
  datatype FileName = FileName(eventType: EventType, range: Range)

  datatype Failure =
    | FetchFailed(range: Range)
    | WriteFailed(range: Range, eventType: EventType)
    | MetadataMissing(range: Range, count: u64)

  // Decoded logs that lack a block number, a transaction hash or a log index.
  function Incomplete(logs: seq<Log>): nat {
    if logs == [] then 0
    else
      var log := logs[|logs| - 1];
      Incomplete(logs[..|logs| - 1]) + if DecodeLog(log).Event? && !log.Complete() then 1 else 0
  }

  // The per-chunk map, said without a loop: the types that have a row.
  function Grouped(logs: seq<Log>): map<EventType, Group> {
    map t: EventType | RowsOf(t, logs) != [] :: Group(ColumnNames(t), RowsOf(t, logs))
  }

  function AddRow(groups: map<EventType, Group>, t: EventType, columns: seq<Column>, row: Row)
    : map<EventType, Group>
  {
    var entry := if t in groups then groups[t] else Group(columns, []);
    groups[t := entry.(rows := entry.rows + [row])]
  }

  lemma IncompleteSnoc(logs: seq<Log>, log: Log)
    ensures Incomplete(logs + [log])
            == Incomplete(logs) + if DecodeLog(log).Event? && !log.Complete() then 1 else 0
  {
    assert (logs + [log])[..|logs|] == logs;
  }

  // Incomplete is the number of the logs that decode to an event and lack metadata.
  lemma {:induction false} IncompleteIsCount(logs: seq<Log>)
    ensures Incomplete(logs) == |set n | 0 <= n < |logs| && DecodeLog(logs[n]).Event? && !logs[n].Complete()|
  {
    hide DecodeLog, Incomplete;
    if logs != [] {
      var last := |logs| - 1;
      IncompleteIsCount(logs[..last]);
      assert logs == logs[..last] + [logs[last]];
      IncompleteSnoc(logs[..last], logs[last]);
      OneMoreIncomplete(logs, last);
    } else {
      NoneIncomplete(logs);
    }
  }

  lemma NoneIncomplete(logs: seq<Log>)
    requires logs == []
    ensures Incomplete(logs) == 0
    ensures |set n | 0 <= n < |logs| && DecodeLog(logs[n]).Event? && !logs[n].Complete()| == 0
  {
    hide DecodeLog;
  }

  lemma OneMoreIncomplete(logs: seq<Log>, last: nat)
    requires last + 1 == |logs|
    ensures var before := logs[..last];
            |set n | 0 <= n < |logs| && DecodeLog(logs[n]).Event? && !logs[n].Complete()|
            == |set n | 0 <= n < |before| && DecodeLog(before[n]).Event? && !before[n].Complete()|
               + if DecodeLog(logs[last]).Event? && !logs[last].Complete() then 1 else 0
  {
    hide DecodeLog;
    var before := logs[..last];
    var all := set n | 0 <= n < |logs| && DecodeLog(logs[n]).Event? && !logs[n].Complete();
    var some := set n | 0 <= n < |before| && DecodeLog(before[n]).Event? && !before[n].Complete();
    assert all == some + if DecodeLog(logs[last]).Event? && !logs[last].Complete() then {last} else {};
  }

  lemma GroupedSame(logs: seq<Log>, log: Log)
    requires !DecodeLog(log).Event? || !log.Complete()
    ensures Grouped(logs + [log]) == Grouped(logs)
  {
    forall t: EventType ensures RowsOf(t, logs + [log]) == RowsOf(t, logs) {
      RowsOfSnoc(t, logs, log);
    }
  }

  lemma GroupedAdd(logs: seq<Log>, log: Log, event: DecodedEvent)
    requires DecodeLog(log) == Event(event) && log.Complete()
    ensures Grouped(logs + [log])
            == AddRow(Grouped(logs), event.eventType, Names(event.columns), RowOf(log, event))
  {
    DecodeLogRouting(log);
    forall t: EventType
      ensures RowsOf(t, logs + [log])
              == RowsOf(t, logs) + if t == event.eventType then [RowOf(log, event)] else []
    {
      RowsOfSnoc(t, logs, log);
    }
    GroupedAddRow(logs, logs + [log], event.eventType, RowOf(log, event));
  }

  lemma GroupedAddRow(logs: seq<Log>, next: seq<Log>, u: EventType, row: Row)
    requires forall t: EventType ::
               RowsOf(t, next) == RowsOf(t, logs) + if t == u then [row] else []
    ensures Grouped(next) == AddRow(Grouped(logs), u, ColumnNames(u), row)
  {
    hide DecodeLog, RowsOf, ColumnNames, Grouped;
    var before, after, added := Grouped(logs), Grouped(next), AddRow(Grouped(logs), u, ColumnNames(u), row);
    forall t: EventType
      ensures t in after <==> t in added
      ensures t in after ==> after[t] == added[t]
    {
      GroupAt(logs, t);
      GroupAt(next, t);
      assert RowsOf(t, next) == RowsOf(t, logs) + if t == u then [row] else [];
    }
  }

  lemma GroupAt(logs: seq<Log>, t: EventType)
    ensures t in Grouped(logs) <==> RowsOf(t, logs) != []
    ensures t in Grouped(logs) ==> Grouped(logs)[t] == Group(ColumnNames(t), RowsOf(t, logs))
  {
    hide RowsOf, ColumnNames;
  }

  lemma NothingGrouped()
    ensures Grouped([]) == map[] && Incomplete([]) == 0
  {
  }

  // The loop over the fetched logs.
  method ProcessLogs(logs: seq<Log>) returns (byEvent: map<EventType, Group>, missing: u64)
    ensures byEvent == Grouped(logs)
    ensures missing == Min(Incomplete(logs), U64_MAX)
    ensures missing == Min(|set n | 0 <= n < |logs| && DecodeLog(logs[n]).Event? && !logs[n].Complete()|,
                           0xFFFF_FFFF_FFFF_FFFF)
  {
    IncompleteIsCount(logs);
    byEvent, missing := map[], 0;
    NothingGrouped();
    hide DecodeLog, Grouped, Incomplete, RowsOf, ColumnNames, Names, Values;
    for n := 0 to |logs|
      invariant byEvent == Grouped(logs[..n])
      invariant missing == Min(Incomplete(logs[..n]), U64_MAX)
    {
      var log := logs[n];
      assert logs[..n + 1] == logs[..n] + [log] && logs[..n + 1][..n] == logs[..n];
      IncompleteSnoc(logs[..n], log);
      var outcome := DecodeLog(log);
      if !outcome.Event? {
        GroupedSame(logs[..n], log);
        continue;
      }
      var event := outcome.event;
      if log.blockNumber.None? || log.txHash.None? || log.logIndex.None? {
        GroupedSame(logs[..n], log);
        missing := SaturatingAdd(missing, 1);
        continue;
      }
      GroupedAdd(logs[..n], log, event);
      var entry :=
        if event.eventType in byEvent then byEvent[event.eventType] else Group(Names(event.columns), []);
      var row := Row(log.blockNumber.value, log.txHash.value, log.logIndex.value, Values(event.columns));
      byEvent := byEvent[event.eventType := entry.(rows := entry.rows + [row])];
    }
    assert logs[..|logs|] == logs;
  }

  // Every `row.values[col_index]` is in bounds.
  ghost predicate InBounds(columns: seq<Column>, rows: seq<Row>) {
    forall r :: r in rows ==> |columns| <= |r.values|
  }

  function ValuesOf(rows: seq<Row>, c: nat): (values: seq<string>)
    requires forall r :: r in rows ==> c < |r.values|
    ensures |values| == |rows| && forall n :: 0 <= n < |rows| ==> values[n] == rows[n].values[c]
  {
    seq(|rows|, n requires 0 <= n < |rows| => rows[n].values[c])
  }

  ghost function FileOf(t: EventType, columns: seq<Column>, rows: seq<Row>): (file: ParquetFile)
    requires InBounds(columns, rows)
    ensures file.ParquetFile?
  {
    ParquetFile(
      BaseColumns() + columns,
      [Types(seq(|rows|, n => t)),
       Numbers(seq(|rows|, n requires 0 <= n < |rows| => rows[n].blockNumber)),
       Strings(seq(|rows|, n requires 0 <= n < |rows| => rows[n].txHash)),
       Numbers(seq(|rows|, n requires 0 <= n < |rows| => rows[n].logIndex))]
      + seq(|columns|, c requires 0 <= c < |columns| => Strings(ValuesOf(rows, c))))
  }

  lemma FileOfLays(t: EventType, columns: seq<Column>, rows: seq<Row>)
    requires InBounds(columns, rows)
    ensures Lays(FileOf(t, columns, rows).schema, FileOf(t, columns, rows).arrays, t, columns, rows)
  {
    var arrays := FileOf(t, columns, rows).arrays;
    forall k, n | 4 <= k < |arrays| && 0 <= n < |rows|
      ensures k - 4 < |rows[n].values| && arrays[k].strings[n] == rows[n].values[k - 4]
    {
      assert rows[n] in rows;
    }
  }

  // `write_parquet_file` up to the file system: None is the index panic.
  method BuildFile(t: EventType, columns: seq<Column>, rows: seq<Row>) returns (file: Option<ParquetFile>)
    ensures file.Some? <==> InBounds(columns, rows)
    ensures file.Some? ==> file.value.ParquetFile? && Lays(file.value.schema, file.value.arrays, t, columns, rows)
    ensures InBounds(columns, rows) ==> file == Some(FileOf(t, columns, rows))
  {
    var schema := BaseColumns();
    for c := 0 to |columns|
      invariant schema == BaseColumns() + columns[..c]
    {
      schema := schema + [columns[c]];
    }
    assert columns[..|columns|] == columns;
    var base := [Types(seq(|rows|, n => t)),
                 Numbers(seq(|rows|, n requires 0 <= n < |rows| => rows[n].blockNumber)),
                 Strings(seq(|rows|, n requires 0 <= n < |rows| => rows[n].txHash)),
                 Numbers(seq(|rows|, n requires 0 <= n < |rows| => rows[n].logIndex))];
    var arrays := base;
    for c := 0 to |columns|
      invariant |arrays| == 4 + c && arrays[..4] == base
      invariant forall r :: r in rows ==> c <= |r.values|
      invariant forall k :: 0 <= k < c ==> arrays[4 + k] == Strings(ValuesOf(rows, k))
    {
      var values: seq<string> := [];
      for n := 0 to |rows|
        invariant |values| == n
        invariant forall k :: 0 <= k < n ==> c < |rows[k].values| && values[k] == rows[k].values[c]
      {
        if c >= |rows[n].values| {
          assert rows[n] in rows;
          return None;
        }
        values := values + [rows[n].values[c]];
      }
      assert values == ValuesOf(rows, c);
      arrays := arrays + [Strings(values)];
    }
    file := Some(ParquetFile(schema, arrays));
    if InBounds(columns, rows) {
      FileOfLays(t, columns, rows);
      SameFile(t, columns, rows, base, arrays);
    }
  }

  lemma SameFile(t: EventType, columns: seq<Column>, rows: seq<Row>, base: seq<Array>, arrays: seq<Array>)
    requires InBounds(columns, rows) && |arrays| == 4 + |columns| && arrays[..4] == base
    requires |base| == 4
             && base[0].Types? && base[0].types == FileOf(t, columns, rows).arrays[0].types
             && base[1].Numbers? && base[1].numbers == FileOf(t, columns, rows).arrays[1].numbers
             && base[2].Strings? && base[2].strings == FileOf(t, columns, rows).arrays[2].strings
             && base[3].Numbers? && base[3].numbers == FileOf(t, columns, rows).arrays[3].numbers
    requires forall k :: 0 <= k < |columns| ==> arrays[4 + k] == Strings(ValuesOf(rows, k))
    ensures arrays == FileOf(t, columns, rows).arrays
  {
    var expected := FileOf(t, columns, rows).arrays;
    forall k | 0 <= k < |arrays| ensures arrays[k] == expected[k] {
      if k < 4 {
        assert arrays[k] == arrays[..4][k];
      } else {
        assert arrays[k] == arrays[4 + (k - 4)];
      }
    }
  }

  // The arrays have the shape of a backfill's or a frontfill's columns, all of one length.
  ghost predicate Readable(file: ParquetFile) {
    && file.ParquetFile?
    && |file.arrays| >= 4
    && file.arrays[0].Types? && file.arrays[1].Numbers? && file.arrays[2].Strings? && file.arrays[3].Numbers?
    && |file.arrays[0].types| == |file.arrays[1].numbers| == |file.arrays[2].strings| == |file.arrays[3].numbers|
    && forall k :: 4 <= k < |file.arrays| ==>
                     file.arrays[k].Strings? && |file.arrays[k].strings| == |file.arrays[1].numbers|
  }

  // Reading a file back row by row.
  ghost function RowsIn(file: ParquetFile): seq<Row>
    requires Readable(file)
  {
    seq(|file.arrays[1].numbers|, n requires 0 <= n < |file.arrays[1].numbers| =>
      Row(file.arrays[1].numbers[n], file.arrays[2].strings[n], file.arrays[3].numbers[n],
          seq(|file.arrays| - 4, c requires 0 <= c < |file.arrays| - 4 => file.arrays[4 + c].strings[n])))
  }

  // Turning rows into columns loses nothing: the file reads back as the rows.
  lemma FileRoundTrip(t: EventType, columns: seq<Column>, rows: seq<Row>)
    requires forall r :: r in rows ==> |r.values| == |columns|
    ensures Readable(FileOf(t, columns, rows))
    ensures RowsIn(FileOf(t, columns, rows)) == rows
  {
    var read := RowsIn(FileOf(t, columns, rows));
    forall n | 0 <= n < |rows| ensures read[n] == rows[n] {
      assert rows[n] in rows;
      assert read[n].values == rows[n].values;
    }
  }

  // The file a chunk writes for event type t when nothing fails.
  ghost function ChunkFile(t: EventType, logs: seq<Log>): (file: ParquetFile)
    ensures file.ParquetFile?
  {
    RowsRectangular(t, logs);
    SortRowsCorrect(RowsOf(t, logs));
    assert forall r :: r in SortRows(RowsOf(t, logs)) ==> r in multiset(SortRows(RowsOf(t, logs)));
    FileOf(t, ColumnNames(t), SortRows(RowsOf(t, logs)))
  }

  lemma ChunkFileRows(t: EventType, logs: seq<Log>)
    ensures Readable(ChunkFile(t, logs))
    ensures RowsIn(ChunkFile(t, logs)) == SortRows(RowsOf(t, logs))
    ensures ChunkFile(t, logs).schema == SchemaOf(t)
    ensures Lays(ChunkFile(t, logs).schema, ChunkFile(t, logs).arrays, t, ColumnNames(t), SortRows(RowsOf(t, logs)))
  {
    hide ColumnNames, RowsOf, SortRows;
    RowsRectangular(t, logs);
    SortRowsCorrect(RowsOf(t, logs));
    assert forall r :: r in SortRows(RowsOf(t, logs)) ==> r in multiset(SortRows(RowsOf(t, logs)));
    FileOfLays(t, ColumnNames(t), SortRows(RowsOf(t, logs)));
    FileRoundTrip(t, ColumnNames(t), SortRows(RowsOf(t, logs)));
  }

  lemma WriteGroupInBounds(t: EventType, logs: seq<Log>)
    ensures InBounds(ColumnNames(t), SortRows(RowsOf(t, logs)))
    ensures FileOf(t, ColumnNames(t), SortRows(RowsOf(t, logs))) == ChunkFile(t, logs)
  {
    RowsRectangular(t, logs);
    SortRowsCorrect(RowsOf(t, logs));
    assert forall r :: r in SortRows(RowsOf(t, logs)) ==> r in multiset(SortRows(RowsOf(t, logs)));
  }

  function FaultOf(faults: map<EventType, Fault>, t: EventType): Option<Fault> {
    if t in faults then Some(faults[t]) else None
  }

  // The directory after the attempt to write the file of type t: a new file, a
  // torn one, or the one that was there before, if any.
  ghost function AfterWrite(files: map<FileName, ParquetFile>, range: Range, t: EventType, fault: Option<Fault>,
                            logs: seq<Log>)
    : map<FileName, ParquetFile>
  {
    if fault == Some(NotCreated) then files
    else files[FileName(t, range) := if fault.Some? then Torn else ChunkFile(t, logs)]
  }

  // What the attempts to write the given types leave, and what they report.
  ghost function ChunkFiles(range: Range, types: set<EventType>, faults: map<EventType, Fault>, logs: seq<Log>)
    : map<FileName, ParquetFile>
  {
    map t | t in types && FaultOf(faults, t) != Some(NotCreated) ::
      FileName(t, range) := if t in faults then Torn else ChunkFile(t, logs)
  }

  ghost function WriteErrors(range: Range, types: set<EventType>): set<Failure> {
    set t | t in types :: WriteFailed(range, t)
  }

  lemma NoTypeYet(range: Range, faults: map<EventType, Fault>, logs: seq<Log>)
    ensures ChunkFiles(range, {}, faults, logs) == map[]
    ensures WriteErrors(range, {} * faults.Keys) == {}
  {
  }

  lemma UpdateSum(files: map<FileName, ParquetFile>, more: map<FileName, ParquetFile>, name: FileName,
                  file: ParquetFile)
    ensures files + more[name := file] == (files + more)[name := file]
  {
  }

  lemma OneMoreFile(files: map<FileName, ParquetFile>, range: Range, done: set<EventType>,
                    faults: map<EventType, Fault>, t: EventType, logs: seq<Log>)
    requires t !in done
    ensures files + ChunkFiles(range, done + {t}, faults, logs)
            == AfterWrite(files + ChunkFiles(range, done, faults, logs), range, t, FaultOf(faults, t), logs)
  {
    hide ChunkFile;
    ChunkFilesGrow(range, done, faults, t, logs);
    hide ChunkFiles;
    UpdateSum(files, ChunkFiles(range, done, faults, logs), FileName(t, range),
              if t in faults then Torn else ChunkFile(t, logs));
  }

  lemma ChunkFilesGrow(range: Range, done: set<EventType>, faults: map<EventType, Fault>, t: EventType, logs: seq<Log>)
    requires t !in done
    ensures var before, after := ChunkFiles(range, done, faults, logs), ChunkFiles(range, done + {t}, faults, logs);
            after == if FaultOf(faults, t) == Some(NotCreated) then before
                     else before[FileName(t, range) := if t in faults then Torn else ChunkFile(t, logs)]
  {
    hide ChunkFile;
  }

  lemma OneMoreReport(range: Range, done: set<EventType>, broken: set<EventType>, t: EventType)
    requires t !in done
    ensures multiset(WriteErrors(range, (done + {t}) * broken))
            == multiset(WriteErrors(range, done * broken))
               + if t in broken then multiset{WriteFailed(range, t)} else multiset{}
  {
    if t in broken {
      assert (done + {t}) * broken == done * broken + {t};
      assert WriteErrors(range, done * broken + {t})
          == WriteErrors(range, done * broken) + {WriteFailed(range, t)};
    } else {
      assert (done + {t}) * broken == done * broken;
    }
  }

  ghost function MetadataErrors(range: Range, logs: seq<Log>): seq<Failure> {
    if Incomplete(logs) > 0 then [MetadataMissing(range, Min(Incomplete(logs), U64_MAX))] else []
  }

  // What a chunk task whose fetch succeeded does to the output directory and to
  // the failure list: each type that has a row leaves its file, a torn file or
  // the file that was there, `reports` has one report for each fault, and the
  // report of missing metadata comes last.
  ghost predicate ChunkEffect(range: Range, logs: seq<Log>, faults: map<EventType, Fault>,
                              files: map<FileName, ParquetFile>, failures: seq<Failure>,
                              files': map<FileName, ParquetFile>, failures': seq<Failure>, reports: seq<Failure>)
  {
    var types := Grouped(logs).Keys;
    && files' == files + ChunkFiles(range, types, faults, logs)
    && failures' == failures + reports + MetadataErrors(range, logs)
    && multiset(reports) == multiset(WriteErrors(range, types * faults.Keys))
  }

  // The output directory, as earlier runs have left it, and the shared failure list.
  class Output {
    var files: map<FileName, ParquetFile>
    var failures: seq<Failure>

    constructor (directory: map<FileName, ParquetFile>)
      ensures files == directory && failures == []
    {
      files, failures := directory, [];
    }

    // The body of one chunk task after its permit.  `fetched` is the provider's
    // answer, `faults` the event types whose file cannot be written.
    method RunChunk(range: Range, fetched: Option<seq<Log>>, faults: map<EventType, Fault>)
      modifies this
      ensures fetched.None? ==> files == old(files) && failures == old(failures) + [FetchFailed(range)]
      ensures fetched.Some? ==>
                exists reports ::
                  ChunkEffect(range, fetched.value, faults, old(files), old(failures), files, failures, reports)
    {
      if fetched.None? {
        failures := failures + [FetchFailed(range)];
        return;
      }
      var byEvent, missing := ProcessLogs(fetched.value);
      ghost var reports := WriteGroups(range, byEvent, faults, fetched.value);
      if missing > 0 {
        failures := failures + [MetadataMissing(range, missing)];
      }
      assert ChunkEffect(range, fetched.value, faults, old(files), old(failures), files, failures, reports);
    }

    // `write_parquet_file`.  Creating the file truncates one of the same name, so
    // every later failure, and a panic too, leaves a torn file behind.
    method WriteParquetFile(t: EventType, columns: seq<Column>, rows: seq<Row>, range: Range, fault: Option<Fault>)
      returns (outcome: WriteOutcome)
      modifies this`files
      ensures outcome == if fault == Some(NotCreated) || fault == Some(NotOpened) then IoError
                         else if !InBounds(columns, rows) then IndexPanic
                         else if fault.Some? then IoError
                         else Written
      ensures files == if fault == Some(NotCreated) then old(files)
                       else old(files)[FileName(t, range) :=
                                         if outcome.Written? then FileOf(t, columns, rows) else Torn]
    {
      if fault == Some(NotCreated) {
        return IoError;
      }
      files := files[FileName(t, range) := Torn];
      if fault == Some(NotOpened) {
        return IoError;
      }
      var file := BuildFile(t, columns, rows);
      if file.None? {
        return IndexPanic;
      }
      if fault.Some? {
        return IoError;
      }
      files := files[FileName(t, range) := file.value];
      return Written;
    }

    // The loop over the per-chunk map, which is visited in an arbitrary order.
    method WriteGroups(range: Range, byEvent: map<EventType, Group>, faults: map<EventType, Fault>,
                       ghost logs: seq<Log>)
      returns (ghost reports: seq<Failure>)
      requires byEvent == Grouped(logs)
      modifies this
      ensures files == old(files) + ChunkFiles(range, byEvent.Keys, faults, logs)
      ensures failures == old(failures) + reports
      ensures multiset(reports) == multiset(WriteErrors(range, byEvent.Keys * faults.Keys))
    {
      hide *;
      NoTypeYet(range, faults, logs);
      var left := byEvent;
      ghost var done: set<EventType> := {};
      reports := [];
      while left != map[]
        invariant done <= byEvent.Keys && left.Keys == byEvent.Keys - done
        invariant forall t :: t in left ==> left[t] == byEvent[t]
        invariant files == old(files) + ChunkFiles(range, done, faults, logs)
        invariant failures == old(failures) + reports
        invariant multiset(reports) == multiset(WriteErrors(range, done * faults.Keys))
        decreases byEvent.Keys - done
      {
        var t :| t in left;
        OneMoreFile(old(files), range, done, faults, t, logs);
        OneMoreReport(range, done, faults.Keys, t);
        ghost var report := WriteGroup(range, t, left[t], FaultOf(faults, t), logs);
        FaultKnown(faults, t);
        reports := reports + report;
        done := done + {t};
        left := left - {t};
      }
      assert done == byEvent.Keys;
    }

    // One turn of that loop.
    method WriteGroup(range: Range, t: EventType, group: Group, fault: Option<Fault>, ghost logs: seq<Log>)
      returns (ghost report: seq<Failure>)
      requires t in Grouped(logs) && group == Grouped(logs)[t]
      modifies this
      ensures files == AfterWrite(old(files), range, t, fault, logs)
      ensures failures == old(failures) + report
      ensures report == if fault.Some? then [WriteFailed(range, t)] else []
    {
      WriteGroupInBounds(t, logs);
      var outcome := WriteParquetFile(t, group.columns, SortRows(group.rows), range, fault);
      report := [];
      if outcome.IoError? {
        failures := failures + [WriteFailed(range, t)];
        report := [WriteFailed(range, t)];
      }
    }
  }

  lemma FaultKnown(faults: map<EventType, Fault>, t: EventType)
    ensures FaultOf(faults, t).Some? <==> t in faults
  {
  }

  datatype WriteOutcome = Written | IoError | IndexPanic
}
