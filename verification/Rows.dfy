// The row a complete, decoded log becomes in either ingestion mode.
module Rows {
  import opened Base
  import opened Decode

  datatype Row = Row(blockNumber: u64, txHash: string, logIndex: u64, values: seq<string>)

  function RowOf(log: Log, event: DecodedEvent): Row
    requires log.Complete()
  {
    Row(log.blockNumber.value, log.txHash.value, log.logIndex.value, Values(event.columns))
  }

  predicate IsEvent(t: EventType, log: Log) {
    DecodeLog(log).Event? && DecodeLog(log).event.eventType == t
  }

  // What one log contributes to the rows of an event type.
  function RowPart(t: EventType, log: Log): seq<Row> {
    if IsEvent(t, log) && log.Complete() then [RowOf(log, DecodeLog(log).event)] else []
  }

  // A log contributes one row exactly if its first topic is the type's signature,
  // it has its metadata, and all of the type's columns can be rendered.  The row
  // has the log's own metadata, and in the place of each column the log's value
  // for that column.
  lemma RowPartExactly(t: EventType, log: Log)
    ensures |RowPart(t, log)| <= 1
    ensures RowPart(t, log) != [] <==>
            && log.topics != [] && log.topics[0] == Signature(t)
            && log.blockNumber.Some? && log.txHash.Some? && log.logIndex.Some?
            && t in log.abi && forall name :: name in ColumnNames(t) ==> name in log.abi[t]
    ensures RowPart(t, log) != [] ==>
              var r := RowPart(t, log)[0];
              && r.blockNumber == log.blockNumber.value
              && r.txHash == log.txHash.value
              && r.logIndex == log.logIndex.value
              && |r.values| == |ColumnNames(t)|
              && forall c :: 0 <= c < |ColumnNames(t)| ==> r.values[c] == log.abi[t][ColumnNames(t)[c]]
  {
    DecodeLogRouting(log);
    hide DecodeLog, ColumnNames;
  }

  // The complete logs of one event type, as rows, in arrival order.
  function RowsOf(t: EventType, logs: seq<Log>): seq<Row> {
    if logs == [] then [] else RowsOf(t, logs[..|logs| - 1]) + RowPart(t, logs[|logs| - 1])
  }

  lemma RowsOfSnoc(t: EventType, logs: seq<Log>, log: Log)
    ensures RowsOf(t, logs + [log]) == RowsOf(t, logs) + RowPart(t, log)
  {
    assert (logs + [log])[..|logs|] == logs;
  }

  // Every row comes from a log.
  lemma {:induction false} RowHasLog(t: EventType, logs: seq<Log>, r: Row)
    requires r in RowsOf(t, logs)
    ensures exists n :: 0 <= n < |logs| && RowPart(t, logs[n]) == [r]
  {
    hide RowPart;
    var last := |logs| - 1;
    RowPartExactly(t, logs[last]);
    if r in RowPart(t, logs[last]) {
      assert RowPart(t, logs[last]) == [r];
    } else {
      RowHasLog(t, logs[..last], r);
      var n :| 0 <= n < last && RowPart(t, logs[..last][n]) == [r];
      assert RowPart(t, logs[n]) == [r];
    }
  }

  // Each row has one value for each column of its type.
  lemma {:induction false} RowsRectangular(t: EventType, logs: seq<Log>)
    ensures forall r :: r in RowsOf(t, logs) ==> |r.values| == |ColumnNames(t)|
  {
    if logs != [] {
      RowsRectangular(t, logs[..|logs| - 1]);
      DecodeLogRouting(logs[|logs| - 1]);
    }
  }

  // The four columns that every file starts with.
  function BaseColumns(): seq<Column> {
    [EventTypeName, BlockNumber, TransactionHash, LogIndex]
  }

  function SchemaOf(t: EventType): seq<Column> {
    BaseColumns() + ColumnNames(t)
  }
}
