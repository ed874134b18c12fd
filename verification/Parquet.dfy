// Record batches: arrays under a schema, and reading them by column name.
module Parquet {
  import opened Base
  import opened Decode
  import opened Rows

  // One column of a batch, with an entry for each row.
  datatype Array = Types(types: seq<EventType>) | Numbers(numbers: seq<u64>) | Strings(strings: seq<string>)

  datatype Cell = TypeCell(eventType: EventType) | NumberCell(number: u64) | StringCell(text: string)

  function CellAt(a: Array, n: nat): Option<Cell> {
    match a
    case Types(types) => if n < |types| then Some(TypeCell(types[n])) else None
    case Numbers(numbers) => if n < |numbers| then Some(NumberCell(numbers[n])) else None
    case Strings(strings) => if n < |strings| then Some(StringCell(strings[n])) else None
  }

  // What a reader who knows only the schema finds in row n under a column name.
  function Field(schema: seq<Column>, arrays: seq<Array>, name: Column, n: nat): Option<Cell> {
    if schema == [] || arrays == [] then None
    else if schema[0] == name then CellAt(arrays[0], n)
    else Field(schema[1..], arrays[1..], name, n)
  }

  lemma {:induction false} FieldAt(schema: seq<Column>, arrays: seq<Array>, k: nat, n: nat)
    requires k < |schema| == |arrays| && forall j :: 0 <= j < k ==> schema[j] != schema[k]
    ensures Field(schema, arrays, schema[k], n) == CellAt(arrays[k], n)
  {
    if k > 0 {
      forall j | 0 <= j < k - 1 ensures schema[1..][j] != schema[1..][k - 1] {
        assert schema[1..][j] == schema[j + 1];
      }
      FieldAt(schema[1..], arrays[1..], k - 1, n);
    }
  }

  ghost predicate Distinct(names: seq<Column>) {
    forall i, j :: 0 <= i < j < |names| ==> names[i] != names[j]
  }

  lemma ColumnsDistinct(t: EventType)
    ensures Distinct(ColumnNames(t))
  {
    match t
    case ConditionPreparation =>
    case PositionSplit =>
    case PositionsMerge =>
    case PayoutRedemption =>
    case OrderFilled =>
    case OrdersMatched =>
    case OrderCancelled =>
    case MarketPrepared =>
    case QuestionPrepared =>
    case PositionsConverted =>
  }

  lemma ColumnsApart(t: EventType)
    ensures forall c :: 0 <= c < |ColumnNames(t)| ==>
                          ColumnNames(t)[c] !in [EventTypeName, BlockNumber, TransactionHash, LogIndex]
  {
  }

  // No column of an event has the name of another, or of one of the four that
  // every file starts with.
  lemma SchemaDistinct(t: EventType)
    ensures Distinct([EventTypeName, BlockNumber, TransactionHash, LogIndex] + ColumnNames(t))
  {
    hide ColumnNames;
    ColumnsDistinct(t);
    ColumnsApart(t);
    var base := [EventTypeName, BlockNumber, TransactionHash, LogIndex];
    var schema := base + ColumnNames(t);
    forall i, j | 0 <= i < j < |schema| ensures schema[i] != schema[j] {
      if 4 <= i {
        assert ColumnNames(t)[i - 4] != ColumnNames(t)[j - 4];
      } else if 4 <= j {
        assert schema[i] == base[i] && base[i] in base && ColumnNames(t)[j - 4] !in base;
      }
    }
  }

  // Row n of a batch, read by name, is `row` of event type t.
  ghost predicate Shows(schema: seq<Column>, arrays: seq<Array>, n: nat, t: EventType, row: Row) {
    && Field(schema, arrays, EventTypeName, n) == Some(TypeCell(t))
    && Field(schema, arrays, BlockNumber, n) == Some(NumberCell(row.blockNumber))
    && Field(schema, arrays, TransactionHash, n) == Some(StringCell(row.txHash))
    && Field(schema, arrays, LogIndex, n) == Some(NumberCell(row.logIndex))
    && |row.values| == |ColumnNames(t)|
    && forall c :: 0 <= c < |ColumnNames(t)| ==>
                     Field(schema, arrays, ColumnNames(t)[c], n) == Some(StringCell(row.values[c]))
  }

  // The same said of a log: under each name is the log's own value for that name.
  ghost predicate ShowsLog(schema: seq<Column>, arrays: seq<Array>, n: nat, t: EventType, log: Log) {
    && log.blockNumber.Some? && log.txHash.Some? && log.logIndex.Some? && t in log.abi
    && Field(schema, arrays, EventTypeName, n) == Some(TypeCell(t))
    && Field(schema, arrays, BlockNumber, n) == Some(NumberCell(log.blockNumber.value))
    && Field(schema, arrays, TransactionHash, n) == Some(StringCell(log.txHash.value))
    && Field(schema, arrays, LogIndex, n) == Some(NumberCell(log.logIndex.value))
    && forall name :: name in ColumnNames(t) ==>
                        name in log.abi[t] && Field(schema, arrays, name, n) == Some(StringCell(log.abi[t][name]))
  }

  // Arrays that hold the given rows: event type, block number, transaction hash,
  // log index, and then the values, each in row order.
  ghost predicate Lays(schema: seq<Column>, arrays: seq<Array>, t: EventType, columns: seq<Column>, rows: seq<Row>) {
    && schema == [EventTypeName, BlockNumber, TransactionHash, LogIndex] + columns
    && |arrays| == 4 + |columns|
    && arrays[0].Types? && |arrays[0].types| == |rows|
    && arrays[1].Numbers? && |arrays[1].numbers| == |rows|
    && arrays[2].Strings? && |arrays[2].strings| == |rows|
    && arrays[3].Numbers? && |arrays[3].numbers| == |rows|
    && (forall n :: 0 <= n < |rows| ==>
                      && arrays[0].types[n] == t
                      && arrays[1].numbers[n] == rows[n].blockNumber
                      && arrays[2].strings[n] == rows[n].txHash
                      && arrays[3].numbers[n] == rows[n].logIndex)
    && (forall k :: 4 <= k < |arrays| ==> arrays[k].Strings? && |arrays[k].strings| == |rows|)
    && forall k, n :: 4 <= k < |arrays| && 0 <= n < |rows| ==>
                        k - 4 < |rows[n].values| && arrays[k].strings[n] == rows[n].values[k - 4]
  }

  // Laid out in this way, a batch reads back by name.
  lemma LaidOutShows(schema: seq<Column>, arrays: seq<Array>, t: EventType, rows: seq<Row>, n: nat)
    requires Lays(schema, arrays, t, ColumnNames(t), rows) && n < |rows| && |rows[n].values| == |ColumnNames(t)|
    ensures Shows(schema, arrays, n, t, rows[n])
  {
    SchemaDistinct(t);
    hide ColumnNames, Field;
    FieldAt(schema, arrays, 0, n);
    FieldAt(schema, arrays, 1, n);
    FieldAt(schema, arrays, 2, n);
    FieldAt(schema, arrays, 3, n);
    forall c | 0 <= c < |ColumnNames(t)|
      ensures Field(schema, arrays, ColumnNames(t)[c], n) == Some(StringCell(rows[n].values[c]))
    {
      assert schema[4 + c] == ColumnNames(t)[c];
      FieldAt(schema, arrays, 4 + c, n);
    }
  }

  // And the row of a log shows the log.
  lemma RowShowsLog(schema: seq<Column>, arrays: seq<Array>, n: nat, t: EventType, log: Log, row: Row)
    requires RowPart(t, log) == [row] && Shows(schema, arrays, n, t, row)
    ensures ShowsLog(schema, arrays, n, t, log)
  {
    hide Field, ColumnNames, RowPart;
    RowPartExactly(t, log);
    assert row == RowPart(t, log)[0];
    forall name | name in ColumnNames(t)
      ensures name in log.abi[t] && Field(schema, arrays, name, n) == Some(StringCell(log.abi[t][name]))
    {
      var c :| 0 <= c < |ColumnNames(t)| && ColumnNames(t)[c] == name;
      assert row.values[c] == log.abi[t][ColumnNames(t)[c]];
    }
  }
}
