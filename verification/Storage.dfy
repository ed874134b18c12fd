// src/storage.rs: the Parquet sink.
module Storage {
  import opened Base
  import opened Decode
  import opened Rows
  import opened Parquet

  // An open writer.  `setId` is the number in the file name; `epoch` is how many
  // rotations were completed when the file was created.  `batches` is what was
  // handed to it, one batch a row, and `rows` the rows that these stand for.
  datatype Writer = Writer(setId: u64, epoch: nat, schema: seq<Column>, rows: seq<Row>, batches: seq<seq<Array>>)

  datatype SinkFile = SinkFile(eventType: EventType, writer: Writer)

  // The sink's three fields, and as history: the completed rotations, the files
  // closed so far in order, and the writers that failing closes have dropped.
  datatype Sink = Sink(
    writers: map<EventType, Writer>,
    schemas: map<EventType, seq<Column>>,
    fileSetId: u64,
    epoch: nat,
    closed: seq<SinkFile>,
    dropped: seq<map<EventType, Writer>>)

  // What the file system does during one write: which call fails, if any.
  datatype WriteIo = Sound | DirectoryFails | CreateFails | AppendFails

  datatype WriteResult = Accepted | SchemaMismatch | IoError

  const ALL_TYPES: seq<EventType> :=
    [ConditionPreparation, PositionSplit, PositionsMerge, PayoutRedemption, OrderFilled, OrdersMatched,
     OrderCancelled, MarketPrepared, QuestionPrepared, PositionsConverted]

  lemma AllTypesListed()
    ensures forall t: EventType :: t in ALL_TYPES
  {
    forall t: EventType ensures t in ALL_TYPES {
      match t
      case ConditionPreparation => assert ALL_TYPES[0] == t;
      case PositionSplit => assert ALL_TYPES[1] == t;
      case PositionsMerge => assert ALL_TYPES[2] == t;
      case PayoutRedemption => assert ALL_TYPES[3] == t;
      case OrderFilled => assert ALL_TYPES[4] == t;
      case OrdersMatched => assert ALL_TYPES[5] == t;
      case OrderCancelled => assert ALL_TYPES[6] == t;
      case MarketPrepared => assert ALL_TYPES[7] == t;
      case QuestionPrepared => assert ALL_TYPES[8] == t;
      case PositionsConverted => assert ALL_TYPES[9] == t;
    }
  }

  function AllTypes(): (types: seq<EventType>)
    ensures forall t: EventType :: t in types
  {
    AllTypesListed();
    ALL_TYPES
  }

  // The order in which a hash map happens to be drained: any list with every type.
  type HashOrder = order: seq<EventType> | forall t: EventType :: t in order witness AllTypes()

  // What happens during one close: the drain order and the writers that fail to close.
  datatype CloseIo = CloseIo(order: HashOrder, failing: set<EventType>)

  function Empty(): Sink {
    Sink(map[], map[], 0, 0, [], [])
  }

  // `expected_schema_names`.
  function ExpectedSchema(names: seq<Column>): seq<Column> {
    BaseColumns() + names
  }

  function CacheSchema(s: Sink, t: EventType, names: seq<Column>): Sink {
    if t in s.schemas then s else s.(schemas := s.schemas[t := ExpectedSchema(names)])
  }

  function OpenWriter(s: Sink, t: EventType): Sink
    requires t in s.schemas
  {
    if t in s.writers then s
    else s.(writers := s.writers[t := Writer(s.fileSetId, s.epoch, s.schemas[t], [], [])])
  }

  // The arrays of a batch with one row.
  function BatchOf(t: EventType, row: Row): (arrays: seq<Array>)
    ensures |arrays| == 4 + |row.values|
    ensures forall c :: 0 <= c < |row.values| ==> arrays[4 + c] == Strings([row.values[c]])
  {
    [Types([t]), Numbers([row.blockNumber]), Strings([row.txHash]), Numbers([row.logIndex])]
    + seq(|row.values|, c requires 0 <= c < |row.values| => Strings([row.values[c]]))
  }

  function Append(s: Sink, t: EventType, row: Row): Sink
    requires t in s.writers
  {
    var w := s.writers[t];
    s.(writers := s.writers[t := w.(rows := w.rows + [row], batches := w.batches + [BatchOf(t, row)])])
  }

  // The state after `write_event`, and its result.
  function Write(s: Sink, t: EventType, names: seq<Column>, row: Row, io: WriteIo): (Sink, WriteResult) {
    if t in s.schemas && s.schemas[t] != ExpectedSchema(names) then (s, SchemaMismatch)
    else
      var cached := CacheSchema(s, t, names);
      if io.DirectoryFails? then (cached, IoError)
      else if io.CreateFails? && t !in s.writers then (cached, IoError)
      else if io.AppendFails? then (OpenWriter(cached, t), IoError)
      else (Append(OpenWriter(cached, t), t, row), Accepted)
  }

  function CloseOne(s: Sink, t: EventType): Sink
    requires t in s.writers
  {
    s.(writers := s.writers - {t}, closed := s.closed + [SinkFile(t, s.writers[t])])
  }

  // Draining ends at the first writer that fails to close; it and all that are
  // left are dropped without being closed.
  function Drain(s: Sink, order: seq<EventType>, failing: set<EventType>): (Sink, bool)
    decreases |order|
  {
    if order == [] then (s, true)
    else if order[0] !in s.writers then Drain(s, order[1..], failing)
    else if order[0] in failing then (s.(writers := map[], dropped := s.dropped + [s.writers]), false)
    else Drain(CloseOne(s, order[0]), order[1..], failing)
  }

  function Close(s: Sink, io: CloseIo): (Sink, bool) {
    Drain(s, io.order, io.failing)
  }

  function Rotate(s: Sink, io: CloseIo): (Sink, bool) {
    var (s', ok) := Close(s, io);
    (if ok then s'.(fileSetId := SaturatingAdd(s'.fileSetId, 1), epoch := s'.epoch + 1) else s', ok)
  }

  lemma DrainNext(s: Sink, order: seq<EventType>, n: nat, failing: set<EventType>)
    requires n < |order|
    ensures Drain(s, order[n..], failing)
            == if order[n] !in s.writers then Drain(s, order[n + 1..], failing)
               else if order[n] in failing then (s.(writers := map[], dropped := s.dropped + [s.writers]), false)
               else Drain(CloseOne(s, order[n]), order[n + 1..], failing)
  {
    assert order[n..][0] == order[n] && order[n..][1..] == order[n + 1..];
  }

  lemma DrainEnd(s: Sink, order: seq<EventType>, failing: set<EventType>)
    ensures Drain(s, order[|order|..], failing) == (s, true)
  {
  }

  // What a write answers, and what it leaves, at every point where it can fail.
  lemma WriteExactly(s: Sink, t: EventType, names: seq<Column>, row: Row, io: WriteIo)
    ensures var (s', result) := Write(s, t, names, row, io);
            var schema := [EventTypeName, BlockNumber, TransactionHash, LogIndex] + names;
            var mismatch := t in s.schemas && s.schemas[t] != schema;
            var noFile := io == DirectoryFails || (io == CreateFails && t !in s.writers);
            && (result == SchemaMismatch <==> mismatch)
            && (result == Accepted <==> !mismatch && !noFile && io != AppendFails)
            && s' == s.(writers := s'.writers, schemas := s'.schemas)
            && s'.schemas == (if mismatch then s.schemas else s.schemas[t := schema])
            && (if mismatch || noFile then s'.writers == s.writers
                else
                  var w := if t in s.writers then s.writers[t] else Writer(s.fileSetId, s.epoch, schema, [], []);
                  s'.writers == s.writers[t := if result == Accepted
                                               then w.(rows := w.rows + [row], batches := w.batches + [BatchOf(t, row)])
                                               else w])
  {
    hide BatchOf, CacheSchema, OpenWriter, Append;
    var schema := [EventTypeName, BlockNumber, TransactionHash, LogIndex] + names;
    if !(t in s.schemas && s.schemas[t] != schema) {
      var cached := CacheSchema(s, t, names);
      SchemaCached(s, t, names);
      WriterOpened(cached, t);
      RowAppended(OpenWriter(cached, t), t, row);
    }
  }

  lemma SchemaCached(s: Sink, t: EventType, names: seq<Column>)
    requires t in s.schemas ==> s.schemas[t] == [EventTypeName, BlockNumber, TransactionHash, LogIndex] + names
    ensures CacheSchema(s, t, names)
            == s.(schemas := s.schemas[t := [EventTypeName, BlockNumber, TransactionHash, LogIndex] + names])
  {
    assert t in s.schemas ==> s.schemas == s.schemas[t := s.schemas[t]];
  }

  lemma WriterOpened(s: Sink, t: EventType)
    requires t in s.schemas
    ensures OpenWriter(s, t)
            == s.(writers := s.writers[t := if t in s.writers then s.writers[t]
                                            else Writer(s.fileSetId, s.epoch, s.schemas[t], [], [])])
  {
    assert t in s.writers ==> s.writers == s.writers[t := s.writers[t]];
  }

  lemma RowAppended(s: Sink, t: EventType, row: Row)
    requires t in s.writers
    ensures var w := s.writers[t];
            Append(s, t, row)
            == s.(writers := s.writers[t := w.(rows := w.rows + [row], batches := w.batches + [BatchOf(t, row)])])
  {
  }

  // The arrays of `write_event`, in the order in which they are pushed.
  method BuildArrays(t: EventType, blockNumber: u64, txHash: string, logIndex: u64, columns: seq<(Column, string)>)
    returns (arrays: seq<Array>)
    ensures arrays == BatchOf(t, Row(blockNumber, txHash, logIndex, Values(columns)))
    ensures Lays([EventTypeName, BlockNumber, TransactionHash, LogIndex] + Names(columns), arrays, t, Names(columns),
                 [Row(blockNumber, txHash, logIndex, Values(columns))])
  {
    ghost var row := Row(blockNumber, txHash, logIndex, Values(columns));
    arrays := [Types([t]), Numbers([blockNumber]), Strings([txHash]), Numbers([logIndex])];
    for n := 0 to |columns|
      invariant arrays == BatchOf(t, row)[..4 + n]
    {
      arrays := arrays + [Strings([columns[n].1])];
    }
    assert arrays == BatchOf(t, row);
    BatchLays(t, Names(columns), row);
  }

  // A batch has the row it was built from, with its type, in the arrays that the
  // columns of its type name.
  lemma BatchLays(t: EventType, columns: seq<Column>, row: Row)
    requires |columns| == |row.values|
    ensures Lays([EventTypeName, BlockNumber, TransactionHash, LogIndex] + columns, BatchOf(t, row), t, columns, [row])
  {
    var arrays := BatchOf(t, row);
    forall k | 4 <= k < |arrays| ensures arrays[k] == Strings([row.values[k - 4]]) {
      assert arrays[4 + (k - 4)] == Strings([row.values[k - 4]]);
    }
  }

  // The last batch of the writer has exactly these values, each in its own column.
  ghost predicate EndsWith(w: Writer, t: EventType, blockNumber: u64, txHash: string, logIndex: u64,
                           columns: seq<(Column, string)>)
  {
    && w.rows != [] && w.batches != []
    && var row, batch := w.rows[|w.rows| - 1], w.batches[|w.batches| - 1];
       && row.blockNumber == blockNumber && row.txHash == txHash && row.logIndex == logIndex
       && |row.values| == |columns|
       && (forall c :: 0 <= c < |columns| ==> row.values[c] == columns[c].1)
       && Lays([EventTypeName, BlockNumber, TransactionHash, LogIndex] + Names(columns), batch, t,
               Names(columns), [row])
  }

  lemma Appended(w: Writer, t: EventType, blockNumber: u64, txHash: string, logIndex: u64,
                 columns: seq<(Column, string)>)
    ensures var row := Row(blockNumber, txHash, logIndex, Values(columns));
            EndsWith(w.(rows := w.rows + [row], batches := w.batches + [BatchOf(t, row)]), t, blockNumber, txHash,
                     logIndex, columns)
  {
    hide BatchOf, Lays;
    BatchLays(t, Names(columns), Row(blockNumber, txHash, logIndex, Values(columns)));
  }

  class ParquetStorage {
    var writers: map<EventType, Writer>
    var schemas: map<EventType, seq<Column>>
    var fileSetId: u64
    var epoch: nat  // history: the completed rotations, which file_set_id counts up to u64::MAX
    ghost var closed: seq<SinkFile>
    ghost var dropped: seq<map<EventType, Writer>>

    ghost function State(): Sink
      reads this
    {
      Sink(writers, schemas, fileSetId, epoch, closed, dropped)
    }

    constructor ()
      ensures State() == Empty()
    {
      writers, schemas, fileSetId := map[], map[], 0;
      epoch, closed, dropped := 0, [], [];
    }

    // None is the schema mismatch error.
    method GetOrCreateSchema(t: EventType, names: seq<Column>) returns (schema: Option<seq<Column>>)
      modifies this`schemas
      ensures schema.None? <==>
                t in old(schemas) && old(schemas)[t] != [EventTypeName, BlockNumber, TransactionHash, LogIndex] + names
      ensures schema.None? ==> State() == old(State())
      ensures schema.Some? ==>
                && schema.value == [EventTypeName, BlockNumber, TransactionHash, LogIndex] + names
                && schemas == old(schemas)[t := schema.value]
                && State() == CacheSchema(old(State()), t, names)
    {
      var expected := BaseColumns();
      for n := 0 to |names|
        invariant expected == BaseColumns() + names[..n]
      {
        expected := expected + [names[n]];
      }
      assert names[..|names|] == names;
      if t in schemas {
        if expected != schemas[t] {
          return None;
        }
        return Some(schemas[t]);
      }
      schemas := schemas[t := expected];
      return Some(expected);
    }

    method WriteEvent(t: EventType, blockNumber: u64, txHash: string, logIndex: u64,
                      columns: seq<(Column, string)>, io: WriteIo)
      returns (result: WriteResult)
      modifies this
      ensures (State(), result)
              == Write(old(State()), t, Names(columns), Row(blockNumber, txHash, logIndex, Values(columns)), io)
      ensures result == Accepted ==>
                t in writers && EndsWith(writers[t], t, blockNumber, txHash, logIndex, columns)
    {
      hide Write, CacheSchema, ExpectedSchema, BatchOf, Names, Values, Lays, EndsWith;
      var row := Row(blockNumber, txHash, logIndex, Values(columns));
      WriteExactly(State(), t, Names(columns), row, io);
      var schema := GetOrCreateSchema(t, Names(columns));
      if schema.None? {
        return SchemaMismatch;
      }
      if io.DirectoryFails? {
        return IoError;
      }
      if t !in writers {
        if io.CreateFails? {
          return IoError;
        }
        writers := writers[t := Writer(fileSetId, epoch, schema.value, [], [])];
      }
      assert writers == old(writers)[t := writers[t]];
      var arrays := BuildArrays(t, blockNumber, txHash, logIndex, columns);
      if io.AppendFails? {
        return IoError;
      }
      var writer := writers[t];
      writers := writers[t := writer.(rows := writer.rows + [row], batches := writer.batches + [arrays])];
      assert writers == old(writers)[t := writers[t]];
      Appended(writer, t, blockNumber, txHash, logIndex, columns);
      return Accepted;
    }

    method CloseWriters(io: CloseIo) returns (ok: bool)
      modifies this
      ensures (State(), ok) == Close(old(State()), io)
    {
      hide Drain;
      assert io.order[0..] == io.order;
      for n := 0 to |io.order|
        invariant Drain(State(), io.order[n..], io.failing) == Close(old(State()), io)
      {
        var t := io.order[n];
        DrainNext(State(), io.order, n, io.failing);
        if t in writers {
          var writer := writers[t];
          if t in io.failing {
            dropped := dropped + [writers];
            writers := map[];
            return false;
          }
          writers := writers - {t};
          closed := closed + [SinkFile(t, writer)];
        }
      }
      DrainEnd(State(), io.order, io.failing);
      return true;
    }

    method RotateWriters(io: CloseIo) returns (ok: bool)
      modifies this
      ensures (State(), ok) == Rotate(old(State()), io)
    {
      ok := CloseWriters(io);
      if ok {
        fileSetId := SaturatingAdd(fileSetId, 1);
        epoch := epoch + 1;
      }
    }
  }

  // Rows of one event type in a list of files, file after file.
  function RowsInFiles(files: seq<SinkFile>, t: EventType): seq<Row> {
    if files == [] then []
    else
      var last := files[|files| - 1];
      RowsInFiles(files[..|files| - 1], t) + if last.eventType == t then last.writer.rows else []
  }

  function RowsOpen(writers: map<EventType, Writer>, t: EventType): seq<Row> {
    if t in writers then writers[t].rows else []
  }

  function RowsDropped(dropped: seq<map<EventType, Writer>>, t: EventType): seq<Row> {
    if dropped == [] then []
    else RowsDropped(dropped[..|dropped| - 1], t) + RowsOpen(dropped[|dropped| - 1], t)
  }

  // The set number a file gets after so many rotations.
  function SetNumber(epoch: nat): u64 {
    Min(epoch, U64_MAX)
  }

  // The invariant of a sink that has only been written to and rotated.
  ghost predicate Live(s: Sink) {
    && s.fileSetId == SetNumber(s.epoch)
    && s.dropped == []
    && (forall t :: t in s.writers ==>
                      t in s.schemas && s.writers[t].schema == s.schemas[t]
                      && s.writers[t].epoch == s.epoch && s.writers[t].setId == s.fileSetId)
    && FilesInOrder(s)
    && (forall i :: 0 <= i < |s.closed| ==> s.closed[i].writer.epoch < s.epoch)
  }

  // Closed files have the cached schema of their type, their set numbers never
  // decrease, and no two files of a type share a set.
  ghost predicate FilesInOrder(s: Sink) {
    && (forall i :: 0 <= i < |s.closed| ==> FileOk(s, s.closed[i]))
    && (forall i, j :: 0 <= i < j < |s.closed| ==>
                         && s.closed[i].writer.epoch <= s.closed[j].writer.epoch
                         && (s.closed[i].eventType == s.closed[j].eventType ==>
                               s.closed[i].writer.epoch < s.closed[j].writer.epoch))
  }

  ghost predicate FileOk(s: Sink, f: SinkFile) {
    && f.eventType in s.schemas
    && f.writer.schema == s.schemas[f.eventType]
    && f.writer.epoch <= s.epoch
    && f.writer.setId == SetNumber(f.writer.epoch)
  }

  // In the middle of a drain: closed files of the current set belong to types
  // whose writer is gone.
  ghost predicate Draining(s: Sink) {
    && s.fileSetId == SetNumber(s.epoch)
    && s.dropped == []
    && (forall t :: t in s.writers ==>
                      t in s.schemas && s.writers[t].schema == s.schemas[t]
                      && s.writers[t].epoch == s.epoch && s.writers[t].setId == s.fileSetId)
    && FilesInOrder(s)
    && (forall i :: 0 <= i < |s.closed| && s.closed[i].writer.epoch == s.epoch ==> s.closed[i].eventType !in s.writers)
  }

  lemma CacheKeepsLive(s: Sink, t: EventType, names: seq<Column>)
    requires Live(s)
    ensures Live(CacheSchema(s, t, names))
  {
    var s' := CacheSchema(s, t, names);
    forall i | 0 <= i < |s'.closed| ensures FileOk(s', s'.closed[i]) {
      assert FileOk(s, s.closed[i]);
    }
  }

  lemma OpenKeepsLive(s: Sink, t: EventType)
    requires Live(s) && t in s.schemas
    ensures Live(OpenWriter(s, t)) && t in OpenWriter(s, t).writers
  {
    var s' := OpenWriter(s, t);
    forall i | 0 <= i < |s'.closed| ensures FileOk(s', s'.closed[i]) {
      assert FileOk(s, s.closed[i]);
    }
  }

  lemma AppendKeepsLive(s: Sink, t: EventType, row: Row)
    requires Live(s) && t in s.writers
    ensures Live(Append(s, t, row))
  {
    var s' := Append(s, t, row);
    forall i | 0 <= i < |s'.closed| ensures FileOk(s', s'.closed[i]) {
      assert FileOk(s, s.closed[i]);
    }
  }

  // Whatever the file system does, a write keeps the sink's invariant.
  lemma WriteKeepsLive(s: Sink, t: EventType, names: seq<Column>, row: Row, io: WriteIo)
    requires Live(s)
    ensures Live(Write(s, t, names, row, io).0)
  {
    var cached := CacheSchema(s, t, names);
    CacheKeepsLive(s, t, names);
    OpenKeepsLive(cached, t);
    hide Live;
    if t in OpenWriter(cached, t).writers && Live(OpenWriter(cached, t)) {
      AppendKeepsLive(OpenWriter(cached, t), t, row);
    }
  }

  lemma CloseOneKeepsDraining(s: Sink, t: EventType)
    requires Draining(s) && t in s.writers
    ensures Draining(CloseOne(s, t))
  {
    var s' := CloseOne(s, t);
    forall i | 0 <= i < |s'.closed| ensures FileOk(s', s'.closed[i]) {
      if i < |s.closed| {
        assert FileOk(s, s.closed[i]);
      }
    }
    forall i | 0 <= i < |s.closed|
      ensures s.closed[i].writer.epoch <= s.epoch
      ensures s.closed[i].eventType == t ==> s.closed[i].writer.epoch < s.epoch
    {
      assert FileOk(s, s.closed[i]);
    }
  }

  // What a close does to a sink s with result s': it closes or drops every
  // writer, drops none if none fails, and changes nothing else.
  ghost predicate Drained(s: Sink, s': Sink, ok: bool, failing: set<EventType>) {
    && (ok <==> s.writers.Keys * failing == {})
    && s' == s.(writers := map[], closed := s'.closed, dropped := s'.dropped)
    && s.closed <= s'.closed
    && (forall i :: |s.closed| <= i < |s'.closed| ==>
                      s'.closed[i].eventType in s.writers
                      && s'.closed[i].writer == s.writers[s'.closed[i].eventType])
    && (if ok then s'.dropped == s.dropped
        else
          && |s'.dropped| == |s.dropped| + 1 && s'.dropped[..|s.dropped|] == s.dropped
          && s'.dropped[|s.dropped|] != map[] && s'.dropped[|s.dropped|].Keys <= s.writers.Keys
          && (forall t :: t in s'.dropped[|s.dropped|] ==> s'.dropped[|s.dropped|][t] == s.writers[t])
          && forall i :: |s.closed| <= i < |s'.closed| ==> s'.closed[i].eventType !in s'.dropped[|s.dropped|])
  }

  // No row is lost: files, dropped writers and open writers hold the same rows.
  ghost predicate SameRows(s: Sink, s': Sink) {
    forall t :: AllRows(s', t) == AllRows(s, t)
  }

  function AllRows(s: Sink, t: EventType): seq<Row> {
    RowsInFiles(s.closed, t) + RowsDropped(s.dropped, t) + RowsOpen(s.writers, t)
  }

  lemma CloseOneRows(s: Sink, t: EventType)
    requires t in s.writers && s.dropped == []
    ensures SameRows(s, CloseOne(s, t))
  {
    var s' := CloseOne(s, t);
    assert s'.closed[..|s'.closed| - 1] == s.closed;
  }

  lemma {:induction false} DrainCorrect(s: Sink, order: seq<EventType>, failing: set<EventType>)
    requires Draining(s) && forall t :: t in s.writers ==> t in order
    ensures Drained(s, Drain(s, order, failing).0, Drain(s, order, failing).1, failing)
    ensures FilesInOrder(Drain(s, order, failing).0)
    ensures SameRows(s, Drain(s, order, failing).0)
    decreases |order|
  {
    if order == [] {
      assert s.writers == map[];
    } else if order[0] !in s.writers {
      DrainCorrect(s, order[1..], failing);
    } else if order[0] in failing {
      DrainFails(s, order[0], failing);
    } else {
      CloseOneKeepsDraining(s, order[0]);
      CloseOneRows(s, order[0]);
      DrainCorrect(CloseOne(s, order[0]), order[1..], failing);
      hide Draining, FilesInOrder, SameRows;
      DrainedStep(s, order[0], Drain(s, order, failing).0, Drain(s, order, failing).1, failing);
      assert SameRows(s, Drain(s, order, failing).0) by {
        SameRowsTransitive(s, CloseOne(s, order[0]), Drain(s, order, failing).0);
      }
    }
  }

  lemma SameRowsTransitive(a: Sink, b: Sink, c: Sink)
    requires SameRows(a, b) && SameRows(b, c)
    ensures SameRows(a, c)
  {
    forall t ensures AllRows(c, t) == AllRows(a, t) {
      assert AllRows(b, t) == AllRows(a, t);
    }
  }

  lemma DrainFails(s: Sink, t: EventType, failing: set<EventType>)
    requires Draining(s) && t in s.writers && t in failing
    ensures var s' := s.(writers := map[], dropped := s.dropped + [s.writers]);
            Drained(s, s', false, failing) && FilesInOrder(s') && SameRows(s, s')
  {
    var s' := s.(writers := map[], dropped := s.dropped + [s.writers]);
    assert t in s.writers.Keys * failing;
    assert s'.dropped[..0] == [];
    forall i | 0 <= i < |s.closed| ensures FileOk(s', s'.closed[i]) {
      assert FileOk(s, s.closed[i]);
    }
  }

  lemma DrainedStep(s: Sink, t: EventType, s': Sink, ok: bool, failing: set<EventType>)
    requires t in s.writers && t !in failing && Drained(CloseOne(s, t), s', ok, failing)
    ensures Drained(s, s', ok, failing)
  {
    var next := CloseOne(s, t);
    assert s.writers.Keys * failing == next.writers.Keys * failing;
    forall i | |s.closed| <= i < |s'.closed|
      ensures s'.closed[i].eventType in s.writers
              && s'.closed[i].writer == s.writers[s'.closed[i].eventType]
    {
      if i == |s.closed| {
        assert s'.closed[i] == next.closed[i];
      }
    }
    if !ok {
      var last := s'.dropped[|s.dropped|];
      assert last.Keys <= next.writers.Keys && t !in next.writers;
      forall i | |s.closed| <= i < |s'.closed| ensures s'.closed[i].eventType !in last {
        if i == |s.closed| {
          assert s'.closed[i] == next.closed[i];
        }
      }
    }
  }

  // Closing a live sink: `close_writers`, on every drain order and every set of
  // failing writers.
  lemma CloseCorrect(s: Sink, io: CloseIo)
    requires Live(s)
    ensures Drained(s, Close(s, io).0, Close(s, io).1, io.failing)
    ensures FilesInOrder(Close(s, io).0) && SameRows(s, Close(s, io).0)
  {
    assert Draining(s);
    DrainCorrect(s, io.order, io.failing);
  }

  // The position of a type in a drain order.
  function First(order: seq<EventType>, t: EventType): nat
    requires t in order
  {
    if order[0] == t then 0 else 1 + First(order[1..], t)
  }

  // A writer that fails to close comes up at t or before it.
  ghost predicate Blocked(open: set<EventType>, order: seq<EventType>, failing: set<EventType>, t: EventType) {
    exists u :: u in open && u in failing && u in order && t in order && First(order, u) <= First(order, t)
  }

  lemma FirstOfRest(order: seq<EventType>, t: EventType)
    requires t in order && t != order[0]
    ensures t in order[1..] && First(order, t) == 1 + First(order[1..], t)
  {
    assert order == [order[0]] + order[1..];
  }

  lemma BlockedLater(open: set<EventType>, order: seq<EventType>, failing: set<EventType>, t: EventType)
    requires order != [] && t in order && t != order[0] && !(order[0] in open && order[0] in failing)
    ensures Blocked(open, order, failing, t) <==> Blocked(open - {order[0]}, order[1..], failing, t)
  {
    hide First;
    FirstOfRest(order, t);
    if Blocked(open, order, failing, t) {
      var u :| u in open && u in failing && u in order && First(order, u) <= First(order, t);
      FirstOfRest(order, u);
      assert u in open - {order[0]};
    }
    if Blocked(open - {order[0]}, order[1..], failing, t) {
      var u :| u in open - {order[0]} && u in failing && u in order[1..]
               && First(order[1..], u) <= First(order[1..], t);
      InRest(order, u);
      FirstOfRest(order, u);
      assert u in open;
    }
  }

  lemma InRest(order: seq<EventType>, t: EventType)
    requires order != [] && t in order[1..]
    ensures t in order
  {
  }

  // Where the writer of type t ends up in a drain.
  lemma {:induction false} DrainPlaces(s: Sink, order: seq<EventType>, failing: set<EventType>, t: EventType)
    requires t in s.writers && t in order
    ensures var (s', ok) := Drain(s, order, failing);
            if Blocked(s.writers.Keys, order, failing, t) then
              && !ok && |s'.dropped| == |s.dropped| + 1
              && t in s'.dropped[|s.dropped|] && s'.dropped[|s.dropped|][t] == s.writers[t]
            else
              && SinkFile(t, s.writers[t]) in s'.closed
              && (!ok ==> |s'.dropped| == |s.dropped| + 1 && t !in s'.dropped[|s.dropped|])
    decreases |order|
  {
    var next := order[0];
    assert order == [next] + order[1..];
    if next !in s.writers {
      BlockedLater(s.writers.Keys, order, failing, t);
      assert s.writers.Keys - {next} == s.writers.Keys;
      DrainPlaces(s, order[1..], failing, t);
    } else if next in failing {
      assert First(order, next) == 0 && Blocked(s.writers.Keys, order, failing, t);
    } else if next == t {
      assert !Blocked(s.writers.Keys, order, failing, t);
      ClosedStay(CloseOne(s, t), order[1..], failing, SinkFile(t, s.writers[t]));
      NotDropped(CloseOne(s, t), order[1..], failing, t);
    } else {
      BlockedLater(s.writers.Keys, order, failing, t);
      assert CloseOne(s, next).writers.Keys == s.writers.Keys - {next};
      DrainPlaces(CloseOne(s, next), order[1..], failing, t);
    }
  }

  lemma {:induction false} NotDropped(s: Sink, order: seq<EventType>, failing: set<EventType>, t: EventType)
    requires t !in s.writers
    ensures var (s', ok) := Drain(s, order, failing);
            !ok ==> |s'.dropped| == |s.dropped| + 1 && t !in s'.dropped[|s.dropped|]
    decreases |order|
  {
    if order != [] && !(order[0] in s.writers && order[0] in failing) {
      NotDropped(if order[0] in s.writers then CloseOne(s, order[0]) else s, order[1..], failing, t);
    }
  }

  // A close goes through the writers in drain order and stops at the first that
  // fails: those before it become closed files, it and those after it are
  // dropped.
  lemma CloseStopsAtFirstFailure(s: Sink, io: CloseIo, t: EventType)
    requires t in s.writers
    ensures var (s', ok) := Close(s, io);
            if exists u :: u in s.writers && u in io.failing && First(io.order, u) <= First(io.order, t) then
              !ok && |s'.dropped| == |s.dropped| + 1
              && t in s'.dropped[|s.dropped|] && s'.dropped[|s.dropped|][t] == s.writers[t]
            else
              && SinkFile(t, s.writers[t]) in s'.closed
              && (!ok ==> |s'.dropped| == |s.dropped| + 1 && t !in s'.dropped[|s.dropped|])
  {
    DrainPlaces(s, io.order, io.failing, t);
    hide Drain;
  }

  // A completed rotation leaves a live sink with no open writer and a new set,
  // whatever was open is now in closed files of the old set.
  lemma RotateKeepsLive(s: Sink, io: CloseIo)
    requires Live(s) && Rotate(s, io).1
    ensures Live(Rotate(s, io).0)
    ensures Rotate(s, io).0.writers == map[] && Rotate(s, io).0.epoch == s.epoch + 1
    ensures SameRows(s, Rotate(s, io).0)
  {
    CloseCorrect(s, io);
    var closed, s' := Close(s, io).0, Rotate(s, io).0;
    forall i | 0 <= i < |s'.closed| ensures FileOk(s', s'.closed[i]) && s'.closed[i].writer.epoch < s'.epoch {
      assert FileOk(closed, closed.closed[i]);
    }
    forall t ensures AllRows(s', t) == AllRows(s, t) {
      assert AllRows(closed, t) == AllRows(s, t);
    }
  }

  lemma LiveMeans(s: Sink)
    requires Live(s)
    ensures FilesInOrder(s) && s.fileSetId == SetNumber(s.epoch) && s.dropped == []
    ensures forall i :: 0 <= i < |s.closed| ==> s.closed[i].writer.epoch < s.epoch
    ensures forall t :: t in s.writers ==> s.writers[t].epoch == s.epoch
  {
  }

  // Every writer of s is now a closed file or has been dropped.
  ghost predicate HandedOver(s: Sink, s': Sink) {
    && s'.writers == map[]
    && s.closed <= s'.closed
    && (forall i :: |s.closed| <= i < |s'.closed| ==>
                      s'.closed[i].eventType in s.writers
                      && s'.closed[i].writer == s.writers[s'.closed[i].eventType])
    && |s'.dropped| <= 1
    && (forall k, t :: 0 <= k < |s'.dropped| && t in s'.dropped[k] ==>
                         t in s.writers && s'.dropped[k][t] == s.writers[t])
  }

  // No type has both a dropped writer and a closed file in the current set.
  ghost predicate DroppedApart(s: Sink) {
    forall k, i :: 0 <= k < |s.dropped| && 0 <= i < |s.closed| && s.closed[i].eventType in s.dropped[k] ==>
                     s.closed[i].writer.epoch < s.epoch
  }

  // What a close does to a live sink, for those who need not look inside.
  lemma CloseEndsRun(s: Sink, io: CloseIo)
    requires Live(s)
    ensures var (s', ok) := Close(s, io);
            && s'.schemas == s.schemas && s'.epoch == s.epoch && s'.fileSetId == SetNumber(s'.epoch)
            && FilesInOrder(s') && SameRows(s, s') && HandedOver(s, s') && DroppedApart(s')
            && |s'.dropped| == if ok then 0 else 1
  {
    CloseCorrect(s, io);
    LiveMeans(s);
    hide FilesInOrder, Live, SameRows, Close;
  }

  // The same for a rotation.
  lemma RotateCorrect(s: Sink, io: CloseIo)
    requires Live(s)
    ensures var (s', ok) := Rotate(s, io);
            && s'.schemas == s.schemas && s'.fileSetId == SetNumber(s'.epoch)
            && FilesInOrder(s') && SameRows(s, s') && HandedOver(s, s') && DroppedApart(s')
            && |s'.dropped| == (if ok then 0 else 1)
            && (if ok then Live(s') && s'.epoch == s.epoch + 1 else s'.epoch == s.epoch)
  {
    CloseEndsRun(s, io);
    if Rotate(s, io).1 {
      RotateKeepsLive(s, io);
      LiveMeans(Rotate(s, io).0);
    }
    hide FilesInOrder, Live, SameRows, Close;
  }

  lemma RotateEpoch(s: Sink, io: CloseIo)
    requires Live(s)
    ensures Rotate(s, io).0.epoch == if Rotate(s, io).1 then s.epoch + 1 else s.epoch
  {
    RotateCorrect(s, io);
    hide *;
  }

  ghost predicate HasClosed(s: Sink, t: EventType, epoch: nat) {
    exists i :: 0 <= i < |s.closed| && s.closed[i].eventType == t && s.closed[i].writer.epoch == epoch
  }

  // s has an open writer of type t, and a closed file of that type in the same set.
  ghost predicate SharesSet(s: Sink, t: EventType) {
    t in s.writers && HasClosed(s, t, s.writers[t].epoch)
  }

  // After a successful close the current set has a file of each type that was open.
  lemma ClosedTypes(s: Sink, io: CloseIo, t: EventType)
    requires Live(s) && Close(s, io).1
    ensures HasClosed(Close(s, io).0, t, s.epoch) <==> t in s.writers
    ensures Close(s, io).0.writers == map[]
    ensures Close(s, io).0.schemas == s.schemas && Close(s, io).0.epoch == s.epoch
  {
    CloseCorrect(s, io);
    LiveMeans(s);
    if t in s.writers {
      ClosedByDrain(s, io.order, io.failing, t);
    }
    hide Live, FilesInOrder, SameRows, Drain;
    var closed := Close(s, io).0;
    if t in s.writers {
      var i :| 0 <= i < |closed.closed| && closed.closed[i] == SinkFile(t, s.writers[t]);
      assert closed.closed[i].eventType == t && closed.closed[i].writer.epoch == s.epoch;
    }
  }

  lemma FirstWrite(s: Sink, t: EventType, names: seq<Column>, row: Row)
    requires s.writers == map[] && (t in s.schemas ==> s.schemas[t] == ExpectedSchema(names))
    ensures var (s', result) := Write(s, t, names, row, Sound);
            result.Accepted? && s'.closed == s.closed && t in s'.writers && s'.writers[t].epoch == s.epoch
  {
    hide ExpectedSchema;
  }

  // The invariant is about how the sink is used, not about the sink alone: a
  // write after a close that was not a rotation makes a second file of the same
  // type and set exactly if the type had a writer open before the close.
  lemma WriteAfterCloseSharesSet(s: Sink, io: CloseIo, t: EventType, names: seq<Column>, row: Row)
    requires Live(s) && Close(s, io).1
    requires t in s.schemas ==> s.schemas[t] == ExpectedSchema(names)
    ensures Write(Close(s, io).0, t, names, row, Sound).1.Accepted?
    ensures SharesSet(Write(Close(s, io).0, t, names, row, Sound).0, t) <==> t in s.writers
  {
    hide Live, Close, Write, ExpectedSchema;
    ClosedTypes(s, io, t);
    FirstWrite(Close(s, io).0, t, names, row);
  }

  lemma {:induction false} ClosedByDrain(s: Sink, order: seq<EventType>, failing: set<EventType>, t: EventType)
    requires t in s.writers && t in order && Drain(s, order, failing).1
    ensures SinkFile(t, s.writers[t]) in Drain(s, order, failing).0.closed
    decreases |order|
  {
    if order[0] !in s.writers {
      ClosedByDrain(s, order[1..], failing, t);
    } else if order[0] == t {
      ClosedStay(CloseOne(s, t), order[1..], failing, SinkFile(t, s.writers[t]));
    } else {
      ClosedByDrain(CloseOne(s, order[0]), order[1..], failing, t);
    }
  }

  lemma {:induction false} ClosedStay(s: Sink, order: seq<EventType>, failing: set<EventType>, f: SinkFile)
    requires f in s.closed
    ensures f in Drain(s, order, failing).0.closed
    decreases |order|
  {
    if order != [] && order[0] !in failing {
      ClosedStay(if order[0] in s.writers then CloseOne(s, order[0]) else s, order[1..], failing, f);
    } else if order != [] && order[0] !in s.writers {
      ClosedStay(s, order[1..], failing, f);
    }
  }
}
