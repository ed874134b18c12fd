// Invariants of every run of `frontfill::run`.
module FrontfillRuns {
  import opened Base
  import opened Decode
  import opened Rows
  import opened Storage
  import opened Frontfill

  // The logs that arrived, in order.
  function Logs(events: seq<Event>): seq<Log> {
    if events == [] then []
    else
      var last := events[|events| - 1];
      Logs(events[..|events| - 1]) + if last.LogArrived? then [last.log] else []
  }

  // The log that ended the run did not get to the sink.
  predicate LastLogUnstored(mode: Mode) {
    mode.Exited? && (mode.exit.RotateFailed? || mode.exit.WriteFailed?)
  }

  // The logs that were offered to the sink with success, or that are no rows.
  function StoredLogs(s: State, events: seq<Event>): seq<Log> {
    if LastLogUnstored(s.mode) && events != [] then Logs(events[..|events| - 1]) else Logs(events)
  }

  // The run ended in a close.
  predicate Closing(mode: Mode) {
    mode.Exited? && (mode.exit.Shutdown? || mode.exit.CloseFailed? || mode.exit.RotateFailed?)
  }

  // The accepted rows of a type, and those of a type in one set.
  function PlacedRows(placed: seq<Placed>, t: EventType): seq<Row> {
    if placed == [] then []
    else
      var last := placed[|placed| - 1];
      PlacedRows(placed[..|placed| - 1], t) + if last.eventType == t then [last.row] else []
  }

  function PlacedAt(placed: seq<Placed>, t: EventType, epoch: nat): seq<Row> {
    if placed == [] then []
    else
      var last := placed[|placed| - 1];
      PlacedAt(placed[..|placed| - 1], t, epoch)
      + if last.eventType == t && last.epoch == epoch then [last.row] else []
  }

  ghost predicate SchemasRight(s: Sink) {
    forall t :: t in s.schemas ==> s.schemas[t] == SchemaOf(t)
  }

  // The sink is live until a close ends the run; after that nothing is open.
  ghost predicate SinkInv(s: State) {
    && SchemasRight(s.sink)
    && FilesInOrder(s.sink)
    && s.sink.fileSetId == SetNumber(s.sink.epoch)
    && (!Closing(s.mode) ==> Live(s.sink))
    && (Closing(s.mode) ==>
          && s.sink.writers == map[]
          && |s.sink.dropped| == (if s.mode.exit.Shutdown? then 0 else 1)
          && DroppedApart(s.sink))
  }

  // The rotation target follows the opener of the current set.
  ghost predicate TargetInv(flush: u64, s: State) {
    if s.openers == [] then s.target == None && s.sink == Empty() && s.placed == []
    else
      && s.target == Some(SaturatingAdd(s.openers[|s.openers| - 1], flush))
      && |s.openers| == s.sink.epoch + 1
  }

  ghost predicate OpenersClimbBy(flush: u64, openers: seq<u64>) {
    forall i, j :: 0 <= i && j == i + 1 && j < |openers| ==> SaturatingAdd(openers[i], flush) <= openers[j]
  }

  // Each set's rows stay below its opener plus flush_blocks.
  ghost predicate RowsBelow(flush: u64, s: State) {
    forall i :: 0 <= i < |s.placed| ==>
                  && s.placed[i].epoch <= s.sink.epoch
                  && s.placed[i].epoch < |s.openers|
                  && s.placed[i].row.blockNumber < s.openers[s.placed[i].epoch] + flush
  }

  ghost predicate SetsClimb(placed: seq<Placed>) {
    forall i, j :: 0 <= i < j < |placed| ==> placed[i].epoch <= placed[j].epoch
  }

  ghost predicate SetInv(flush: u64, s: State) {
    TargetInv(flush, s) && OpenersClimbBy(flush, s.openers) && RowsBelow(flush, s) && SetsClimb(s.placed)
  }

  // The sink holds exactly the accepted rows, and these are the rows of the logs.
  ghost predicate RowInv(events: seq<Event>, s: State) {
    forall t ::
      && AllRows(s.sink, t) == PlacedRows(s.placed, t)
      && PlacedRows(s.placed, t) == RowsOf(t, StoredLogs(s, events))
  }

  ghost predicate ClosedFilled(s: State) {
    forall i :: 0 <= i < |s.sink.closed| ==> FileFilled(s, s.sink.closed[i].eventType, s.sink.closed[i].writer)
  }

  ghost predicate OpenFilled(s: State) {
    forall t :: t in s.sink.writers ==>
                  FileFilled(s, t, s.sink.writers[t]) && s.sink.writers[t].epoch == s.sink.epoch
  }

  ghost predicate DroppedFilled(s: State) {
    forall k, t :: 0 <= k < |s.sink.dropped| && t in s.sink.dropped[k] ==>
                     FileFilled(s, t, s.sink.dropped[k][t]) && s.sink.dropped[k][t].epoch == s.sink.epoch
  }

  // A type without a writer has no row in the current set yet.
  ghost predicate AllOpen(s: State) {
    forall t :: t !in s.sink.writers ==> PlacedAt(s.placed, t, s.sink.epoch) == []
  }

  // Each file holds exactly the rows accepted for its type in its set.
  ghost predicate FileInv(s: State) {
    ClosedFilled(s) && OpenFilled(s) && DroppedFilled(s) && (!Closing(s.mode) ==> AllOpen(s))
  }

  ghost predicate FileFilled(s: State, t: EventType, w: Writer) {
    w.rows == PlacedAt(s.placed, t, w.epoch)
  }

  // A state in which the run goes on.
  ghost predicate Running(flush: u64, s: State) {
    !s.mode.Exited? && SinkInv(s) && SetInv(flush, s) && FileInv(s)
  }

  // --- the rotation check ---

  lemma {:induction false} PlacedAtLater(placed: seq<Placed>, epoch: nat)
    requires forall i :: 0 <= i < |placed| ==> placed[i].epoch < epoch
    ensures forall t :: PlacedAt(placed, t, epoch) == []
  {
    if placed != [] {
      PlacedAtLater(placed[..|placed| - 1], epoch);
    }
  }

  // No rotation, a completed one, or one that fails.
  lemma RotateCases(flush: u64, s: State, block: u64, io: CloseIo)
    ensures var s' := RotateIfDue(flush, s, block, io);
            && s'.placed == s.placed
            && s'.metrics == (if s.target.Some? && s.target.value <= block && Rotate(s.sink, io).1
                              then s.metrics.ObserveRotate() else s.metrics)
            && (s.target.None? ==>
                  s'.sink == s.sink && s'.mode == s.mode && s'.openers == s.openers + [block]
                  && s'.target == Some(SaturatingAdd(block, flush)))
            && (s.target.Some? && block < s.target.value ==> s' == s)
            && (s.target.Some? && s.target.value <= block ==>
                  && s'.sink == Rotate(s.sink, io).0
                  && (if Rotate(s.sink, io).1
                      then s'.mode == s.mode && s'.openers == s.openers + [block]
                           && s'.target == Some(SaturatingAdd(block, flush))
                      else s'.mode == Exited(RotateFailed) && s'.openers == s.openers && s'.target == s.target))
  {
    hide Rotate, SaturatingAdd;
  }

  lemma RotateSink(flush: u64, s: State, block: u64, io: CloseIo)
    requires Running(flush, s)
    ensures SinkInv(RotateIfDue(flush, s, block, io))
  {
    assert SinkInv(s) && Live(s.sink) && SchemasRight(s.sink);
    RotateCases(flush, s, block, io);
    RotateCorrect(s.sink, io);
    hide *;
    SinkInvFrom(s, RotateIfDue(flush, s, block, io));
  }

  lemma SinkInvFrom(s: State, s': State)
    requires SinkInv(s) && !Closing(s.mode)
    requires s'.sink.schemas == s.sink.schemas
    requires (s'.sink == s.sink && !Closing(s'.mode)) ||
             ( && FilesInOrder(s'.sink) && s'.sink.fileSetId == SetNumber(s'.sink.epoch)
               && s'.sink.writers == map[]
               && (Closing(s'.mode) || Live(s'.sink))
               && (Closing(s'.mode) ==>
                     && |s'.sink.dropped| == (if s'.mode.exit.Shutdown? then 0 else 1)
                     && DroppedApart(s'.sink)))
    ensures SinkInv(s')
  {
    hide FilesInOrder, Live, SetNumber, DroppedApart;
  }

  lemma SameSets(flush: u64, s: State, s': State)
    requires SetInv(flush, s) && (s.openers == [] ==> s'.sink == s.sink)
    requires s'.sink.epoch == s.sink.epoch && s'.openers == s.openers && s'.target == s.target && s'.placed == s.placed
    ensures SetInv(flush, s')
  {
    hide SaturatingAdd;
  }

  lemma OpenedSet(flush: u64, s: State, s': State, block: u64)
    requires SetInv(flush, s) && s'.placed == s.placed
    requires s'.openers == s.openers + [block] && s'.target == Some(SaturatingAdd(block, flush))
    requires if s.target.None? then s'.sink == s.sink else s.target.value <= block && s'.sink.epoch == s.sink.epoch + 1
    ensures SetInv(flush, s')
  {
    hide SaturatingAdd;
  }

  lemma TargetHasOpener(flush: u64, s: State)
    requires SetInv(flush, s)
    ensures s.target.Some? ==> s.openers != [] && s.target.value <= s.openers[|s.openers| - 1] + flush
  {
    hide OpenersClimbBy, RowsBelow, SetsClimb;
  }

  lemma RotateSets(flush: u64, s: State, block: u64, io: CloseIo)
    requires Running(flush, s) && flush > 0
    ensures SetInv(flush, RotateIfDue(flush, s, block, io))
    ensures var s' := RotateIfDue(flush, s, block, io);
            !s'.mode.Exited? ==> s'.openers != [] && block < s'.openers[|s'.openers| - 1] + flush
  {
    assert SetInv(flush, s) && Live(s.sink);
    hide FilesInOrder, FileInv, SinkInv, Rotate, Live, RotateIfDue, Running, SetInv;
    RotateCases(flush, s, block, io);
    RotateEpoch(s.sink, io);
    TargetHasOpener(flush, s);
    var s' := RotateIfDue(flush, s, block, io);
    if s'.openers != s.openers {
      OpenedSet(flush, s, s', block);
    } else {
      SameSets(flush, s, s');
    }
  }

  // A sink whose writers have become closed files or have been dropped.
  lemma EmptiedFiles(s: State, s': State)
    requires FileInv(s) && s'.placed == s.placed && s.sink.dropped == []
    requires HandedOver(s.sink, s'.sink)
    requires s'.sink.dropped == [] || s'.sink.epoch == s.sink.epoch
    requires Closing(s'.mode) || forall t :: PlacedAt(s'.placed, t, s'.sink.epoch) == []
    ensures FileInv(s')
  {
    forall i | 0 <= i < |s'.sink.closed|
      ensures FileFilled(s', s'.sink.closed[i].eventType, s'.sink.closed[i].writer)
    {
      if i < |s.sink.closed| {
        assert FileFilled(s, s.sink.closed[i].eventType, s.sink.closed[i].writer);
      } else {
        var t := s'.sink.closed[i].eventType;
        assert FileFilled(s, t, s.sink.writers[t]);
      }
    }
    forall k, t | 0 <= k < |s'.sink.dropped| && t in s'.sink.dropped[k]
      ensures FileFilled(s', t, s'.sink.dropped[k][t]) && s'.sink.dropped[k][t].epoch == s'.sink.epoch
    {
      assert FileFilled(s, t, s.sink.writers[t]);
    }
  }

  lemma RotateFiles(flush: u64, s: State, block: u64, io: CloseIo)
    requires Running(flush, s)
    ensures FileInv(RotateIfDue(flush, s, block, io))
    ensures SameRows(s.sink, RotateIfDue(flush, s, block, io).sink)
    ensures RotateIfDue(flush, s, block, io).placed == s.placed
  {
    LiveMeans(s.sink);
    RotateCorrect(s.sink, io);
    PlacedAtLater(s.placed, s.sink.epoch + 1);
    RotateCases(flush, s, block, io);
    hide *;
    var s' := RotateIfDue(flush, s, block, io);
    if s.target.Some? && block >= s.target.value {
      EmptiedFiles(s, s');
    } else {
      SameFiles(s, s');
    }
  }

  lemma SameFiles(s: State, s': State)
    requires FileInv(s) && s'.sink == s.sink && s'.placed == s.placed && s'.mode == s.mode
    ensures FileInv(s')
  {
    hide PlacedAt;
    assert forall t, w :: FileFilled(s, t, w) <==> FileFilled(s', t, w);
  }

  // --- decoding and writing ---

  lemma WriteRows(s: Sink, t: EventType, names: seq<Column>, row: Row, io: WriteIo, u: EventType)
    ensures var (s', result) := Write(s, t, names, row, io);
            AllRows(s', u) == AllRows(s, u) + if result.Accepted? && u == t then [row] else []
  {
    WriteShape(s, t, names, row, io);
    hide Write;
    var s' := Write(s, t, names, row, io).0;
    assert RowsOpen(s'.writers, u)
        == RowsOpen(s.writers, u) + if Write(s, t, names, row, io).1.Accepted? && u == t then [row] else [];
  }

  // The decoder's columns are those of the cached schema, so the sink never
  // reports a schema mismatch.
  lemma NoMismatch(s: Sink, log: Log, row: Row, io: WriteIo)
    requires SchemasRight(s) && DecodeLog(log).Event?
    ensures var e := DecodeLog(log).event;
            && Write(s, e.eventType, Names(e.columns), row, io).1 != SchemaMismatch
            && SchemasRight(Write(s, e.eventType, Names(e.columns), row, io).0)
  {
    DecodeLogRouting(log);
    hide DecodeLog, ColumnNames, BaseColumns;
  }

  lemma StoreSink(flush: u64, s: State, log: Log, io: WriteIo)
    requires Running(flush, s) && log.Complete()
    ensures SinkInv(Store(s, log, io))
    ensures Store(s, log, io).mode != Exited(WriteFailed(SchemaMismatch))
  {
    if DecodeLog(log).Event? {
      var e := DecodeLog(log).event;
      NoMismatch(s.sink, log, RowOf(log, e), io);
      WriteKeepsLive(s.sink, e.eventType, Names(e.columns), RowOf(log, e), io);
    }
    hide DecodeLog, Write, SetInv, FileInv, SchemasRight;
  }

  // What storing a log leaves alone, and the one row that it may place.
  lemma StorePlaces(s: State, log: Log, io: WriteIo)
    requires log.Complete()
    ensures var s' := Store(s, log, io);
            && s'.sink.epoch == s.sink.epoch && s'.openers == s.openers && s'.target == s.target
            && (|| s'.placed == s.placed
                || exists p: Placed :: s'.placed == s.placed + [p] && p.epoch == s.sink.epoch
                                       && p.row.blockNumber == log.blockNumber.value)
  {
    if DecodeLog(log).Event? {
      var e := DecodeLog(log).event;
      WriteKeepsFiles(s.sink, e.eventType, Names(e.columns), RowOf(log, e), io);
      assert RowOf(log, e).blockNumber == log.blockNumber.value;
      var p := Placed(e.eventType, RowOf(log, e), s.sink.epoch);
      assert p.epoch == s.sink.epoch && p.row.blockNumber == log.blockNumber.value;
    }
    hide DecodeLog, Write, Names, Values, RowOf;
  }

  lemma PlacedSets(flush: u64, s: State, s': State, p: Placed)
    requires SetInv(flush, s) && s.openers != []
    requires s'.sink.epoch == s.sink.epoch && s'.openers == s.openers && s'.target == s.target
    requires s'.placed == s.placed + [p] && p.epoch == s.sink.epoch
    requires p.row.blockNumber < s.openers[|s.openers| - 1] + flush
    ensures SetInv(flush, s')
  {
    hide SaturatingAdd;
  }

  lemma StoreSets(flush: u64, s: State, log: Log, io: WriteIo)
    requires SetInv(flush, s) && log.Complete()
    requires s.openers != [] && log.blockNumber.value < s.openers[|s.openers| - 1] + flush
    ensures SetInv(flush, Store(s, log, io))
  {
    hide SetInv, Store;
    StorePlaces(s, log, io);
    var s' := Store(s, log, io);
    if s'.placed == s.placed {
      SameSets(flush, s, s');
    } else {
      var p: Placed :| s'.placed == s.placed + [p] && p.epoch == s.sink.epoch
                       && p.row.blockNumber == log.blockNumber.value;
      PlacedSets(flush, s, s', p);
    }
  }

  // A write has gone through none, some or all of its three steps.
  lemma WriteStages(s: Sink, t: EventType, names: seq<Column>, row: Row, io: WriteIo)
    ensures var cached := CacheSchema(s, t, names);
            var written := Write(s, t, names, row, io);
            || written == (s, SchemaMismatch)
            || (t in cached.schemas
                && (|| written == (cached, IoError)
                    || written == (OpenWriter(cached, t), IoError)
                    || (t in OpenWriter(cached, t).writers
                        && written == (Append(OpenWriter(cached, t), t, row), Accepted))))
  {
    hide ExpectedSchema;
  }

  // s' differs from s in its schemas and in the writer of t only.
  ghost predicate OnlyWriter(s: Sink, s': Sink, t: EventType) {
    && s'.epoch == s.epoch && s'.closed == s.closed && s'.dropped == s.dropped
    && (forall u :: u != t ==> (u in s'.writers <==> u in s.writers)
                               && (u in s.writers ==> s'.writers[u] == s.writers[u]))
    && (t in s'.writers ==> s'.writers[t].epoch == if t in s.writers then s.writers[t].epoch else s.epoch)
  }

  lemma CacheEffect(s: Sink, t: EventType, names: seq<Column>)
    ensures OnlyWriter(s, CacheSchema(s, t, names), t) && CacheSchema(s, t, names).writers == s.writers
    ensures t in CacheSchema(s, t, names).schemas
  {
    hide ExpectedSchema;
  }

  lemma OpenEffect(s: Sink, t: EventType)
    requires t in s.schemas
    ensures OnlyWriter(s, OpenWriter(s, t), t) && t in OpenWriter(s, t).writers
    ensures RowsOpen(OpenWriter(s, t).writers, t) == RowsOpen(s.writers, t)
  {
  }

  lemma AppendEffect(s: Sink, t: EventType, row: Row)
    requires t in s.writers
    ensures OnlyWriter(s, Append(s, t, row), t) && t in Append(s, t, row).writers
    ensures RowsOpen(Append(s, t, row).writers, t) == RowsOpen(s.writers, t) + [row]
  {
  }

  lemma OnlyWriterTwice(a: Sink, b: Sink, c: Sink, t: EventType)
    requires OnlyWriter(a, b, t) && OnlyWriter(b, c, t) && (t in a.writers ==> t in b.writers)
    ensures OnlyWriter(a, c, t)
  {
  }

  lemma WriteShape(s: Sink, t: EventType, names: seq<Column>, row: Row, io: WriteIo)
    ensures var (s', result) := Write(s, t, names, row, io);
            && OnlyWriter(s, s', t)
            && RowsOpen(s'.writers, t) == RowsOpen(s.writers, t) + (if result.Accepted? then [row] else [])
            && (result.Accepted? ==> t in s'.writers)
  {
    assert OnlyWriter(s, s, t);
    hide *;
    var cached := CacheSchema(s, t, names);
    WriteStages(s, t, names, row, io);
    CacheEffect(s, t, names);
    OpenEffect(cached, t);
    OnlyWriterTwice(s, cached, OpenWriter(cached, t), t);
    AppendEffect(OpenWriter(cached, t), t, row);
    OnlyWriterTwice(s, OpenWriter(cached, t), Append(OpenWriter(cached, t), t, row), t);
  }

  lemma WriteKeepsFiles(s: Sink, t: EventType, names: seq<Column>, row: Row, io: WriteIo)
    ensures var s' := Write(s, t, names, row, io).0;
            s'.epoch == s.epoch && s'.closed == s.closed && s'.dropped == s.dropped
  {
    hide Write, RowsOpen;
    WriteShape(s, t, names, row, io);
  }

  lemma StoreFiles(flush: u64, s: State, log: Log, io: WriteIo)
    requires Running(flush, s) && log.Complete()
    ensures FileInv(Store(s, log, io))
  {
    if DecodeLog(log).Event? {
      var e := DecodeLog(log).event;
      var t, row := e.eventType, RowOf(log, e);
      WriteShape(s.sink, t, Names(e.columns), row, io);
      LiveMeans(s.sink);
      hide Write, DecodeLog, SinkInv, SetInv, Live;
      WrittenFiles(s, Store(s, log, io), t, row, Write(s.sink, t, Names(e.columns), row, io).1.Accepted?);
    }
  }

  lemma PlacedAtSnoc(placed: seq<Placed>, p: Placed)
    ensures forall t, epoch :: PlacedAt(placed + [p], t, epoch)
                               == PlacedAt(placed, t, epoch)
                                  + if p.eventType == t && p.epoch == epoch then [p.row] else []
  {
    assert (placed + [p])[..|placed|] == placed;
  }

  lemma WrittenFiles(s: State, s': State, t: EventType, row: Row, accepted: bool)
    requires FileInv(s) && !Closing(s.mode) && !Closing(s'.mode) && s.sink.dropped == [] && s'.sink.dropped == []
    requires forall i :: 0 <= i < |s.sink.closed| ==> s.sink.closed[i].writer.epoch < s.sink.epoch
    requires OnlyWriter(s.sink, s'.sink, t)
    requires RowsOpen(s'.sink.writers, t) == RowsOpen(s.sink.writers, t) + (if accepted then [row] else [])
    requires accepted ==> t in s'.sink.writers
    requires t in s'.sink.writers ==> s'.sink.writers[t].epoch == s.sink.epoch
    requires s'.placed == s.placed + if accepted then [Placed(t, row, s.sink.epoch)] else []
    ensures FileInv(s')
  {
    if accepted {
      PlacedAtSnoc(s.placed, Placed(t, row, s.sink.epoch));
    } else {
      assert s'.placed == s.placed;
    }
    hide PlacedAt;
    forall u, epoch | u != t || epoch != s.sink.epoch
      ensures PlacedAt(s'.placed, u, epoch) == PlacedAt(s.placed, u, epoch)
    {
    }
    assert PlacedAt(s'.placed, t, s.sink.epoch)
        == PlacedAt(s.placed, t, s.sink.epoch) + if accepted then [row] else [];
    WrittenClosed(s, s', t);
    WrittenOpen(s, s', t, row, accepted);
  }

  lemma WrittenClosed(s: State, s': State, t: EventType)
    requires ClosedFilled(s) && s'.sink.closed == s.sink.closed
    requires forall i :: 0 <= i < |s.sink.closed| ==> s.sink.closed[i].writer.epoch < s.sink.epoch
    requires forall u, epoch :: u != t || epoch != s.sink.epoch ==>
                                  PlacedAt(s'.placed, u, epoch) == PlacedAt(s.placed, u, epoch)
    ensures ClosedFilled(s')
  {
    hide PlacedAt;
    forall i | 0 <= i < |s'.sink.closed|
      ensures FileFilled(s', s'.sink.closed[i].eventType, s'.sink.closed[i].writer)
    {
      assert FileFilled(s, s.sink.closed[i].eventType, s.sink.closed[i].writer);
    }
  }

  lemma WrittenOpen(s: State, s': State, t: EventType, row: Row, accepted: bool)
    requires OpenFilled(s) && AllOpen(s) && OnlyWriter(s.sink, s'.sink, t)
    requires RowsOpen(s'.sink.writers, t) == RowsOpen(s.sink.writers, t) + (if accepted then [row] else [])
    requires accepted ==> t in s'.sink.writers
    requires t in s'.sink.writers ==> s'.sink.writers[t].epoch == s.sink.epoch
    requires forall u, epoch :: u != t || epoch != s.sink.epoch ==>
                                  PlacedAt(s'.placed, u, epoch) == PlacedAt(s.placed, u, epoch)
    requires PlacedAt(s'.placed, t, s.sink.epoch)
             == PlacedAt(s.placed, t, s.sink.epoch) + if accepted then [row] else []
    ensures OpenFilled(s') && AllOpen(s')
  {
    hide PlacedAt;
    assert t in s.sink.writers ==> FileFilled(s, t, s.sink.writers[t]);
    assert PlacedAt(s.placed, t, s.sink.epoch) == RowsOpen(s.sink.writers, t);
    forall u | u in s'.sink.writers
      ensures FileFilled(s', u, s'.sink.writers[u]) && s'.sink.writers[u].epoch == s'.sink.epoch
    {
      if u != t {
        assert FileFilled(s, u, s.sink.writers[u]);
      }
    }
  }

  // --- the rows ---

  lemma PlacedRowsSnoc(placed: seq<Placed>, p: Placed, u: EventType)
    ensures PlacedRows(placed + [p], u) == PlacedRows(placed, u) + if p.eventType == u then [p.row] else []
  {
    assert (placed + [p])[..|placed|] == placed;
  }

  // What a log adds to the rows of type u, in the sink and in the history.
  lemma StoreRows(s: State, log: Log, io: WriteIo, u: EventType)
    requires log.Complete() && !s.mode.Exited?
    ensures var s' := Store(s, log, io);
            var added := if LastLogUnstored(s'.mode) then [] else RowPart(u, log);
            && AllRows(s'.sink, u) == AllRows(s.sink, u) + added
            && PlacedRows(s'.placed, u) == PlacedRows(s.placed, u) + added
  {
    hide DecodeLog, Write, AllRows, PlacedRows, Names, Values, RowOf;
    if DecodeLog(log).Event? {
      var e := DecodeLog(log).event;
      var t, row := e.eventType, RowOf(log, e);
      WriteRows(s.sink, t, Names(e.columns), row, io, u);
      PlacedRowsSnoc(s.placed, Placed(t, row, s.sink.epoch), u);
    }
  }

  // A complete log goes through the rotation check and then to the sink.
  lemma NextOnLog(flush: u64, s: State, event: Event)
    requires event.LogArrived? && event.log.Complete()
    ensures var seen := s.(metrics := s.metrics.ObserveLog());
            var rotated := RotateIfDue(flush, seen, event.log.blockNumber.value, event.rotateIo);
            Next(flush, s, event) == if rotated.mode.Exited? then rotated else Store(rotated, event.log, event.writeIo)
  {
    hide RotateIfDue, Store;
  }

  lemma OnLogRows(flush: u64, s: State, log: Log, rotateIo: CloseIo, writeIo: WriteIo, u: EventType)
    requires Running(flush, s)
    ensures var s' := OnLog(flush, s, log, rotateIo, writeIo);
            var added := if LastLogUnstored(s'.mode) then [] else RowPart(u, log);
            && AllRows(s'.sink, u) == AllRows(s.sink, u) + added
            && PlacedRows(s'.placed, u) == PlacedRows(s.placed, u) + added
  {
    hide DecodeLog, AllRows, PlacedRows, Names, Values, Store, RotateIfDue, SinkInv, SetInv, FileInv, RowPart;
    if log.Complete() {
      var seen := s.(metrics := s.metrics.ObserveLog());
      OnlyModeChanges(flush, s, seen);
      RotateRows(flush, seen, log.blockNumber.value, rotateIo, u);
      var rotated := RotateIfDue(flush, seen, log.blockNumber.value, rotateIo);
      if !rotated.mode.Exited? {
        StoreRows(rotated, log, writeIo, u);
      }
    } else {
      IncompletePart(u, log);
    }
  }

  lemma IncompletePart(u: EventType, log: Log)
    requires !log.Complete()
    ensures RowPart(u, log) == []
  {
    hide IsEvent;
  }

  lemma RotateRows(flush: u64, s: State, block: u64, io: CloseIo, u: EventType)
    requires Running(flush, s)
    ensures var s' := RotateIfDue(flush, s, block, io);
            && AllRows(s'.sink, u) == AllRows(s.sink, u)
            && s'.placed == s.placed
            && (s'.mode.Exited? ==> LastLogUnstored(s'.mode))
  {
    hide SinkInv, SetInv, FileInv, AllRows, Rotate, SaturatingAdd, RotateIfDue;
    RotateFiles(flush, s, block, io);
    RotateCases(flush, s, block, io);
  }

  lemma OnlyModeChanges(flush: u64, s: State, s': State)
    requires Running(flush, s) && !Closing(s'.mode)
    requires s'.sink == s.sink && s'.target == s.target && s'.openers == s.openers && s'.placed == s.placed
    ensures SinkInv(s') && SetInv(flush, s') && FileInv(s')
  {
    hide PlacedAt, FilesInOrder, Live, SchemasRight;
    assert forall t, w :: FileFilled(s, t, w) <==> FileFilled(s', t, w);
  }

  // --- all events ---

  ghost predicate Inv(flush: u64, events: seq<Event>, s: State) {
    SinkInv(s) && SetInv(flush, s) && FileInv(s) && RowInv(events, s)
  }

  lemma LogKeepsInv(flush: u64, s: State, log: Log, rotateIo: CloseIo, writeIo: WriteIo)
    requires Running(flush, s) && flush > 0
    ensures var s' := OnLog(flush, s, log, rotateIo, writeIo);
            SinkInv(s') && SetInv(flush, s') && FileInv(s')
    ensures OnLog(flush, s, log, rotateIo, writeIo).mode != Exited(WriteFailed(SchemaMismatch))
  {
    hide SinkInv, SetInv, FileInv, RotateIfDue, Store;
    if !log.Complete() {
      OnlyModeChanges(flush, s, s.(mode := Exited(MissingMetadata), metrics := s.metrics.Fail(0, 0, 1)));
    } else {
      var seen := s.(metrics := s.metrics.ObserveLog());
      OnlyModeChanges(flush, s, seen);
      var block := log.blockNumber.value;
      RotateSink(flush, seen, block, rotateIo);
      RotateSets(flush, seen, block, rotateIo);
      RotateFiles(flush, seen, block, rotateIo);
      var rotated := RotateIfDue(flush, seen, block, rotateIo);
      RotateCases(flush, seen, block, rotateIo);
      assert rotated.mode.Exited? ==> rotated.mode == Exited(RotateFailed);
      if !rotated.mode.Exited? {
        StoreSink(flush, rotated, log, writeIo);
        StoreSets(flush, rotated, log, writeIo);
        StoreFiles(flush, rotated, log, writeIo);
      }
    }
  }

  lemma InterruptSink(flush: u64, s: State, io: CloseIo)
    requires Running(flush, s)
    ensures SinkInv(OnInterrupt(s, true, io)) && SameRows(s.sink, OnInterrupt(s, true, io).sink)
  {
    assert SinkInv(s) && Live(s.sink) && SchemasRight(s.sink);
    CloseEndsRun(s.sink, io);
    var s' := OnInterrupt(s, true, io);
    assert s'.sink == Close(s.sink, io).0 && Closing(s'.mode);
    assert s'.mode.exit.Shutdown? <==> Close(s.sink, io).1;
    hide *;
    SinkInvFrom(s, s');
  }

  lemma InterruptSets(flush: u64, s: State, io: CloseIo)
    requires Running(flush, s)
    ensures SetInv(flush, OnInterrupt(s, true, io))
  {
    assert SetInv(flush, s) && Live(s.sink) && (s.openers == [] ==> s.sink == Empty());
    hide FilesInOrder, FileInv, SinkInv, Close, Live, SameRows, SetInv, Running;
    CloseEndsRun(s.sink, io);
    NothingToClose(io);
    SameSets(flush, s, OnInterrupt(s, true, io));
  }

  lemma InterruptFiles(flush: u64, s: State, io: CloseIo)
    requires Running(flush, s)
    ensures FileInv(OnInterrupt(s, true, io))
  {
    LiveMeans(s.sink);
    CloseEndsRun(s.sink, io);
    hide FilesInOrder, SinkInv, SetInv, Close, Live, SameRows, PlacedAt, SetNumber, FileInv;
    EmptiedFiles(s, OnInterrupt(s, true, io));
  }

  lemma InterruptKeepsInv(flush: u64, s: State, signalOk: bool, io: CloseIo)
    requires Running(flush, s)
    ensures var s' := OnInterrupt(s, signalOk, io);
            SinkInv(s') && SetInv(flush, s') && FileInv(s') && SameRows(s.sink, s'.sink)
  {
    if signalOk {
      InterruptSink(flush, s, io);
      InterruptSets(flush, s, io);
      InterruptFiles(flush, s, io);
    } else {
      assert SameRows(s.sink, s.sink);
      OnlyModeChanges(flush, s, OnInterrupt(s, signalOk, io));
    }
    hide SinkInv, SetInv, FileInv, Close, SameRows;
  }

  lemma NothingToClose(io: CloseIo)
    ensures Close(Empty(), io) == (Empty(), true)
  {
    DrainNothing(Empty(), io.order, io.failing);
  }

  lemma {:induction false} DrainNothing(s: Sink, order: seq<EventType>, failing: set<EventType>)
    requires s.writers == map[]
    ensures Drain(s, order, failing) == (s, true)
    decreases |order|
  {
    if order != [] {
      DrainNothing(s, order[1..], failing);
    }
  }

  // Sink, sets, files and rows are as they should be in every state of every run.
  lemma {:induction false} RunInv(flush: u64, metricsEnabled: bool, events: seq<Event>)
    requires flush > 0 && IsRun(flush, metricsEnabled, events)
    ensures Inv(flush, events, Exec(flush, metricsEnabled, events))
    ensures Exec(flush, metricsEnabled, events).mode != Exited(WriteFailed(SchemaMismatch))
    decreases |events|
  {
    if events == [] {
      InitInv(flush, metricsEnabled);
    } else {
      hide *;
      ExecLast(flush, metricsEnabled, events);
      var before, event := events[..|events| - 1], events[|events| - 1];
      RunInv(flush, metricsEnabled, before);
      StepInv(flush, before, Exec(flush, metricsEnabled, before), event);
    }
  }

  // The invariants of a run that goes on.
  lemma RunIsRunning(flush: u64, metricsEnabled: bool, events: seq<Event>)
    requires flush > 0 && IsRun(flush, metricsEnabled, events)
    requires !Exec(flush, metricsEnabled, events).mode.Exited?
    ensures Running(flush, Exec(flush, metricsEnabled, events))
    ensures Live(Exec(flush, metricsEnabled, events).sink)
    ensures RowInv(events, Exec(flush, metricsEnabled, events))
  {
    RunInv(flush, metricsEnabled, events);
    hide Exec, IsRun, SetInv, FileInv, RowInv, FilesInOrder, Live, SchemasRight;
  }

  lemma InitInv(flush: u64, metricsEnabled: bool)
    ensures Inv(flush, [], Init(metricsEnabled))
  {
  }

  lemma LogStepInv(flush: u64, before: seq<Event>, s: State, event: Event)
    requires flush > 0 && Running(flush, s) && RowInv(before, s) && event.LogArrived?
    ensures Inv(flush, before + [event], Next(flush, s, event))
    ensures Next(flush, s, event).mode != Exited(WriteFailed(SchemaMismatch))
  {
    hide SinkInv, SetInv, FileInv, RowInv, OnLog, Running;
    LogKeepsInv(flush, s, event.log, event.rotateIo, event.writeIo);
    LogKeepsRows(flush, before, s, event);
  }

  lemma InterruptStepInv(flush: u64, before: seq<Event>, s: State, event: Event)
    requires Running(flush, s) && RowInv(before, s) && event.Interrupt?
    ensures Inv(flush, before + [event], Next(flush, s, event))
    ensures Next(flush, s, event).mode != Exited(WriteFailed(SchemaMismatch))
  {
    hide SinkInv, SetInv, FileInv, RowInv, Close, SameRows;
    InterruptKeepsInv(flush, s, event.signalOk, event.closeIo);
    QuietRows(before, s, event, Next(flush, s, event));
  }

  lemma ConnectionStepInv(flush: u64, before: seq<Event>, s: State, event: Event)
    requires Running(flush, s) && RowInv(before, s) && !event.LogArrived? && !event.Interrupt?
    ensures Inv(flush, before + [event], Next(flush, s, event))
    ensures Next(flush, s, event).mode != Exited(WriteFailed(SchemaMismatch))
  {
    assert SameRows(s.sink, s.sink);
    hide SinkInv, SetInv, FileInv, RowInv, SameRows, ReconnectDelay;
    OnlyModeChanges(flush, s, Next(flush, s, event));
    QuietRows(before, s, event, Next(flush, s, event));
  }

  lemma StepInv(flush: u64, before: seq<Event>, s: State, event: Event)
    requires flush > 0 && Inv(flush, before, s) && CanHappen(s, event)
    ensures Inv(flush, before + [event], Next(flush, s, event))
    ensures Next(flush, s, event).mode != Exited(WriteFailed(SchemaMismatch))
  {
    hide SinkInv, SetInv, FileInv, RowInv, Next;
    if event.LogArrived? {
      LogStepInv(flush, before, s, event);
    } else if event.Interrupt? {
      InterruptStepInv(flush, before, s, event);
    } else {
      ConnectionStepInv(flush, before, s, event);
    }
  }

  // An event that is not a log changes no rows.
  lemma QuietRows(before: seq<Event>, s: State, event: Event, s': State)
    requires RowInv(before, s) && !s.mode.Exited? && !LastLogUnstored(s'.mode) && !event.LogArrived?
    requires SameRows(s.sink, s'.sink) && s'.placed == s.placed
    ensures RowInv(before + [event], s')
  {
    assert (before + [event])[..|before|] == before;
    assert Logs(before + [event]) == Logs(before);
    assert StoredLogs(s', before + [event]) == StoredLogs(s, before);
    hide AllRows, PlacedRows, RowsOf;
    forall t
      ensures AllRows(s'.sink, t) == PlacedRows(s'.placed, t)
      ensures PlacedRows(s'.placed, t) == RowsOf(t, StoredLogs(s', before + [event]))
    {
      assert AllRows(s'.sink, t) == AllRows(s.sink, t);
      assert AllRows(s.sink, t) == PlacedRows(s.placed, t);
    }
  }

  lemma LogIsStored(flush: u64, before: seq<Event>, s: State, event: Event)
    requires event.LogArrived? && Running(flush, s)
    ensures var s' := Next(flush, s, event);
            && s' == OnLog(flush, s, event.log, event.rotateIo, event.writeIo)
            && StoredLogs(s, before) == Logs(before)
            && StoredLogs(s', before + [event])
               == if LastLogUnstored(s'.mode) then Logs(before) else Logs(before) + [event.log]
  {
    hide OnLog, SinkInv, SetInv, FileInv;
    assert (before + [event])[..|before|] == before;
  }

  lemma LogKeepsRows(flush: u64, before: seq<Event>, s: State, event: Event)
    requires event.LogArrived? && Running(flush, s) && RowInv(before, s)
    ensures RowInv(before + [event], Next(flush, s, event))
  {
    hide OnLog, Next, StoredLogs, LastLogUnstored, AllRows, PlacedRows, RowsOf, RowPart, Running, Logs;
    LogIsStored(flush, before, s, event);
    var events := before + [event];
    var s' := Next(flush, s, event);
    forall t
      ensures AllRows(s'.sink, t) == PlacedRows(s'.placed, t)
      ensures PlacedRows(s'.placed, t) == RowsOf(t, StoredLogs(s', events))
    {
      OnLogRows(flush, s, event.log, event.rotateIo, event.writeIo, t);
      RowsOfSnoc(t, Logs(before), event.log);
      assert AllRows(s.sink, t) == PlacedRows(s.placed, t);
    }
  }
}
