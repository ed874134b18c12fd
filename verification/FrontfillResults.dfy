// What holds of every run of `frontfill::run`: rows, files, sets, exits.
module FrontfillResults {
  import opened Base
  import opened Decode
  import opened Rows
  import opened Storage
  import opened Frontfill
  import opened FrontfillRuns

  // --- rows ---

  // While a run goes on, across any number of reconnects and rotations, the
  // files of a type in closing order, followed by its open writer, hold the rows
  // of the arrived logs of that type, in arrival order.
  lemma RunningKeepsEveryRow(flush: u64, metricsEnabled: bool, events: seq<Event>, t: EventType)
    requires flush > 0 && IsRun(flush, metricsEnabled, events)
    requires !Exec(flush, metricsEnabled, events).mode.Exited?
    ensures var sink := Exec(flush, metricsEnabled, events).sink;
            RowsInFiles(sink.closed, t) + RowsOpen(sink.writers, t) == RowsOf(t, Logs(events))
  {
    RunInv(flush, metricsEnabled, events);
    var s := Exec(flush, metricsEnabled, events);
    hide Exec, IsRun, RowsOf, RowsInFiles, SetInv, FileInv, PlacedRows;
    LiveMeans(s.sink);
    assert AllRows(s.sink, t) == PlacedRows(s.placed, t);
  }

  // After a successful Ctrl-C all of them are in closed files.
  lemma ShutdownKeepsEveryRow(flush: u64, metricsEnabled: bool, events: seq<Event>, t: EventType)
    requires flush > 0 && IsRun(flush, metricsEnabled, events)
    requires Exec(flush, metricsEnabled, events).mode == Exited(Shutdown)
    ensures var sink := Exec(flush, metricsEnabled, events).sink;
            && sink.writers == map[] && sink.dropped == []
            && RowsInFiles(sink.closed, t) == RowsOf(t, Logs(events))
  {
    hide *;
    RunInv(flush, metricsEnabled, events);
    InvParts(flush, events, Exec(flush, metricsEnabled, events));
    ClosedRows(events, Exec(flush, metricsEnabled, events), t);
  }

  lemma InvParts(flush: u64, events: seq<Event>, s: State)
    requires Inv(flush, events, s)
    ensures SinkInv(s) && SetInv(flush, s) && FileInv(s) && RowInv(events, s)
  {
    hide SinkInv, SetInv, FileInv, RowInv;
  }

  lemma ClosedRows(events: seq<Event>, s: State, t: EventType)
    requires SinkInv(s) && RowInv(events, s) && s.mode == Exited(Shutdown)
    ensures s.sink.writers == map[] && s.sink.dropped == []
    ensures RowsInFiles(s.sink.closed, t) == RowsOf(t, Logs(events))
  {
    hide RowsOf, RowsInFiles, PlacedRows, FilesInOrder, Live, SchemasRight, DroppedApart, SetNumber, Logs;
    assert AllRows(s.sink, t) == PlacedRows(s.placed, t);
  }

  // On every other exit the accepted rows are those of all logs before the end,
  // the log that failed to rotate or to be written apart, and each of them is in
  // a closed file, in an open writer or in a writer that a failing close dropped.
  lemma ExitsKeepAcceptedRows(flush: u64, metricsEnabled: bool, events: seq<Event>, t: EventType)
    requires flush > 0 && IsRun(flush, metricsEnabled, events)
    ensures var s := Exec(flush, metricsEnabled, events);
            && PlacedRows(s.placed, t) == RowsOf(t, StoredLogs(s, events))
            && RowsInFiles(s.sink.closed, t) + RowsDropped(s.sink.dropped, t) + RowsOpen(s.sink.writers, t)
               == RowsOf(t, StoredLogs(s, events))
  {
    RunInv(flush, metricsEnabled, events);
    var s := Exec(flush, metricsEnabled, events);
    hide Exec, IsRun, RowsOf, RowsInFiles, SetInv, FileInv, PlacedRows, SinkInv;
    assert AllRows(s.sink, t) == PlacedRows(s.placed, t);
  }

  // --- files ---

  // All files that a sink state knows of: closed, open and dropped.
  ghost predicate HasFile(s: Sink, t: EventType, w: Writer) {
    || SinkFile(t, w) in s.closed
    || (t in s.writers && s.writers[t] == w)
    || exists k :: 0 <= k < |s.dropped| && t in s.dropped[k] && s.dropped[k][t] == w
  }

  lemma FileIsFilled(s: State, t: EventType, w: Writer)
    requires SinkInv(s) && FileInv(s) && HasFile(s.sink, t, w)
    ensures w.rows == PlacedAt(s.placed, t, w.epoch)
    ensures SinkFile(t, w) in s.sink.closed || w.epoch == s.sink.epoch
  {
    hide PlacedAt, FilesInOrder, Live, SchemasRight;
    assert FileFilled(s, t, w);
  }

  lemma {:induction false} PlacedAtMember(placed: seq<Placed>, t: EventType, epoch: nat, r: Row)
    requires r in PlacedAt(placed, t, epoch)
    ensures exists i :: 0 <= i < |placed| && placed[i] == Placed(t, r, epoch)
  {
    var last := |placed| - 1;
    if placed[last] != Placed(t, r, epoch) {
      PlacedAtMember(placed[..last], t, epoch, r);
      var i :| 0 <= i < last && placed[..last][i] == Placed(t, r, epoch);
      assert placed[i] == Placed(t, r, epoch);
    }
  }

  // Each file of the run, however the run ends, holds exactly the rows accepted
  // for its type in its set; each such row is below the block that opened the
  // set plus flush_blocks, even with blocks out of order and across reconnects.
  lemma FilesHoldTheirSet(flush: u64, metricsEnabled: bool, events: seq<Event>, t: EventType, w: Writer)
    requires flush > 0 && IsRun(flush, metricsEnabled, events)
    requires HasFile(Exec(flush, metricsEnabled, events).sink, t, w)
    ensures var s := Exec(flush, metricsEnabled, events);
            && w.rows == PlacedAt(s.placed, t, w.epoch)
            && forall r :: r in w.rows ==> w.epoch < |s.openers| && r.blockNumber < s.openers[w.epoch] + flush
  {
    RunInv(flush, metricsEnabled, events);
    var s := Exec(flush, metricsEnabled, events);
    hide Exec, IsRun, RowInv;
    FileIsFilled(s, t, w);
    hide SinkInv, FileInv, PlacedAt;
    forall r | r in w.rows
      ensures w.epoch < |s.openers| && r.blockNumber < s.openers[w.epoch] + flush
    {
      PlacedAtMember(s.placed, t, w.epoch, r);
    }
  }

  // What is not in a closed file when a run ends, in whatever way, belongs to the
  // current set, and so is below its opener plus flush_blocks.
  lemma UnclosedRowsAreOfTheCurrentSet(flush: u64, metricsEnabled: bool, events: seq<Event>, t: EventType, w: Writer)
    requires flush > 0 && IsRun(flush, metricsEnabled, events)
    requires HasFile(Exec(flush, metricsEnabled, events).sink, t, w)
    requires SinkFile(t, w) !in Exec(flush, metricsEnabled, events).sink.closed
    ensures var s := Exec(flush, metricsEnabled, events);
            && w.epoch == s.sink.epoch
            && forall r :: r in w.rows ==>
                             s.openers != [] && r.blockNumber < s.openers[|s.openers| - 1] + flush
  {
    RunInv(flush, metricsEnabled, events);
    FilesHoldTheirSet(flush, metricsEnabled, events, t, w);
    var s := Exec(flush, metricsEnabled, events);
    hide Exec, IsRun, RowInv;
    FileIsFilled(s, t, w);
    hide SinkInv, FileInv;
  }

  // All files of a type have the specified columns, so the schema of a type
  // never changes over the rotations of a run.
  lemma FilesHaveTheirSchema(flush: u64, metricsEnabled: bool, events: seq<Event>, f: SinkFile)
    requires flush > 0 && IsRun(flush, metricsEnabled, events)
    requires f in Exec(flush, metricsEnabled, events).sink.closed
    ensures f.writer.schema == [EventTypeName, BlockNumber, TransactionHash, LogIndex] + ColumnNames(f.eventType)
  {
    RunInv(flush, metricsEnabled, events);
    var s := Exec(flush, metricsEnabled, events);
    hide Exec, IsRun, RowInv, SetInv, FileInv, Live, ColumnNames;
    var i :| 0 <= i < |s.sink.closed| && s.sink.closed[i] == f;
    assert FileOk(s.sink, f);
  }

  // The "schema mismatch" error cannot happen in a run.
  lemma SchemaMismatchUnreachable(flush: u64, metricsEnabled: bool, events: seq<Event>)
    requires flush > 0 && IsRun(flush, metricsEnabled, events)
    ensures Exec(flush, metricsEnabled, events).mode != Exited(WriteFailed(SchemaMismatch))
  {
    RunInv(flush, metricsEnabled, events);
  }

  // No two files of a type share a set, whether closed, open or dropped; files
  // of a type are closed in ascending set order; and below 2^64 rotations the
  // number in the file name is the set.
  lemma OneFilePerTypeAndSet(flush: u64, metricsEnabled: bool, events: seq<Event>)
    requires flush > 0 && IsRun(flush, metricsEnabled, events)
    ensures var sink := Exec(flush, metricsEnabled, events).sink;
            && (forall i, j :: 0 <= i < j < |sink.closed| && sink.closed[i].eventType == sink.closed[j].eventType ==>
                                 sink.closed[i].writer.epoch < sink.closed[j].writer.epoch)
            && (forall i, t :: 0 <= i < |sink.closed| && t in sink.writers && sink.closed[i].eventType == t ==>
                                 sink.closed[i].writer.epoch < sink.writers[t].epoch)
            && (forall i, k, t :: 0 <= i < |sink.closed| && 0 <= k < |sink.dropped| && t in sink.dropped[k]
                                  && sink.closed[i].eventType == t ==>
                                    sink.closed[i].writer.epoch < sink.dropped[k][t].epoch)
            && (sink.epoch <= U64_MAX ==>
                  forall i :: 0 <= i < |sink.closed| ==> sink.closed[i].writer.setId == sink.closed[i].writer.epoch)
  {
    RunInv(flush, metricsEnabled, events);
    var s := Exec(flush, metricsEnabled, events);
    hide Exec, IsRun, RowInv, SetInv, SchemasRight, FileFilled;
    forall i | 0 <= i < |s.sink.closed| ensures FileOk(s.sink, s.sink.closed[i]) {
    }
  }

  // --- sets ---

  // The gap between successive openers is at least flush_blocks exactly when the
  // rotation target had not saturated, which is a matter of the first of the two.
  lemma OpenersApart(flush: u64, metricsEnabled: bool, events: seq<Event>, i: nat)
    requires flush > 0 && IsRun(flush, metricsEnabled, events)
    requires i + 1 < |Exec(flush, metricsEnabled, events).openers|
    ensures var openers := Exec(flush, metricsEnabled, events).openers;
            && openers[i] <= openers[i + 1]
            && (openers[i] + flush <= openers[i + 1] <==> openers[i] + flush <= U64_MAX)
  {
    RunInv(flush, metricsEnabled, events);
    hide Exec, IsRun, RowInv, FileInv, SinkInv;
    var openers := Exec(flush, metricsEnabled, events).openers;
    assert SaturatingAdd(openers[i], flush) <= openers[i + 1];
  }

  // Blocks of the complete logs: the first one and the largest one.
  function FirstBlock(events: seq<Event>): Option<u64> {
    if events == [] then None
    else
      var before := FirstBlock(events[..|events| - 1]);
      var last := events[|events| - 1];
      if before.None? && last.LogArrived? && last.log.Complete() then last.log.blockNumber else before
  }

  function MaxBlock(events: seq<Event>): u64 {
    if events == [] then 0
    else
      var before := MaxBlock(events[..|events| - 1]);
      var last := events[|events| - 1];
      if last.LogArrived? && last.log.Complete() && last.log.blockNumber.value > before
      then last.log.blockNumber.value else before
  }

  predicate IsBlock(events: seq<Event>, block: u64) {
    exists event :: event in events && event.LogArrived? && event.log.Complete() && event.log.blockNumber.value == block
  }

  lemma IsBlockSnoc(before: seq<Event>, event: Event)
    ensures forall block :: IsBlock(before, block) ==> IsBlock(before + [event], block)
    ensures event.LogArrived? && event.log.Complete() ==> IsBlock(before + [event], event.log.blockNumber.value)
  {
    forall block | IsBlock(before, block) ensures IsBlock(before + [event], block) {
      var e :| e in before && e.LogArrived? && e.log.Complete() && e.log.blockNumber.value == block;
      assert e in before + [event];
    }
    if event.LogArrived? && event.log.Complete() {
      assert event in before + [event];
    }
  }

  // Every opener is the block of a complete log, the first opener the first one.
  lemma {:induction false} OpenersAreBlocks(flush: u64, metricsEnabled: bool, events: seq<Event>)
    requires IsRun(flush, metricsEnabled, events)
    ensures var openers := Exec(flush, metricsEnabled, events).openers;
            && (forall i :: 0 <= i < |openers| ==> IsBlock(events, openers[i]) && openers[i] <= MaxBlock(events))
            && (if openers == [] then FirstBlock(events).None? else FirstBlock(events) == Some(openers[0]))
            && (openers == [] <==> Exec(flush, metricsEnabled, events).target.None?)
    decreases |events|
  {
    if events != [] {
      var before, event := events[..|events| - 1], events[|events| - 1];
      hide Exec, IsRun, Next, IsBlock;
      ExecLast(flush, metricsEnabled, events);
      OpenersAreBlocks(flush, metricsEnabled, before);
      NextOpeners(flush, Exec(flush, metricsEnabled, before), event);
      IsBlockSnoc(before, event);
    }
  }

  // Which openers an event adds.
  lemma NextOpeners(flush: u64, s: State, event: Event)
    ensures var s' := Next(flush, s, event);
            if event.LogArrived? && event.log.Complete() then
              && s'.target.Some?
              && (s'.openers == s.openers || s'.openers == s.openers + [event.log.blockNumber.value])
              && (s.target.None? ==> s'.openers == s.openers + [event.log.blockNumber.value])
            else s'.openers == s.openers && s'.target == s.target
  {
    if event.LogArrived? && event.log.Complete() {
      var seen := s.(metrics := s.metrics.ObserveLog());
      RotateCases(flush, seen, event.log.blockNumber.value, event.rotateIo);
      hide RotateIfDue, DecodeLog, Write, Rotate, Names, Values;
    } else {
      hide OnInterrupt, ReconnectDelay;
      if event.Interrupt? {
        InterruptOpeners(s, event.signalOk, event.closeIo);
      }
    }
  }

  lemma InterruptOpeners(s: State, signalOk: bool, io: CloseIo)
    ensures OnInterrupt(s, signalOk, io).openers == s.openers && OnInterrupt(s, signalOk, io).target == s.target
  {
    hide Close;
  }

  // Complete logs at the last block number there is.
  predicate IsAtMax(event: Event) {
    event.LogArrived? && event.log.Complete() && event.log.blockNumber.value == U64_MAX
  }

  function AtMax(events: seq<Event>): nat {
    if events == [] then 0 else AtMax(events[..|events| - 1]) + if IsAtMax(events[|events| - 1]) then 1 else 0
  }

  function OpenersAtMax(openers: seq<u64>): nat {
    if openers == [] then 0
    else OpenersAtMax(openers[..|openers| - 1]) + if openers[|openers| - 1] == U64_MAX then 1 else 0
  }

  lemma OpenersAtMaxSnoc(openers: seq<u64>, block: u64)
    ensures OpenersAtMax(openers + [block]) == OpenersAtMax(openers) + if block == U64_MAX then 1 else 0
  {
    assert (openers + [block])[..|openers|] == openers;
  }

  // Each opener at the last block number is a log there.
  lemma {:induction false} OpenersAtMaxAreLogs(flush: u64, metricsEnabled: bool, events: seq<Event>)
    requires IsRun(flush, metricsEnabled, events)
    ensures OpenersAtMax(Exec(flush, metricsEnabled, events).openers) <= AtMax(events)
    decreases |events|
  {
    hide Exec, IsRun, Next, OpenersAtMax;
    if events == [] {
      NoOpeners(flush, metricsEnabled);
    } else {
      var before, event := events[..|events| - 1], events[|events| - 1];
      ExecLast(flush, metricsEnabled, events);
      OpenersAtMaxAreLogs(flush, metricsEnabled, before);
      var s := Exec(flush, metricsEnabled, before);
      NextOpeners(flush, s, event);
      if Next(flush, s, event).openers != s.openers {
        OpenersAtMaxSnoc(s.openers, event.log.blockNumber.value);
      }
    }
  }

  lemma NoOpeners(flush: u64, metricsEnabled: bool)
    ensures IsRun(flush, metricsEnabled, []) && OpenersAtMax(Exec(flush, metricsEnabled, []).openers) == 0
  {
  }

  // A gap of the openers is at least flush, or it ends at the last block number.
  lemma {:induction false} OpenersClimb(flush: u64, openers: seq<u64>, n: nat)
    requires n < |openers| && OpenersClimbBy(flush, openers)
    ensures openers[0] + n * flush <= openers[n] + OpenersAtMax(openers[..n + 1]) * flush
  {
    hide OpenersAtMax;
    if n == 0 {
      Product(0, OpenersAtMax(openers[..1]), flush);
    } else {
      OpenersClimb(flush, openers, n - 1);
      assert openers[..n + 1] == openers[..n] + [openers[n]];
      OpenersAtMaxSnoc(openers[..n], openers[n]);
      assert SaturatingAdd(openers[n - 1], flush) <= openers[n];
      hide OpenersClimbBy;
      Climbs(n, openers[0], openers[n - 1], openers[n], OpenersAtMax(openers[..n]), flush);
    }
  }

  lemma Climbs(n: nat, first: nat, last: nat, next: nat, count: nat, flush: nat)
    requires n > 0 && first + (n - 1) * flush <= last + count * flush
    ensures last + flush <= next ==> first + n * flush <= next + count * flush
    ensures last <= next ==> first + n * flush <= next + (count + 1) * flush
  {
    assert n * flush == (n - 1) * flush + flush;
    assert (count + 1) * flush == count * flush + flush;
  }

  // In every run rotations are bounded by the block span, but for one more for
  // each log at block u64::MAX.  So where there is none, the number of rotations
  // is at most the span divided by flush_blocks.
  lemma RotationsBounded(flush: u64, metricsEnabled: bool, events: seq<Event>)
    requires flush > 0 && IsRun(flush, metricsEnabled, events)
    ensures var s := Exec(flush, metricsEnabled, events);
            && (s.openers == [] ==> s.sink.epoch == 0)
            && (s.openers != [] ==>
                  && FirstBlock(events).Some?
                  && s.sink.epoch * flush <= MaxBlock(events) - FirstBlock(events).value + AtMax(events) * flush
                  && (AtMax(events) == 0 ==>
                        s.sink.epoch <= (MaxBlock(events) - FirstBlock(events).value) / flush))
  {
    hide Exec, IsRun, RowInv, FileInv, SinkInv, AtMax, OpenersAtMax, FirstBlock, MaxBlock, Inv, SetInv;
    RunInv(flush, metricsEnabled, events);
    OpenersAreBlocks(flush, metricsEnabled, events);
    OpenersAtMaxAreLogs(flush, metricsEnabled, events);
    var s := Exec(flush, metricsEnabled, events);
    InvParts(flush, events, s);
    OpenersOfSets(flush, s);
    if s.openers != [] {
      OpenersSpan(flush, s.openers, MaxBlock(events), AtMax(events));
    }
  }

  lemma OpenersOfSets(flush: u64, s: State)
    requires SetInv(flush, s)
    ensures OpenersClimbBy(flush, s.openers) && (s.openers == [] ==> s.sink.epoch == 0)
    ensures s.openers != [] ==> |s.openers| == s.sink.epoch + 1
  {
    hide OpenersClimbBy, RowsBelow, SetsClimb;
  }

  lemma OpenersSpan(flush: nat, openers: seq<u64>, max: u64, atMax: nat)
    requires 0 < flush <= U64_MAX && openers != [] && OpenersClimbBy(flush, openers)
    requires openers[|openers| - 1] <= max && OpenersAtMax(openers) <= atMax
    ensures (|openers| - 1) * flush <= max - openers[0] + atMax * flush
    ensures atMax == 0 ==> |openers| - 1 <= (max - openers[0]) / flush
  {
    hide OpenersAtMax, OpenersClimbBy;
    var n := |openers| - 1;
    OpenersClimb(flush, openers, n);
    assert openers[..n + 1] == openers;
    Product(OpenersAtMax(openers), atMax, flush);
    if atMax == 0 {
      Quotient(n, max - openers[0], flush);
    }
  }

  lemma Product(a: nat, b: nat, c: nat)
    requires a <= b
    ensures a * c <= b * c
  {
  }

  lemma Quotient(n: nat, span: int, flush: nat)
    requires flush > 0 && n * flush <= span
    ensures n <= span / flush
  {
    var q := span / flush;
    assert span == q * flush + span % flush;
    assert (q + 1) * flush == q * flush + flush;
    if q < n {
      Product(q + 1, n, flush);
    }
  }

  // A target of u64::MAX stays there, and from then on a log rotates exactly if
  // it is at that block; only the last of them can fail to.
  lemma {:induction false} MaxBlockAlwaysRotates(flush: u64, metricsEnabled: bool, before: seq<Event>, more: seq<Event>)
    requires IsRun(flush, metricsEnabled, before) && IsRun(flush, metricsEnabled, before + more)
    requires Exec(flush, metricsEnabled, before).target == Some(U64_MAX)
    requires !Exec(flush, metricsEnabled, before).mode.Exited?
    ensures var s, s' := Exec(flush, metricsEnabled, before), Exec(flush, metricsEnabled, before + more);
            && s'.target == Some(U64_MAX)
            && s.openers <= s'.openers
            && (forall i :: |s.openers| <= i < |s'.openers| ==> s'.openers[i] == U64_MAX)
            && |s'.openers| + (if s'.mode == Exited(RotateFailed) then 1 else 0) == |s.openers| + AtMax(more)
    decreases |more|
  {
    hide Exec, IsRun, Next, CanHappen, AtMax;
    if more == [] {
      NoneAtMax(more);
      assert before + more == before;
    } else {
      var n := |more| - 1;
      var events := before + more;
      assert events[..|events| - 1] == before + more[..n] && events[|events| - 1] == more[n];
      ExecLast(flush, metricsEnabled, events);
      MaxBlockAlwaysRotates(flush, metricsEnabled, before, more[..n]);
      OneMoreAtMax(flush, Exec(flush, metricsEnabled, before).openers, Exec(flush, metricsEnabled, before + more[..n]),
                   more[..n], more[n]);
      assert more == more[..n] + [more[n]];
    }
  }

  lemma NoneAtMax(more: seq<Event>)
    requires more == []
    ensures AtMax(more) == 0
  {
  }

  lemma OneMoreAtMax(flush: u64, openers: seq<u64>, s: State, more: seq<Event>, event: Event)
    requires s.target == Some(U64_MAX) && CanHappen(s, event)
    requires openers <= s.openers && forall i :: |openers| <= i < |s.openers| ==> s.openers[i] == U64_MAX
    requires |s.openers| + (if s.mode == Exited(RotateFailed) then 1 else 0) == |openers| + AtMax(more)
    ensures var s' := Next(flush, s, event);
            && s'.target == Some(U64_MAX)
            && openers <= s'.openers
            && (forall i :: |openers| <= i < |s'.openers| ==> s'.openers[i] == U64_MAX)
            && |s'.openers| + (if s'.mode == Exited(RotateFailed) then 1 else 0) == |openers| + AtMax(more + [event])
  {
    hide Next, CanHappen, IsAtMax;
    NextAtMax(flush, s, event);
    assert (more + [event])[..|more|] == more;
  }

  lemma NextAtMax(flush: u64, s: State, event: Event)
    requires s.target == Some(U64_MAX) && CanHappen(s, event)
    ensures var s' := Next(flush, s, event);
            && s'.target == Some(U64_MAX) && s.mode != Exited(RotateFailed)
            && s'.openers == (if IsAtMax(event) && s'.mode != Exited(RotateFailed) then s.openers + [U64_MAX]
                              else s.openers)
            && (s'.mode == Exited(RotateFailed) ==> IsAtMax(event))
  {
    if event.LogArrived? && event.log.Complete() {
      var block := event.log.blockNumber.value;
      var seen := s.(metrics := s.metrics.ObserveLog());
      var rotated := RotateIfDue(flush, seen, block, event.rotateIo);
      RotateCases(flush, seen, block, event.rotateIo);
      NextOnLog(flush, s, event);
      StoreKeepsTarget(rotated, event.log, event.writeIo);
      hide RotateIfDue, Rotate, Store, Next;
    } else {
      NextOpeners(flush, s, event);
      hide OnInterrupt, ReconnectDelay;
      if event.Interrupt? {
        InterruptExits(s, event.signalOk, event.closeIo);
      }
    }
  }

  lemma InterruptExits(s: State, signalOk: bool, io: CloseIo)
    ensures OnInterrupt(s, signalOk, io).mode.Exited? && OnInterrupt(s, signalOk, io).mode != Exited(RotateFailed)
  {
    hide Close;
  }

  lemma StoreKeepsTarget(s: State, log: Log, io: WriteIo)
    requires log.Complete()
    ensures Store(s, log, io).target == s.target && Store(s, log, io).openers == s.openers
    ensures !s.mode.Exited? ==> Store(s, log, io).mode != Exited(RotateFailed)
  {
    hide DecodeLog, Write, Names, Values, RowOf;
  }

  // --- durability ---

  lemma {:induction false} FilesPrefix(a: seq<SinkFile>, b: seq<SinkFile>, t: EventType)
    requires a <= b
    ensures RowsInFiles(a, t) <= RowsInFiles(b, t)
  {
    if |a| == |b| {
      assert a == b;
    } else {
      FilesPrefix(a, b[..|b| - 1], t);
    }
  }

  lemma ClosedFilesStay(flush: u64, s: State, event: Event)
    requires Running(flush, s)
    ensures s.sink.closed <= Next(flush, s, event).sink.closed
  {
    match event
    case LogArrived(log, rotateIo, writeIo) =>
      if log.Complete() {
        var seen := s.(metrics := s.metrics.ObserveLog());
        RotateCases(flush, seen, log.blockNumber.value, rotateIo);
        RotateCorrect(s.sink, rotateIo);
        var rotated := RotateIfDue(flush, seen, log.blockNumber.value, rotateIo);
        StoreKeepsClosed(rotated, log, writeIo);
      }
      hide RotateIfDue, Store, Rotate, Live, FilesInOrder, SameRows, DroppedApart, Running;
    case Interrupt(signalOk, closeIo) =>
      CloseEndsRun(s.sink, closeIo);
      hide Close, Live, FilesInOrder, SameRows, DroppedApart, Running;
    case _ =>
  }

  lemma StoreKeepsClosed(s: State, log: Log, io: WriteIo)
    requires log.Complete()
    ensures Store(s, log, io).sink.closed == s.sink.closed
  {
    if DecodeLog(log).Event? {
      var e := DecodeLog(log).event;
      WriteShape(s.sink, e.eventType, Names(e.columns), RowOf(log, e), io);
    }
    hide DecodeLog, Write, Names, Values;
  }

  lemma {:induction false} ClosedFilesStayForever(flush: u64, metricsEnabled: bool, events: seq<Event>, n: nat)
    requires flush > 0 && n <= |events| && IsRun(flush, metricsEnabled, events)
    ensures IsRun(flush, metricsEnabled, events[..n])
    ensures Exec(flush, metricsEnabled, events[..n]).sink.closed <= Exec(flush, metricsEnabled, events).sink.closed
    decreases |events|
  {
    if n == |events| {
      assert events[..n] == events;
    } else {
      hide Exec, IsRun;
      ExecLast(flush, metricsEnabled, events);
      var before, event := events[..|events| - 1], events[|events| - 1];
      ClosedFilesStayForever(flush, metricsEnabled, before, n);
      assert before[..n] == events[..n];
      RunInv(flush, metricsEnabled, before);
      ClosedFilesStay(flush, Exec(flush, metricsEnabled, before), event);
    }
  }

  // A completed rotation makes everything before it durable: if the n-th event
  // rotated, then whatever happens later the rows of all earlier logs are in
  // closed files, ahead of all later rows.
  lemma RotationMakesDurable(flush: u64, metricsEnabled: bool, events: seq<Event>, n: nat, t: EventType)
    requires flush > 0 && n < |events| && IsRun(flush, metricsEnabled, events)
    requires IsRun(flush, metricsEnabled, events[..n]) && IsRun(flush, metricsEnabled, events[..n + 1])
    requires Exec(flush, metricsEnabled, events[..n]).sink.epoch
             < Exec(flush, metricsEnabled, events[..n + 1]).sink.epoch
    ensures RowsOf(t, Logs(events[..n])) <= RowsInFiles(Exec(flush, metricsEnabled, events).sink.closed, t)
  {
    ClosedFilesStayForever(flush, metricsEnabled, events, n + 1);
    FilesPrefix(Exec(flush, metricsEnabled, events[..n + 1]).sink.closed,
                Exec(flush, metricsEnabled, events).sink.closed, t);
    PrefixStep(flush, metricsEnabled, events, n);
    RunInv(flush, metricsEnabled, events[..n]);
    var s := Exec(flush, metricsEnabled, events[..n]);
    hide Exec, IsRun, RowsOf, RowsInFiles;
    RotationClosesAll(flush, events[..n], s, events[n], t);
  }

  lemma RotationClosesAll(flush: u64, before: seq<Event>, s: State, event: Event, t: EventType)
    requires Inv(flush, before, s) && CanHappen(s, event) && s.sink.epoch < Next(flush, s, event).sink.epoch
    ensures RowsInFiles(Next(flush, s, event).sink.closed, t) == RowsOf(t, Logs(before))
  {
    var s' := Next(flush, s, event);
    assert Running(flush, s);
    match event
    case LogArrived(log, rotateIo, writeIo) =>
      var seen := s.(metrics := s.metrics.ObserveLog());
      EpochGrows(flush, s, log, rotateIo, writeIo);
      RotateCorrect(s.sink, rotateIo);
      var rotated := Rotate(s.sink, rotateIo).0;
      assert s'.sink.closed == rotated.closed;
      hide *;
      RotatedRows(before, s, rotated, t);
    case Interrupt(signalOk, closeIo) =>
      CloseEndsRun(s.sink, closeIo);
      hide Close, Live, FilesInOrder, SameRows, DroppedApart, Running, Inv, HandedOver;
      assert false;
    case _ =>
  }

  lemma EpochGrows(flush: u64, s: State, log: Log, rotateIo: CloseIo, writeIo: WriteIo)
    requires Running(flush, s) && s.sink.epoch < OnLog(flush, s, log, rotateIo, writeIo).sink.epoch
    ensures Rotate(s.sink, rotateIo).1
    ensures OnLog(flush, s, log, rotateIo, writeIo).sink.closed == Rotate(s.sink, rotateIo).0.closed
  {
    if log.Complete() {
      var seen := s.(metrics := s.metrics.ObserveLog());
      var rotated := RotateIfDue(flush, seen, log.blockNumber.value, rotateIo);
      RotateCases(flush, seen, log.blockNumber.value, rotateIo);
      RotateEpoch(s.sink, rotateIo);
      StoreKeepsClosed(rotated, log, writeIo);
      StoreKeepsEpoch(rotated, log, writeIo);
    }
    hide RotateIfDue, Store, Rotate, Live, FilesInOrder, SetInv, FileInv, SchemasRight;
  }

  lemma StoreKeepsEpoch(s: State, log: Log, io: WriteIo)
    requires log.Complete()
    ensures Store(s, log, io).sink.epoch == s.sink.epoch
  {
    if DecodeLog(log).Event? {
      var e := DecodeLog(log).event;
      WriteKeepsFiles(s.sink, e.eventType, Names(e.columns), RowOf(log, e), io);
    }
    hide DecodeLog, Write, Names, Values;
  }

  lemma RotatedRows(before: seq<Event>, s: State, rotated: Sink, t: EventType)
    requires RowInv(before, s) && !s.mode.Exited? && SameRows(s.sink, rotated)
    requires rotated.writers == map[] && rotated.dropped == []
    ensures RowsInFiles(rotated.closed, t) == RowsOf(t, Logs(before))
  {
    hide RowsInFiles, RowsOf, PlacedRows;
    assert AllRows(rotated, t) == AllRows(s.sink, t);
    assert AllRows(s.sink, t) == PlacedRows(s.placed, t);
  }
}
