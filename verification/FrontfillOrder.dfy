// Runs whose logs arrive in ascending block order: which rows share a file set.
module FrontfillOrder {
  import opened Base
  import opened Decode
  import opened Rows
  import opened Storage
  import opened Frontfill
  import opened FrontfillRuns
  import opened FrontfillResults

  // Each complete log is at or above the blocks of all earlier ones.
  predicate Ascending(events: seq<Event>) {
    events == []
    || (&& Ascending(events[..|events| - 1])
        && var last := events[|events| - 1];
           last.LogArrived? && last.log.Complete() ==> MaxBlock(events[..|events| - 1]) <= last.log.blockNumber.value)
  }

  // Openers and rows climb, each row is at or above the opener of its set, and
  // below the next opener unless it is at the last block number there is.
  ghost predicate OrderInv(s: State, max: u64) {
    && (forall i, j :: 0 <= i <= j < |s.openers| ==> s.openers[i] <= s.openers[j])
    && (forall i :: 0 <= i < |s.openers| ==> s.openers[i] <= max)
    && (forall i :: 0 <= i < |s.placed| ==>
                      s.placed[i].epoch < |s.openers|
                      && s.openers[s.placed[i].epoch] <= s.placed[i].row.blockNumber <= max)
    && (forall i, j :: 0 <= i < j < |s.placed| ==> s.placed[i].row.blockNumber <= s.placed[j].row.blockNumber)
    && (forall i :: 0 <= i < |s.placed| && s.placed[i].epoch + 1 < |s.openers| ==>
                      s.placed[i].row.blockNumber < s.openers[s.placed[i].epoch + 1]
                      || s.placed[i].row.blockNumber == U64_MAX)
    && (forall i, j :: 0 <= i < j < |s.placed|
                       && s.placed[i].row.blockNumber == s.placed[j].row.blockNumber == U64_MAX ==>
                         s.placed[i].epoch < s.placed[j].epoch)
  }

  // What the rotation check at a log of block b leaves behind.
  ghost predicate CheckedAt(s: State, b: u64) {
    && OrderInv(s, b)
    && (!s.mode.Exited? ==>
          && |s.openers| == s.sink.epoch + 1
          && s.openers[s.sink.epoch] <= b
          && forall i :: 0 <= i < |s.placed| && b == U64_MAX ==> s.placed[i].epoch < s.sink.epoch)
  }

  // OrderInv is about the history alone, and survives a larger bound.
  lemma SameHistory(s: State, s': State, max: u64, max': u64)
    requires OrderInv(s, max) && s'.openers == s.openers && s'.placed == s.placed && max <= max'
    ensures OrderInv(s', max')
  {
  }

  lemma AddOpener(s: State, s': State, max: u64, b: u64)
    requires OrderInv(s, max) && max <= b && s'.openers == s.openers + [b] && s'.placed == s.placed
    requires forall i :: 0 <= i < |s.placed| && s.placed[i].epoch + 1 == |s.openers| ==>
                           s.placed[i].row.blockNumber < b || s.placed[i].row.blockNumber == U64_MAX
    ensures OrderInv(s', b)
  {
  }

  // A rotation is due only when the block has passed every row of the set.
  lemma TargetAboveSet(flush: u64, s: State)
    requires SetInv(flush, s) && s.target.Some?
    ensures s.openers != [] && |s.openers| == s.sink.epoch + 1
    ensures forall i :: 0 <= i < |s.placed| && s.placed[i].epoch + 1 == |s.openers| ==>
                          s.placed[i].row.blockNumber < s.target.value || s.placed[i].row.blockNumber == U64_MAX
    ensures forall i :: 0 <= i < |s.placed| ==> s.placed[i].epoch <= s.sink.epoch
  {
  }

  lemma NoSetYet(flush: u64, s: State)
    requires SetInv(flush, s) && s.target.None?
    ensures s.openers == [] && s.placed == [] && s.sink.epoch == 0
  {
    hide OpenersClimbBy, RowsBelow, SetsClimb;
  }

  lemma OpenersAtMost(s: State, max: u64)
    requires OrderInv(s, max)
    ensures forall i :: 0 <= i < |s.openers| ==> s.openers[i] <= max
  {
  }

  lemma RotateKeepsOrder(flush: u64, s: State, b: u64, io: CloseIo, max: u64)
    requires !s.mode.Exited? && Live(s.sink) && SetInv(flush, s) && OrderInv(s, max) && max <= b
    ensures CheckedAt(RotateIfDue(flush, s, b, io), b)
  {
    hide RotateIfDue, Rotate, Live, SetInv, OrderInv, SaturatingAdd;
    var s' := RotateIfDue(flush, s, b, io);
    RotateCases(flush, s, b, io);
    RotateEpoch(s.sink, io);
    if s.target.None? {
      NoSetYet(flush, s);
      AddOpener(s, s', max, b);
    } else {
      TargetAboveSet(flush, s);
      OpenersAtMost(s, max);
      if b < s.target.value || !Rotate(s.sink, io).1 {
        SameHistory(s, s', max, b);
      } else {
        AddOpener(s, s', max, b);
      }
    }
  }

  lemma StoreKeepsOrder(s: State, log: Log, io: WriteIo)
    requires log.Complete() && !s.mode.Exited? && CheckedAt(s, log.blockNumber.value)
    ensures OrderInv(Store(s, log, io), log.blockNumber.value)
  {
    StorePlaces(s, log, io);
    hide Store, DecodeLog;
  }

  lemma NextKeepsOrder(flush: u64, s: State, event: Event, max: u64)
    requires flush > 0 && Running(flush, s) && OrderInv(s, max)
    requires event.LogArrived? && event.log.Complete() ==> max <= event.log.blockNumber.value
    ensures OrderInv(Next(flush, s, event),
                     if event.LogArrived? && event.log.Complete() then event.log.blockNumber.value else max)
  {
    if event.LogArrived? && event.log.Complete() {
      LogKeepsOrder(flush, s, event, max);
    } else {
      NextHistory(flush, s, event);
      hide Next, Running, OrderInv;
      SameHistory(s, Next(flush, s, event), max, max);
    }
  }

  lemma LogKeepsOrder(flush: u64, s: State, event: Event, max: u64)
    requires Running(flush, s) && OrderInv(s, max)
    requires event.LogArrived? && event.log.Complete() && max <= event.log.blockNumber.value
    ensures OrderInv(Next(flush, s, event), event.log.blockNumber.value)
  {
    var b := event.log.blockNumber.value;
    var seen := s.(metrics := s.metrics.ObserveLog());
    SeenIsRunning(flush, s);
    hide *;
    NextOnLog(flush, s, event);
    SameHistory(s, seen, max, max);
    RotateKeepsOrder(flush, seen, b, event.rotateIo, max);
    var rotated := RotateIfDue(flush, seen, b, event.rotateIo);
    CheckedIsOrdered(rotated, b);
    if !rotated.mode.Exited? {
      StoreKeepsOrder(rotated, event.log, event.writeIo);
    }
  }

  lemma SeenIsRunning(flush: u64, s: State)
    requires Running(flush, s)
    ensures var seen := s.(metrics := s.metrics.ObserveLog());
            && !seen.mode.Exited? && Live(seen.sink) && SetInv(flush, seen)
            && seen.openers == s.openers && seen.placed == s.placed
  {
    hide FilesInOrder, FileInv;
  }

  lemma CheckedIsOrdered(s: State, b: u64)
    requires CheckedAt(s, b)
    ensures OrderInv(s, b)
  {
  }

  lemma NextHistory(flush: u64, s: State, event: Event)
    requires !(event.LogArrived? && event.log.Complete())
    ensures Next(flush, s, event).openers == s.openers && Next(flush, s, event).placed == s.placed
  {
    hide Close, ReconnectDelay;
  }

  lemma {:induction false} RunKeepsOrder(flush: u64, metricsEnabled: bool, events: seq<Event>)
    requires flush > 0 && IsRun(flush, metricsEnabled, events) && Ascending(events)
    ensures OrderInv(Exec(flush, metricsEnabled, events), MaxBlock(events))
    decreases |events|
  {
    if events != [] {
      var before, event := events[..|events| - 1], events[|events| - 1];
      ExecLast(flush, metricsEnabled, events);
      RunKeepsOrder(flush, metricsEnabled, before);
      RunInv(flush, metricsEnabled, before);
      hide Exec, IsRun, OrderInv, Next, SinkInv, SetInv, FileInv, RowInv;
      NextKeepsOrder(flush, Exec(flush, metricsEnabled, before), event, MaxBlock(before));
    }
  }

  // The rows of one block are all in one set, with one exception: rows at block
  // u64::MAX, where the rotation target saturates, are all in different sets.
  // Rows in different sets otherwise climb strictly with the set.
  lemma BlocksShareSets(flush: u64, metricsEnabled: bool, events: seq<Event>, i: nat, j: nat)
    requires flush > 0 && IsRun(flush, metricsEnabled, events) && Ascending(events)
    requires i < j < |Exec(flush, metricsEnabled, events).placed|
    ensures var placed := Exec(flush, metricsEnabled, events).placed;
            && (placed[i].row.blockNumber == placed[j].row.blockNumber ==>
                  (placed[i].epoch != placed[j].epoch <==> placed[i].row.blockNumber == U64_MAX))
            && (placed[i].epoch != placed[j].epoch ==>
                  placed[i].epoch < placed[j].epoch
                  && (placed[i].row.blockNumber < placed[j].row.blockNumber
                      || placed[i].row.blockNumber == placed[j].row.blockNumber == U64_MAX))
  {
    RunInv(flush, metricsEnabled, events);
    RunKeepsOrder(flush, metricsEnabled, events);
    hide Exec, IsRun, SinkInv, FileInv, RowInv;
    var s := Exec(flush, metricsEnabled, events);
    assert s.placed[i].epoch < s.placed[j].epoch ==>
        s.openers[s.placed[i].epoch + 1] <= s.openers[s.placed[j].epoch] <= s.placed[j].row.blockNumber;
  }

  // A block that is in two sets exists exactly if two rows are at block u64::MAX.
  lemma StraddlingExactly(flush: u64, metricsEnabled: bool, events: seq<Event>)
    requires flush > 0 && IsRun(flush, metricsEnabled, events) && Ascending(events)
    ensures var placed := Exec(flush, metricsEnabled, events).placed;
            (exists i, j :: 0 <= i < j < |placed| && placed[i].row.blockNumber == placed[j].row.blockNumber
                            && placed[i].epoch != placed[j].epoch)
            <==> exists i, j :: 0 <= i < j < |placed|
                                && placed[i].row.blockNumber == placed[j].row.blockNumber == U64_MAX
  {
    var placed := Exec(flush, metricsEnabled, events).placed;
    hide Exec, IsRun;
    forall i, j | 0 <= i < j < |placed| && placed[i].row.blockNumber == placed[j].row.blockNumber
      ensures placed[i].epoch != placed[j].epoch <==> placed[i].row.blockNumber == U64_MAX
    {
      BlocksShareSets(flush, metricsEnabled, events, i, j);
    }
  }

  // The same said of files: the rows of an earlier set are below those of a
  // later one, unless both are at block u64::MAX.
  lemma SetsHoldDisjointBlocks(flush: u64, metricsEnabled: bool, events: seq<Event>,
                               t: EventType, w: Writer, t': EventType, w': Writer, r: Row, r': Row)
    requires flush > 0 && IsRun(flush, metricsEnabled, events) && Ascending(events)
    requires HasFile(Exec(flush, metricsEnabled, events).sink, t, w) && r in w.rows
    requires HasFile(Exec(flush, metricsEnabled, events).sink, t', w') && r' in w'.rows
    requires w.epoch < w'.epoch
    ensures r.blockNumber < r'.blockNumber || r.blockNumber == r'.blockNumber == U64_MAX
  {
    var i := RowIsPlaced(flush, metricsEnabled, events, t, w, r);
    var j := RowIsPlaced(flush, metricsEnabled, events, t', w', r');
    hide *;
    if i < j {
      BlocksShareSets(flush, metricsEnabled, events, i, j);
    } else if j < i {
      BlocksShareSets(flush, metricsEnabled, events, j, i);
    }
  }

  lemma RowIsPlaced(flush: u64, metricsEnabled: bool, events: seq<Event>, t: EventType, w: Writer, r: Row)
    returns (i: nat)
    requires flush > 0 && IsRun(flush, metricsEnabled, events)
    requires HasFile(Exec(flush, metricsEnabled, events).sink, t, w) && r in w.rows
    ensures i < |Exec(flush, metricsEnabled, events).placed|
    ensures Exec(flush, metricsEnabled, events).placed[i] == Placed(t, r, w.epoch)
  {
    hide *;
    FilesHoldTheirSet(flush, metricsEnabled, events, t, w);
    var placed := Exec(flush, metricsEnabled, events).placed;
    PlacedAtMember(placed, t, w.epoch, r);
    i :| 0 <= i < |placed| && placed[i] == Placed(t, r, w.epoch);
  }

  lemma ExtendRun(flush: u64, metricsEnabled: bool, events: seq<Event>, event: Event)
    requires IsRun(flush, metricsEnabled, events) && CanHappen(Exec(flush, metricsEnabled, events), event)
    ensures IsRun(flush, metricsEnabled, events + [event])
    ensures Exec(flush, metricsEnabled, events + [event]) == Next(flush, Exec(flush, metricsEnabled, events), event)
  {
    hide Next, CanHappen;
    assert (events + [event])[..|events|] == events;
  }

  lemma NothingFails(s: Sink, order: HashOrder)
    requires Live(s)
    ensures Rotate(s, CloseIo(order, {})).1
  {
    CloseCorrect(s, CloseIo(order, {}));
    hide Close, FilesInOrder, Live, SameRows;
  }

  lemma SoundStore(flush: u64, s: State, log: Log)
    requires SinkInv(s) && log.Complete() && DecodeLog(log).Event?
    ensures var s' := Store(s, log, Sound);
            && s'.mode == s.mode && s'.openers == s.openers && s'.target == s.target
            && s'.placed
               == s.placed + [Placed(DecodeLog(log).event.eventType, RowOf(log, DecodeLog(log).event), s.sink.epoch)]
            && s'.sink.epoch == s.sink.epoch
  {
    var e := DecodeLog(log).event;
    NoMismatch(s.sink, log, RowOf(log, e), Sound);
    WriteKeepsFiles(s.sink, e.eventType, Names(e.columns), RowOf(log, e), Sound);
    assert Write(s.sink, e.eventType, Names(e.columns), RowOf(log, e), Sound).1.Accepted? by {
      hide DecodeLog, Names, RowOf, ExpectedSchema;
    }
    hide DecodeLog, Write, Names, Values, RowOf, SinkInv;
  }

  // A decodable log at the last block number opens a set whenever it arrives.
  lemma ArrivesAtMax(flush: u64, s: State, log: Log, order: HashOrder)
    requires flush > 0 && Running(flush, s) && s.mode.Streaming? && (s.target.None? || s.target == Some(U64_MAX))
    requires log.Complete() && log.blockNumber.value == U64_MAX && DecodeLog(log).Event?
    ensures var s' := Next(flush, s, LogArrived(log, CloseIo(order, {}), Sound));
            var epoch := if s.target.None? then s.sink.epoch else s.sink.epoch + 1;
            && s'.mode == Streaming && s'.target == Some(U64_MAX) && s'.openers == s.openers + [U64_MAX]
            && s'.sink.epoch == epoch
            && s'.placed == s.placed + [Placed(DecodeLog(log).event.eventType, RowOf(log, DecodeLog(log).event), epoch)]
  {
    hide DecodeLog, Rotate, Store, RotateIfDue, SinkInv, SetInv, FileInv, RowOf;
    var io := CloseIo(order, {});
    var seen := s.(metrics := s.metrics.ObserveLog());
    NextOnLog(flush, s, LogArrived(log, io, Sound));
    OnlyModeChanges(flush, s, seen);
    assert Live(s.sink) by { LiveSink(s); }
    NothingFails(s.sink, order);
    RotateEpoch(s.sink, io);
    RotateCases(flush, seen, U64_MAX, io);
    RotateSink(flush, seen, U64_MAX, io);
    SoundStore(flush, RotateIfDue(flush, seen, U64_MAX, io), log);
  }

  lemma LiveSink(s: State)
    requires SinkInv(s) && !s.mode.Exited?
    ensures Live(s.sink)
  {
  }

  // The exception is real: two logs at block u64::MAX, with nothing failing, are
  // stored in two sets, the second of which was opened at the block of the first.
  lemma MaxBlockStraddles(flush: u64, metricsEnabled: bool, log: Log, order: HashOrder)
    requires flush > 0 && log.Complete() && log.blockNumber.value == U64_MAX && DecodeLog(log).Event?
    ensures var arrival := LogArrived(log, CloseIo(order, {}), Sound);
            var events := [Subscribed, arrival, arrival];
            && IsRun(flush, metricsEnabled, events) && Ascending(events)
            && var s := Exec(flush, metricsEnabled, events);
               && s.openers == [U64_MAX, U64_MAX] && s.sink.epoch == 1
               && |s.placed| == 2 && s.placed[0].row == s.placed[1].row
               && s.placed[0].epoch == 0 && s.placed[1].epoch == 1
  {
    var arrival := LogArrived(log, CloseIo(order, {}), Sound);
    var one := [Subscribed];
    Begins(flush, metricsEnabled);
    hide DecodeLog, Exec, IsRun, Next, RowOf, MaxBlock;
    RunIsRunning(flush, metricsEnabled, one);
    ArrivesAtMax(flush, Exec(flush, metricsEnabled, one), log, order);
    ExtendRun(flush, metricsEnabled, one, arrival);
    var two := one + [arrival];
    RunIsRunning(flush, metricsEnabled, two);
    ArrivesAtMax(flush, Exec(flush, metricsEnabled, two), log, order);
    ExtendRun(flush, metricsEnabled, two, arrival);
    assert two + [arrival] == [Subscribed, arrival, arrival];
    assert two[..1] == one && (two + [arrival])[..2] == two && one[..0] == [];
    assert Ascending([]) && Ascending(one) && Ascending(two);
  }

  lemma Begins(flush: u64, metricsEnabled: bool)
    ensures IsRun(flush, metricsEnabled, [Subscribed])
    ensures var s := Exec(flush, metricsEnabled, [Subscribed]);
            s.mode == Streaming && s.target == None && s.openers == [] && s.placed == [] && s.sink.epoch == 0
  {
    assert IsRun(flush, metricsEnabled, []) && Exec(flush, metricsEnabled, []) == Init(metricsEnabled);
    ExtendRun(flush, metricsEnabled, [], Subscribed);
    assert [] + [Subscribed] == [Subscribed];
  }
}
