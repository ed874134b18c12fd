// Which event ends a frontfill run how, and that metrics have no part in it.
module FrontfillExits {
  import opened Base
  import opened Decode
  import opened Rows
  import opened Storage
  import opened Frontfill
  import opened FrontfillRuns
  import opened FrontfillResults

  // Any event can come next, as long as the run goes on: the three connection
  // events while it connects, and all others while it listens.
  lemma RunsExtend(flush: u64, metricsEnabled: bool, events: seq<Event>, event: Event)
    ensures IsRun(flush, metricsEnabled, events + [event]) <==>
            && IsRun(flush, metricsEnabled, events)
            && Exec(flush, metricsEnabled, events).mode
               == if event.ConnectFailed? || event.SubscribeFailed? || event.Subscribed? then Connecting else Streaming
    ensures IsRun(flush, metricsEnabled, events + [event]) ==>
              Exec(flush, metricsEnabled, events + [event]) == Next(flush, Exec(flush, metricsEnabled, events), event)
  {
    hide Next;
    assert (events + [event])[..|events|] == events;
  }

  // --- the connection ---

  lemma DelayTable(attempt: u32)
    ensures ReconnectDelay(attempt) == (if attempt == 0 then 1 else if attempt == 1 then 2 else if attempt == 2 then 4
                                        else if attempt == 3 then 8 else if attempt == 4 then 16 else 32)
  {
    assert Shift(2) == 4 && Shift(3) == 8 && Shift(4) == 16 && Shift(5) == 32;
  }

  // A subscription makes the run listen and clears the attempts.  A failing
  // connection or subscription, or the end of a stream, makes it wait between 1 and
  // 32 seconds, doubling, and connect again; sink and target survive.
  lemma ConnectionExactly(flush: u64, metricsEnabled: bool, events: seq<Event>, event: Event)
    requires IsRun(flush, metricsEnabled, events + [event]) && !event.LogArrived? && !event.Interrupt?
    ensures IsRun(flush, metricsEnabled, events)
    ensures var s := Exec(flush, metricsEnabled, events);
            var s' := Exec(flush, metricsEnabled, events + [event]);
            && s'.sink == s.sink && s'.target == s.target
            && (if event.Subscribed? then s'.mode == Streaming && s'.attempt == 0 && s'.slept == s.slept
                else
                  && s'.mode == Connecting
                  && s'.attempt == (if s.attempt < 0xFFFF_FFFF then s.attempt + 1 else s.attempt)
                  && s'.slept == s.slept + if s.attempt == 0 then 1 else if s.attempt == 1 then 2
                                           else if s.attempt == 2 then 4 else if s.attempt == 3 then 8
                                           else if s.attempt == 4 then 16 else 32)
  {
    hide Exec, IsRun, Next, ReconnectDelay;
    RunsExtend(flush, metricsEnabled, events, event);
    NextConnection(flush, Exec(flush, metricsEnabled, events), event);
    DelayTable(Exec(flush, metricsEnabled, events).attempt);
  }

  // --- Ctrl-C ---

  lemma CloseSucceeds(s: Sink, io: CloseIo)
    requires Live(s)
    ensures Close(s, io).1 <==> s.writers.Keys * io.failing == {}
    ensures Rotate(s, io).1 <==> s.writers.Keys * io.failing == {}
    ensures Rotate(s, io).1 ==> Rotate(s, io).0.writers == map[]
  {
    CloseCorrect(s, io);
    hide Close, Live, FilesInOrder, SameRows;
  }

  lemma InterruptEnds(s: State, signalOk: bool, io: CloseIo)
    requires Live(s.sink)
    ensures var s' := OnInterrupt(s, signalOk, io);
            && (s'.mode == Exited(SignalError) <==> !signalOk)
            && (s'.mode == Exited(Shutdown) <==> signalOk && s.sink.writers.Keys * io.failing == {})
            && (s'.mode == Exited(CloseFailed) <==> signalOk && s.sink.writers.Keys * io.failing != {})
            && (!signalOk ==> s'.sink == s.sink)
            && (signalOk ==> s'.sink.writers == map[])
  {
    CloseSucceeds(s.sink, io);
    CloseEndsRun(s.sink, io);
    hide Close, Live, FilesInOrder, SameRows, DroppedApart;
  }

  // Ctrl-C while the run listens: it always ends the run.  It is a shutdown
  // exactly if the signal handler works and no open writer fails to close, and
  // then every row of every log is in a closed file.  Without a handler the sink is
  // left as it is; in all other cases no writer stays open.
  lemma InterruptExactly(flush: u64, metricsEnabled: bool, events: seq<Event>, signalOk: bool, io: CloseIo)
    requires flush > 0 && IsRun(flush, metricsEnabled, events)
    requires Exec(flush, metricsEnabled, events).mode == Streaming
    ensures var all := events + [Interrupt(signalOk, io)];
            && IsRun(flush, metricsEnabled, all)
            && var s, s' := Exec(flush, metricsEnabled, events), Exec(flush, metricsEnabled, all);
               && (s'.mode == Exited(SignalError) <==> !signalOk)
               && (s'.mode == Exited(Shutdown) <==> signalOk && s.sink.writers.Keys * io.failing == {})
               && (s'.mode == Exited(CloseFailed) <==> signalOk && s.sink.writers.Keys * io.failing != {})
               && (!signalOk ==> s'.sink == s.sink)
               && (signalOk ==> s'.sink.writers == map[])
               && (s'.mode == Exited(Shutdown) ==>
                     forall t :: RowsInFiles(s'.sink.closed, t) == RowsOf(t, Logs(events)))
  {
    var event := Interrupt(signalOk, io);
    var all := events + [event];
    RunsExtend(flush, metricsEnabled, events, event);
    RunIsRunning(flush, metricsEnabled, events);
    InterruptEnds(Exec(flush, metricsEnabled, events), signalOk, io);
    NotALog(events, event);
    hide Exec, IsRun, OnInterrupt, Live, RowsInFiles, RowsOf, Logs, Running;
    if Exec(flush, metricsEnabled, all).mode == Exited(Shutdown) {
      forall t ensures RowsInFiles(Exec(flush, metricsEnabled, all).sink.closed, t) == RowsOf(t, Logs(events)) {
        ShutdownKeepsEveryRow(flush, metricsEnabled, all, t);
      }
    }
  }

  lemma NotALog(events: seq<Event>, event: Event)
    requires !event.LogArrived?
    ensures Logs(events + [event]) == Logs(events)
  {
    assert (events + [event])[..|events|] == events;
  }

  // --- a log ---

  // A log at this block makes a rotation due.
  predicate Due(target: Option<u64>, block: u64) {
    target.Some? && target.value <= block
  }

  // The write of a decoded log fails: the directory or the file cannot be created,
  // where a file is needed, or the batch cannot be written.
  predicate WriteBreaks(s: State, log: Log, io: WriteIo)
    requires log.Complete() && DecodeLog(log).Event?
  {
    || io == DirectoryFails
    || io == AppendFails
    || (io == CreateFails
        && (Due(s.target, log.blockNumber.value) || DecodeLog(log).event.eventType !in s.sink.writers))
  }

  lemma RotateEnds(flush: u64, s: State, block: u64, io: CloseIo)
    requires Live(s.sink) && s.mode == Streaming
    ensures var s' := RotateIfDue(flush, s, block, io);
            var fails := Due(s.target, block) && s.sink.writers.Keys * io.failing != {};
            && s'.mode == (if fails then Exited(RotateFailed) else Streaming)
            && s'.target == (if !fails && (s.target.None? || Due(s.target, block))
                             then Some(if block + flush <= U64_MAX then block + flush else U64_MAX) else s.target)
            && s'.sink.epoch == s.sink.epoch + (if Due(s.target, block) && !fails then 1 else 0)
            && (!Due(s.target, block) ==> s'.sink == s.sink)
            && (Due(s.target, block) && !fails ==> s'.sink.writers == map[])
  {
    CloseSucceeds(s.sink, io);
    RotateEpoch(s.sink, io);
    RotateCases(flush, s, block, io);
    hide Rotate, RotateIfDue, Live;
  }

  lemma StoreEnds(s: State, log: Log, io: WriteIo)
    requires log.Complete() && s.mode == Streaming && SinkInv(s)
    ensures var s' := Store(s, log, io);
            && s'.target == s.target && s'.sink.epoch == s.sink.epoch
            && match DecodeLog(log)
               case NotAnEvent => s' == s
               case DecodeError => s'.mode == Exited(DecodeFailed) && s'.sink == s.sink
               case Event(e) =>
                 s'.mode == if io == DirectoryFails || io == AppendFails
                               || (io == CreateFails && e.eventType !in s.sink.writers)
                            then Exited(WriteFailed(IoError)) else Streaming
  {
    hide DecodeLog, Names, Values, RowOf, Live, FilesInOrder, Write;
    if DecodeLog(log).Event? {
      var e := DecodeLog(log).event;
      NoMismatch(s.sink, log, RowOf(log, e), io);
      WriteExactly(s.sink, e.eventType, Names(e.columns), RowOf(log, e), io);
    }
  }

  lemma LogEnds(flush: u64, s: State, log: Log, rotateIo: CloseIo, writeIo: WriteIo)
    requires flush > 0 && Running(flush, s) && s.mode == Streaming && log.Complete()
    ensures var s' := Next(flush, s, LogArrived(log, rotateIo, writeIo));
            var block := log.blockNumber.value;
            var fails := Due(s.target, block) && s.sink.writers.Keys * rotateIo.failing != {};
            && s'.mode == (if fails then Exited(RotateFailed)
                           else if DecodeLog(log).DecodeError? then Exited(DecodeFailed)
                           else if DecodeLog(log).Event? && WriteBreaks(s, log, writeIo)
                                then Exited(WriteFailed(IoError))
                           else Streaming)
            && s'.target == (if !fails && (s.target.None? || Due(s.target, block))
                             then Some(if block + flush <= U64_MAX then block + flush else U64_MAX) else s.target)
            && s'.sink.epoch == s.sink.epoch + (if Due(s.target, block) && !fails then 1 else 0)
  {
    var seen := s.(metrics := s.metrics.ObserveLog());
    var block := log.blockNumber.value;
    var rotated := RotateIfDue(flush, seen, block, rotateIo);
    assert Live(s.sink);
    hide DecodeLog, Store, RotateIfDue, Next, SinkInv, SetInv, FileInv, Live;
    OnlyModeChanges(flush, s, seen);
    NextOnLog(flush, s, LogArrived(log, rotateIo, writeIo));
    RotateEnds(flush, seen, block, rotateIo);
    RotateSink(flush, seen, block, rotateIo);
    if rotated.mode == Streaming {
      StoreEnds(rotated, log, writeIo);
    }
  }

  // A log while the run listens.  It ends the run exactly if its metadata is
  // missing, or a rotation is due and an open writer fails to close, or it fails
  // to decode, or it is an event and its write fails, in this order.  The first
  // complete log, and each one that rotates, sets the target; a log rotates exactly
  // if it has reached the target, whether or not it is an event.
  lemma LogExactly(flush: u64, metricsEnabled: bool, events: seq<Event>, log: Log, rotateIo: CloseIo, writeIo: WriteIo)
    requires flush > 0 && IsRun(flush, metricsEnabled, events)
    requires Exec(flush, metricsEnabled, events).mode == Streaming
    ensures var all := events + [LogArrived(log, rotateIo, writeIo)];
            && IsRun(flush, metricsEnabled, all)
            && var s, s' := Exec(flush, metricsEnabled, events), Exec(flush, metricsEnabled, all);
               if log.blockNumber.None? || log.txHash.None? || log.logIndex.None? then
                 s'.mode == Exited(MissingMetadata) && s'.sink == s.sink && s'.target == s.target
               else
                 var block := log.blockNumber.value;
                 var fails := Due(s.target, block) && s.sink.writers.Keys * rotateIo.failing != {};
                 && s'.mode == (if fails then Exited(RotateFailed)
                                else if DecodeLog(log).DecodeError? then Exited(DecodeFailed)
                                else if DecodeLog(log).Event? && WriteBreaks(s, log, writeIo)
                                then Exited(WriteFailed(IoError))
                                else Streaming)
                 && s'.target == (if !fails && (s.target.None? || Due(s.target, block))
                                  then Some(if block + flush <= U64_MAX then block + flush else U64_MAX) else s.target)
                 && s'.sink.epoch == s.sink.epoch + (if Due(s.target, block) && !fails then 1 else 0)
  {
    hide Exec, IsRun, DecodeLog, Next, Running, WriteBreaks, Due;
    var event := LogArrived(log, rotateIo, writeIo);
    RunsExtend(flush, metricsEnabled, events, event);
    RunIsRunning(flush, metricsEnabled, events);
    var s := Exec(flush, metricsEnabled, events);
    if log.Complete() {
      LogEnds(flush, s, log, rotateIo, writeIo);
    } else {
      IncompleteEnds(flush, s, event);
    }
  }

  lemma IncompleteEnds(flush: u64, s: State, event: Event)
    requires event.LogArrived? && !event.log.Complete()
    ensures var s' := Next(flush, s, event);
            s'.mode == Exited(MissingMetadata) && s'.sink == s.sink && s'.target == s.target
  {
    hide RotateIfDue, Store;
  }

  // --- metrics ---

  ghost predicate SameButMetrics(s: State, s': State) {
    s' == s.(metrics := s'.metrics)
  }

  lemma RotateApart(flush: u64, s: State, s': State, block: u64, io: CloseIo)
    requires SameButMetrics(s, s')
    ensures SameButMetrics(RotateIfDue(flush, s, block, io), RotateIfDue(flush, s', block, io))
    ensures !s'.metrics.enabled && s'.metrics == NoMetrics(false) ==>
              RotateIfDue(flush, s', block, io).metrics == NoMetrics(false)
  {
    hide Rotate, SaturatingAdd;
  }

  lemma StoreApart(s: State, s': State, log: Log, io: WriteIo)
    requires SameButMetrics(s, s') && log.Complete()
    ensures SameButMetrics(Store(s, log, io), Store(s', log, io))
    ensures s'.metrics == NoMetrics(false) ==> Store(s', log, io).metrics == NoMetrics(false)
  {
    hide Write, DecodeLog, RowOf, Names;
  }

  lemma NextApart(flush: u64, s: State, s': State, event: Event)
    requires SameButMetrics(s, s') && s'.metrics == NoMetrics(false)
    ensures SameButMetrics(Next(flush, s, event), Next(flush, s', event))
    ensures Next(flush, s', event).metrics == NoMetrics(false)
  {
    if event.LogArrived? && event.log.Complete() {
      var block := event.log.blockNumber.value;
      var seen, seen' := s.(metrics := s.metrics.ObserveLog()), s'.(metrics := s'.metrics.ObserveLog());
      hide Store, RotateIfDue, Next;
      NextOnLog(flush, s, event);
      NextOnLog(flush, s', event);
      RotateApart(flush, seen, seen', block, event.rotateIo);
      StoreApart(RotateIfDue(flush, seen, block, event.rotateIo), RotateIfDue(flush, seen', block, event.rotateIo),
                 event.log, event.writeIo);
    } else {
      hide Close, Store, RotateIfDue, ReconnectDelay, SaturatingIncrement;
    }
  }

  // Metrics have no influence on a run: with and without them the same events are
  // a run, and they lead to the same exit, sink, target, back-off and rows; and
  // without metrics no counter ever moves.
  lemma {:induction false} MetricsDoNotMatter(flush: u64, events: seq<Event>)
    ensures IsRun(flush, true, events) <==> IsRun(flush, false, events)
    ensures IsRun(flush, true, events) ==>
              && SameButMetrics(Exec(flush, true, events), Exec(flush, false, events))
              && Exec(flush, false, events).metrics == Metrics(false, 0, map[], 0, 0, 0, 0, 0, false)
    decreases |events|
  {
    hide Next;
    if events != [] {
      var before, event := events[..|events| - 1], events[|events| - 1];
      MetricsDoNotMatter(flush, before);
      if IsRun(flush, true, before) {
        NextApart(flush, Exec(flush, true, before), Exec(flush, false, before), event);
      }
    }
  }
}
