// Conservation laws of the frontfill counters, and the reconnect back-off.
module FrontfillCounters {
  import opened Base
  import opened Decode
  import opened LabelledCounts
  import opened Rows
  import opened Storage
  import opened Frontfill
  import opened FrontfillRuns

  // Complete logs that are no event.
  function Ignored(logs: seq<Log>): nat {
    if logs == [] then 0
    else
      var last := logs[|logs| - 1];
      Ignored(logs[..|logs| - 1]) + if last.Complete() && DecodeLog(last).NotAnEvent? then 1 else 0
  }

  function Flag(b: bool): nat {
    if b then 1 else 0
  }

  predicate EndedIn(s: State, exit: Exit) {
    s.mode == Exited(exit)
  }

  predicate WriteFailure(s: State) {
    s.mode.Exited? && s.mode.exit.WriteFailed?
  }

  // Of the logs the registry has counted, `ignored` were no event, and each of
  // the others is counted under a type or ended the run.
  ghost predicate Tally(ignored: int, s: State) {
    && s.metrics.logsTotal
       == ignored + TypeTotal(s.metrics.logsByType) + Flag(EndedIn(s, DecodeFailed)) + Flag(EndedIn(s, RotateFailed))
    && TypeTotal(s.metrics.logsByType) == |s.placed| + Flag(WriteFailure(s))
  }

  // Type by type, the counts are those of the accepted rows.
  ghost predicate PerType(s: State) {
    !WriteFailure(s) ==> forall t :: CountOf(s.metrics.logsByType, t) == |PlacedRows(s.placed, t)|
  }

  // The other counters, and the connection gauge.
  ghost predicate EventCounts(s: State) {
    && s.metrics.rotateTotal == s.sink.epoch
    && s.metrics.decodeErrors == Flag(EndedIn(s, DecodeFailed))
    && s.metrics.writeErrors == Flag(WriteFailure(s))
    && s.metrics.missingMetadata == Flag(EndedIn(s, MissingMetadata))
    && s.metrics.shutdownTotal == Flag(EndedIn(s, Shutdown))
    && (s.metrics.connected <==>
          s.mode.Streaming? || EndedIn(s, SignalError) || EndedIn(s, CloseFailed) || EndedIn(s, RotateFailed))
  }

  // A running state whose last log has been counted but is not yet settled when
  // `pending` is 1.
  ghost predicate Counted(ignored: nat, pending: nat, s: State) {
    s.metrics.enabled && Tally(ignored + pending, s) && EventCounts(s)
  }

  lemma IgnoredSnoc(logs: seq<Log>, log: Log)
    ensures Ignored(logs + [log]) == Ignored(logs) + if log.Complete() && DecodeLog(log).NotAnEvent? then 1 else 0
  {
    assert (logs + [log])[..|logs|] == logs;
  }

  // The four ways in which storing a log can go.
  lemma StoreCases(s: State, log: Log, io: WriteIo)
    requires log.Complete() && !s.mode.Exited?
    ensures var s' := Store(s, log, io);
            match DecodeLog(log)
            case NotAnEvent => s' == s
            case DecodeError => s' == s.(mode := Exited(DecodeFailed), metrics := s.metrics.Fail(1, 0, 0))
            case Event(e) =>
              && s'.sink.epoch == s.sink.epoch
              && (if WriteFailure(s') then
                    s'.placed == s.placed && s'.metrics == s.metrics.ObserveType(e.eventType).Fail(0, 1, 0)
                  else
                    s'.mode == s.mode && s'.metrics == s.metrics.ObserveType(e.eventType)
                    && s'.placed == s.placed + [Placed(e.eventType, RowOf(log, e), s.sink.epoch)])
              && (s'.mode != s.mode ==> WriteFailure(s'))
  {
    if DecodeLog(log).Event? {
      var e := DecodeLog(log).event;
      WriteKeepsFiles(s.sink, e.eventType, Names(e.columns), RowOf(log, e), io);
    }
    hide DecodeLog, Write, Names, Values;
  }

  lemma StoreCounts(ignored: nat, s: State, log: Log, io: WriteIo)
    requires log.Complete() && !s.mode.Exited? && Counted(ignored, 1, s)
    ensures Counted(ignored + (if DecodeLog(log).NotAnEvent? then 1 else 0), 0, Store(s, log, io))
  {
    hide DecodeLog, Store, TypeTotal, Names, Values;
    StoreCases(s, log, io);
    if DecodeLog(log).Event? {
      var counts, t := s.metrics.logsByType, DecodeLog(log).event.eventType;
      TypeTotalOneMore(counts, counts[t := CountOf(counts, t) + 1], t);
    }
  }

  lemma StorePerType(s: State, log: Log, io: WriteIo)
    requires log.Complete() && !s.mode.Exited? && s.metrics.enabled && PerType(s)
    ensures PerType(Store(s, log, io)) && Store(s, log, io).metrics.enabled
  {
    StoreCases(s, log, io);
    var s' := Store(s, log, io);
    if DecodeLog(log).Event? && !WriteFailure(s') {
      var e := DecodeLog(log).event;
      hide DecodeLog, Store, Names, Values;
      forall u ensures CountOf(s'.metrics.logsByType, u) == |PlacedRows(s'.placed, u)| {
        PlacedRowsSnoc(s.placed, Placed(e.eventType, RowOf(log, e), s.sink.epoch), u);
        assert CountOf(s.metrics.logsByType, u) == |PlacedRows(s.placed, u)|;
      }
    } else {
      hide DecodeLog, Store, Names, Values, PlacedRows;
    }
  }

  // Type by type, in every state.
  lemma {:induction false} TypesConserved(flush: u64, events: seq<Event>)
    requires flush > 0 && IsRun(flush, true, events)
    ensures PerType(Exec(flush, true, events)) && Exec(flush, true, events).metrics.enabled
    decreases |events|
  {
    if events == [] {
      assert forall t :: PlacedRows([], t) == [];
    } else {
      hide Exec, IsRun, Next, PerType;
      ExecLast(flush, true, events);
      TypesConserved(flush, events[..|events| - 1]);
      NextPerType(flush, Exec(flush, true, events[..|events| - 1]), events[|events| - 1]);
    }
  }

  lemma NextPerType(flush: u64, s: State, event: Event)
    requires CanHappen(s, event) && s.metrics.enabled && PerType(s)
    ensures PerType(Next(flush, s, event)) && Next(flush, s, event).metrics.enabled
  {
    if event.LogArrived? && event.log.Complete() {
      var seen := s.(metrics := s.metrics.ObserveLog());
      var rotated := RotateIfDue(flush, seen, event.log.blockNumber.value, event.rotateIo);
      NextOnLog(flush, s, event);
      RotateCases(flush, seen, event.log.blockNumber.value, event.rotateIo);
      assert rotated.metrics.logsByType == s.metrics.logsByType && rotated.placed == s.placed && PerType(rotated) by {
        hide RotateIfDue, Rotate, PlacedRows;
      }
      hide RotateIfDue, Rotate, PlacedRows, Store, PerType, Next;
      if !rotated.mode.Exited? {
        StorePerType(rotated, event.log, event.writeIo);
      }
    } else {
      QuietMetrics(flush, s, event);
      hide Next, PlacedRows;
    }
  }

  lemma QuietMetrics(flush: u64, s: State, event: Event)
    requires !(event.LogArrived? && event.log.Complete()) && CanHappen(s, event)
    ensures var s' := Next(flush, s, event);
            && s'.placed == s.placed && s'.metrics.logsByType == s.metrics.logsByType
            && s'.metrics.enabled == s.metrics.enabled && !WriteFailure(s) && !WriteFailure(s')
  {
    hide Close, ReconnectDelay;
  }

  lemma RotateCounts(flush: u64, ignored: nat, s: State, block: u64, io: CloseIo)
    requires Live(s.sink) && s.mode.Streaming? && Counted(ignored, 1, s)
    ensures var s' := RotateIfDue(flush, s, block, io);
            if s'.mode.Exited? then EndedIn(s', RotateFailed) && Counted(ignored, 0, s') else Counted(ignored, 1, s')
  {
    RotateCases(flush, s, block, io);
    RotateEpoch(s.sink, io);
    hide RotateIfDue, Rotate, Live, TypeTotal, SaturatingAdd;
  }

  lemma LogCounts(flush: u64, before: seq<Event>, s: State, event: Event)
    requires event.LogArrived? && s.mode.Streaming? && Running(flush, s)
    requires Counted(Ignored(Logs(before)), 0, s)
    ensures var s' := Next(flush, s, event); Counted(Ignored(StoredLogs(s', before + [event])), 0, s')
  {
    var log := event.log;
    assert Live(s.sink);
    LogsSnoc(before, event);
    IgnoredSnoc(Logs(before), log);
    if log.Complete() {
      CompleteCounts(flush, Ignored(Logs(before)), s, event);
    } else {
      IncompleteCounts(flush, Ignored(Logs(before)), s, event);
    }
    hide Ignored, Running, Counted, Next, Logs, Live, DecodeLog;
  }

  lemma LogsSnoc(before: seq<Event>, event: Event)
    ensures Logs(before + [event]) == if event.LogArrived? then Logs(before) + [event.log] else Logs(before)
    ensures (before + [event])[..|before + [event]| - 1] == before
  {
    assert (before + [event])[..|before|] == before;
  }

  lemma IncompleteCounts(flush: u64, ignored: nat, s: State, event: Event)
    requires event.LogArrived? && s.mode.Streaming? && !event.log.Complete() && Counted(ignored, 0, s)
    ensures Counted(ignored, 0, Next(flush, s, event)) && !LastLogUnstored(Next(flush, s, event).mode)
  {
    hide TypeTotal, RotateIfDue, Store;
  }

  lemma CompleteCounts(flush: u64, ignored: nat, s: State, event: Event)
    requires event.LogArrived? && s.mode.Streaming? && Live(s.sink) && event.log.Complete() && Counted(ignored, 0, s)
    ensures var s' := Next(flush, s, event);
            Counted(ignored + (if !LastLogUnstored(s'.mode) && DecodeLog(event.log).NotAnEvent? then 1 else 0), 0, s')
  {
    var log := event.log;
    var seen := s.(metrics := s.metrics.ObserveLog());
    CountOne(ignored, s);
    var rotated := RotateIfDue(flush, seen, log.blockNumber.value, event.rotateIo);
    NextOnLog(flush, s, event);
    hide RotateIfDue, Store, Counted, Next, Live, DecodeLog;
    RotateCounts(flush, ignored, seen, log.blockNumber.value, event.rotateIo);
    if !rotated.mode.Exited? {
      StoreCounts(ignored, rotated, log, event.writeIo);
      StoreEnds(rotated, log, event.writeIo);
    }
  }

  lemma StoreEnds(s: State, log: Log, io: WriteIo)
    requires log.Complete() && !s.mode.Exited?
    ensures var s' := Store(s, log, io);
            LastLogUnstored(s'.mode) ==> WriteFailure(s') && DecodeLog(log).Event?
  {
    StoreCases(s, log, io);
    hide DecodeLog, Store;
  }

  lemma CountOne(ignored: nat, s: State)
    requires Counted(ignored, 0, s) && !s.mode.Exited?
    ensures Counted(ignored, 1, s.(metrics := s.metrics.ObserveLog()))
  {
    hide TypeTotal;
  }

  lemma QuietCounts(flush: u64, before: seq<Event>, s: State, event: Event)
    requires !event.LogArrived? && CanHappen(s, event) && Live(s.sink)
    requires Counted(Ignored(Logs(before)), 0, s)
    ensures var s' := Next(flush, s, event); Counted(Ignored(StoredLogs(s', before + [event])), 0, s')
  {
    LogsSnoc(before, event);
    QuietStep(flush, Ignored(Logs(before)), s, event);
    hide Counted, Next, Ignored, Logs, Live;
  }

  lemma QuietStep(flush: u64, ignored: nat, s: State, event: Event)
    requires !event.LogArrived? && CanHappen(s, event) && Live(s.sink) && Counted(ignored, 0, s)
    ensures Counted(ignored, 0, Next(flush, s, event)) && !LastLogUnstored(Next(flush, s, event).mode)
  {
    hide Close, TypeTotal, Live, ReconnectDelay, SaturatingIncrement;
    if event.Interrupt? {
      CloseEpoch(s.sink, event.closeIo);
    } else {
      hide Next;
      NextConnectionHistory(flush, s, event);
      NextConnection(flush, s, event);
    }
  }

  lemma NextConnectionHistory(flush: u64, s: State, event: Event)
    requires !event.LogArrived? && !event.Interrupt?
    ensures Next(flush, s, event).placed == s.placed
  {
  }

  lemma CloseEpoch(s: Sink, io: CloseIo)
    requires Live(s)
    ensures Close(s, io).0.epoch == s.epoch
  {
    CloseEndsRun(s, io);
    hide *;
  }

  // In every state of a run with metrics on: each counted log was ignored, or
  // counted under its type, or ended the run; the typed logs are the rows the
  // sink accepted, type by type, plus the one whose write failed; rotate_total
  // is the number of completed rotations; and the three error counters say which
  // error ended the run, so their sum is at most 1.
  lemma {:induction false} CountersConserved(flush: u64, events: seq<Event>)
    requires flush > 0 && IsRun(flush, true, events)
    ensures var s := Exec(flush, true, events);
            && Counted(Ignored(StoredLogs(s, events)), 0, s)
            && PerType(s)
            && s.metrics.decodeErrors + s.metrics.writeErrors + s.metrics.missingMetadata <= 1
    decreases |events|
  {
    hide *;
    TypesConserved(flush, events);
    if events == [] {
      InitCounted(flush);
    } else {
      ExecLast(flush, true, events);
      var before, event := events[..|events| - 1], events[|events| - 1];
      CountersConserved(flush, before);
      CountersStep(flush, before, event);
    }
    OneError(Ignored(StoredLogs(Exec(flush, true, events), events)), Exec(flush, true, events));
  }

  lemma CountersStep(flush: u64, before: seq<Event>, event: Event)
    requires flush > 0 && IsRun(flush, true, before) && CanHappen(Exec(flush, true, before), event)
    requires var s := Exec(flush, true, before); Counted(Ignored(StoredLogs(s, before)), 0, s)
    ensures var s' := Next(flush, Exec(flush, true, before), event);
            Counted(Ignored(StoredLogs(s', before + [event])), 0, s')
  {
    hide Exec, IsRun, Next, Counted, Logs, Ignored, Running, Live;
    RunIsRunning(flush, true, before);
    if event.LogArrived? {
      LogCounts(flush, before, Exec(flush, true, before), event);
    } else {
      QuietCounts(flush, before, Exec(flush, true, before), event);
    }
  }

  lemma InitCounted(flush: u64)
    ensures Counted(Ignored(StoredLogs(Exec(flush, true, []), [])), 0, Exec(flush, true, []))
  {
    hide TypeTotal, Next;
    EmptyTotal(map[]);
  }

  lemma EmptyTotal(m: map<EventType, nat>)
    requires m == map[]
    ensures TypeTotal(m) == 0
  {
  }

  lemma OneError(ignored: nat, s: State)
    requires Counted(ignored, 0, s)
    ensures s.metrics.decodeErrors + s.metrics.writeErrors + s.metrics.missingMetadata <= 1
  {
    hide Tally;
  }

  // Up to 2^64 - 1 rotations the counter also is the sink's file_set_id.
  lemma RotateTotalIsFileSetId(flush: u64, events: seq<Event>)
    requires flush > 0 && IsRun(flush, true, events)
    ensures var s := Exec(flush, true, events);
            s.metrics.rotateTotal <= U64_MAX ==> s.metrics.rotateTotal == s.sink.fileSetId
  {
    CountersConserved(flush, events);
    RunInv(flush, true, events);
    hide Exec, IsRun, Tally, PerType;
  }

  // --- reconnecting ---

  predicate IsRetry(event: Event) {
    event.ConnectFailed? || event.SubscribeFailed? || event.StreamEnded?
  }

  // Consecutive retries since the last successful subscribe.
  function Streak(events: seq<Event>): nat {
    if events == [] then 0
    else
      var last := events[|events| - 1];
      if last.Subscribed? then 0
      else Streak(events[..|events| - 1]) + if IsRetry(last) then 1 else 0
  }

  // The seconds that n consecutive retries sleep in all.
  function TotalDelay(n: nat): int {
    if n <= 6 then Shift(n) - 1 else 63 + 32 * (n - 6)
  }

  lemma DelaySum(n: nat)
    ensures TotalDelay(n + 1) == TotalDelay(n) + ReconnectDelay(Min(n, U32_MAX))
  {
    assert Shift(0) == 1 && Shift(1) == 2 && Shift(2) == 4 && Shift(3) == 8;
    assert Shift(4) == 16 && Shift(5) == 32 && Shift(6) == 64;
  }

  // The attempt counter is the current streak, and a streaming run has none, so
  // the end of a stream is the first retry of the next streak.
  lemma {:induction false} AttemptIsStreak(flush: u64, metricsEnabled: bool, events: seq<Event>)
    requires IsRun(flush, metricsEnabled, events)
    ensures Exec(flush, metricsEnabled, events).attempt == Min(Streak(events), 0xFFFF_FFFF)
    ensures Exec(flush, metricsEnabled, events).mode.Streaming? ==> Streak(events) == 0
    decreases |events|
  {
    if events != [] {
      ExecLast(flush, metricsEnabled, events);
      AttemptIsStreak(flush, metricsEnabled, events[..|events| - 1]);
      AttemptStep(flush, Exec(flush, metricsEnabled, events[..|events| - 1]), events[|events| - 1]);
      hide Exec, IsRun, Next;
    }
  }

  lemma AttemptStep(flush: u64, s: State, event: Event)
    requires CanHappen(s, event)
    ensures var s' := Next(flush, s, event);
            && s'.attempt == (if event.Subscribed? then 0
                              else if IsRetry(event) then SaturatingIncrement(s.attempt) else s.attempt)
            && s'.slept == s.slept + (if IsRetry(event) then ReconnectDelay(s.attempt) else 0)
            && (s'.mode.Streaming? ==> event.Subscribed? || (s.mode.Streaming? && !IsRetry(event)))
  {
    hide DecodeLog, Write, Rotate, Close, Names, Values, ReconnectDelay, SaturatingIncrement;
  }

  // Whatever came before, n consecutive retries that start a new streak sleep
  // 2^n - 1 seconds for n up to 6 and 63 + 32 * (n - 6) beyond.
  lemma {:induction false} BackOff(flush: u64, metricsEnabled: bool, before: seq<Event>, retries: seq<Event>)
    requires IsRun(flush, metricsEnabled, before) && IsRun(flush, metricsEnabled, before + retries)
    requires Streak(before) == 0 && forall event :: event in retries ==> IsRetry(event)
    ensures Exec(flush, metricsEnabled, before + retries).slept
            == Exec(flush, metricsEnabled, before).slept + TotalDelay(|retries|)
    ensures Streak(before + retries) == |retries|
    decreases |retries|
  {
    if retries == [] {
      assert before + retries == before;
    } else {
      var n := |retries| - 1;
      var events := before + retries;
      assert events[..|events| - 1] == before + retries[..n] && events[|events| - 1] == retries[n];
      assert retries[n] in retries;
      ExecLast(flush, metricsEnabled, events);
      BackOff(flush, metricsEnabled, before, retries[..n]);
      AttemptIsStreak(flush, metricsEnabled, before + retries[..n]);
      AttemptStep(flush, Exec(flush, metricsEnabled, before + retries[..n]), retries[n]);
      DelaySum(n);
      hide Exec, IsRun, Next, TotalDelay, ReconnectDelay;
    }
  }
}
