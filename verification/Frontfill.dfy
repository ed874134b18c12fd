// src/frontfill.rs: `run`, as a state that each environment event changes, and
// as the nested loops of the source proved against it.
module Frontfill {
  import opened Base
  import opened Decode
  import opened LabelledCounts
  import opened Rows
  import opened Storage

  // Why the run is over.
  datatype Exit =
    | Shutdown
    | SignalError
    | CloseFailed
    | MissingMetadata
    | RotateFailed
    | DecodeFailed
    | WriteFailed(result: WriteResult)

  datatype Mode = Connecting | Streaming | Exited(exit: Exit)

  // What the environment does next.  A log brings along what the file system
  // will do in the rotation and in the write that it may cause.
  datatype Event =
    | ConnectFailed
    | SubscribeFailed
    | Subscribed
    | StreamEnded
    | LogArrived(log: Log, rotateIo: CloseIo, writeIo: WriteIo)
    | Interrupt(signalOk: bool, closeIo: CloseIo)

  // The counters of the metrics registry, which stay untouched when metrics are off.
  datatype Metrics = Metrics(
    enabled: bool,
    logsTotal: nat,
    logsByType: map<EventType, nat>,
    decodeErrors: nat,
    writeErrors: nat,
    missingMetadata: nat,
    rotateTotal: nat,
    shutdownTotal: nat,
    connected: bool)
  {
    function ObserveLog(): Metrics {
      if enabled then this.(logsTotal := logsTotal + 1) else this
    }

    function ObserveType(t: EventType): Metrics {
      if enabled then this.(logsByType := logsByType[t := CountOf(logsByType, t) + 1])
      else this
    }

    function ObserveRotate(): Metrics {
      if enabled then this.(rotateTotal := rotateTotal + 1) else this
    }

    function SetConnected(value: bool): Metrics {
      if enabled then this.(connected := value) else this
    }

    function Fail(decode: nat, write: nat, missing: nat): Metrics {
      if enabled then
        this.(decodeErrors := decodeErrors + decode, writeErrors := writeErrors + write,
              missingMetadata := missingMetadata + missing, connected := false)
      else this
    }

    function ObserveShutdown(): Metrics {
      if enabled then this.(shutdownTotal := shutdownTotal + 1, connected := false) else this
    }
  }

  // A row the sink accepted, and the rotations completed before it.
  datatype Placed = Placed(eventType: EventType, row: Row, epoch: nat)

  // The variables of `run`, and as history: the seconds slept, the block that
  // opened each file set, and the accepted rows.
  datatype State = State(
    mode: Mode,
    sink: Sink,
    target: Option<u64>,
    attempt: u32,
    metrics: Metrics,
    slept: nat,
    openers: seq<u64>,
    placed: seq<Placed>)

  // `reconnect_delay`, in seconds.
  function ReconnectDelay(attempt: u32): nat {
    Shift(Min(attempt, 5))
  }

  // `1_u64 << shift`
  function Shift(shift: nat): nat {
    if shift == 0 then 1 else 2 * Shift(shift - 1)
  }

  function NoMetrics(enabled: bool): Metrics {
    Metrics(enabled, 0, map[], 0, 0, 0, 0, 0, false)
  }

  function Init(metricsEnabled: bool): State {
    State(Connecting, Empty(), None, 0, NoMetrics(metricsEnabled), 0, [], [])
  }

  predicate CanHappen(s: State, event: Event) {
    match event
    case ConnectFailed => s.mode.Connecting?
    case SubscribeFailed => s.mode.Connecting?
    case Subscribed => s.mode.Connecting?
    case _ => s.mode.Streaming?
  }

  function Retry(s: State): State {
    s.(slept := s.slept + ReconnectDelay(s.attempt), attempt := SaturatingIncrement(s.attempt))
  }

  // The rotation check at a complete log.
  function RotateIfDue(flush: u64, s: State, block: u64, io: CloseIo): State {
    var next := s.(target := Some(SaturatingAdd(block, flush)), openers := s.openers + [block]);
    if s.target.None? then next
    else if block < s.target.value then s
    else
      var (sink, ok) := Rotate(s.sink, io);
      if ok then next.(sink := sink, metrics := s.metrics.ObserveRotate())
      else s.(sink := sink, mode := Exited(RotateFailed))
  }

  // Decoding and writing a complete log after the rotation check.
  function Store(s: State, log: Log, io: WriteIo): State
    requires log.Complete()
  {
    match DecodeLog(log)
    case NotAnEvent => s
    case DecodeError => s.(mode := Exited(DecodeFailed), metrics := s.metrics.Fail(1, 0, 0))
    case Event(event) =>
      var row := RowOf(log, event);
      var counted := s.metrics.ObserveType(event.eventType);
      var (sink, result) := Write(s.sink, event.eventType, Names(event.columns), row, io);
      if result.Accepted? then
        s.(sink := sink, metrics := counted, placed := s.placed + [Placed(event.eventType, row, s.sink.epoch)])
      else
        s.(sink := sink, metrics := counted.Fail(0, 1, 0), mode := Exited(WriteFailed(result)))
  }

  function OnLog(flush: u64, s: State, log: Log, rotateIo: CloseIo, writeIo: WriteIo): State {
    if !log.Complete() then
      s.(mode := Exited(MissingMetadata), metrics := s.metrics.Fail(0, 0, 1))
    else
      var seen := s.(metrics := s.metrics.ObserveLog());
      var rotated := RotateIfDue(flush, seen, log.blockNumber.value, rotateIo);
      if rotated.mode.Exited? then rotated else Store(rotated, log, writeIo)
  }

  function OnInterrupt(s: State, signalOk: bool, io: CloseIo): State {
    if !signalOk then s.(mode := Exited(SignalError))
    else
      var (sink, ok) := Close(s.sink, io);
      if ok then s.(sink := sink, mode := Exited(Shutdown), metrics := s.metrics.ObserveShutdown())
      else s.(sink := sink, mode := Exited(CloseFailed))
  }

  function Next(flush: u64, s: State, event: Event): State {
    match event
    case ConnectFailed => Retry(s)
    case SubscribeFailed => Retry(s)
    case Subscribed => s.(mode := Streaming, attempt := 0, metrics := s.metrics.SetConnected(true))
    case StreamEnded => Retry(s.(mode := Connecting, metrics := s.metrics.SetConnected(false)))
    case LogArrived(log, rotateIo, writeIo) => OnLog(flush, s, log, rotateIo, writeIo)
    case Interrupt(signalOk, closeIo) => OnInterrupt(s, signalOk, closeIo)
  }

  // A run is any sequence of events that can happen; Exec is the state it leads to.
  predicate IsRun(flush: u64, metricsEnabled: bool, events: seq<Event>)
    decreases |events|, 0
  {
    if events == [] then true
    else
      var before := events[..|events| - 1];
      IsRun(flush, metricsEnabled, before)
      && CanHappen(Exec(flush, metricsEnabled, before), events[|events| - 1])
  }

  function Exec(flush: u64, metricsEnabled: bool, events: seq<Event>): State
    requires IsRun(flush, metricsEnabled, events)
    decreases |events|, 1
  {
    if events == [] then Init(metricsEnabled)
    else Next(flush, Exec(flush, metricsEnabled, events[..|events| - 1]), events[|events| - 1])
  }

  // The last event of a run.
  lemma ExecLast(flush: u64, metricsEnabled: bool, events: seq<Event>)
    requires IsRun(flush, metricsEnabled, events) && events != []
    ensures IsRun(flush, metricsEnabled, events[..|events| - 1])
    ensures CanHappen(Exec(flush, metricsEnabled, events[..|events| - 1]), events[|events| - 1])
    ensures Exec(flush, metricsEnabled, events)
            == Next(flush, Exec(flush, metricsEnabled, events[..|events| - 1]), events[|events| - 1])
    ensures events == events[..|events| - 1] + [events[|events| - 1]]
  {
    hide Next, CanHappen;
  }

  datatype Outcome = InvalidConfig | Ended(exit: Exit) | StillRunning

  // Events before the n-th, and the state they lead to, after one more event.
  lemma PrefixStep(flush: u64, metricsEnabled: bool, script: seq<Event>, n: nat)
    requires n < |script| && IsRun(flush, metricsEnabled, script)
    ensures IsRun(flush, metricsEnabled, script[..n]) && IsRun(flush, metricsEnabled, script[..n + 1])
    ensures CanHappen(Exec(flush, metricsEnabled, script[..n]), script[n])
    ensures Exec(flush, metricsEnabled, script[..n + 1])
            == Next(flush, Exec(flush, metricsEnabled, script[..n]), script[n])
  {
    PrefixIsRun(flush, metricsEnabled, script, n + 1);
    assert script[..n + 1][..n] == script[..n];
  }

  lemma {:induction false} PrefixIsRun(flush: u64, metricsEnabled: bool, script: seq<Event>, n: nat)
    requires n <= |script| && IsRun(flush, metricsEnabled, script)
    ensures IsRun(flush, metricsEnabled, script[..n])
    decreases |script|
  {
    if n == |script| {
      assert script[..n] == script;
    } else {
      PrefixIsRun(flush, metricsEnabled, script[..|script| - 1], n);
      assert script[..|script| - 1][..n] == script[..n];
    }
  }

  // s is the state after the first n events of a script that can happen.
  ghost predicate At(flush: u64, metricsEnabled: bool, script: seq<Event>, n: nat, s: State) {
    && n <= |script|
    && IsRun(flush, metricsEnabled, script)
    && IsRun(flush, metricsEnabled, script[..n])
    && s == Exec(flush, metricsEnabled, script[..n])
  }

  lemma AtStep(flush: u64, metricsEnabled: bool, script: seq<Event>, n: nat, s: State)
    requires At(flush, metricsEnabled, script, n, s) && n < |script|
    ensures At(flush, metricsEnabled, script, n + 1, Next(flush, s, script[n]))
    ensures s.mode == if script[n].ConnectFailed? || script[n].SubscribeFailed? || script[n].Subscribed?
                      then Connecting else Streaming
  {
    PrefixStep(flush, metricsEnabled, script, n);
  }

  // At the end of the script, and nothing happens after the run has ended.
  lemma AtEnd(flush: u64, metricsEnabled: bool, script: seq<Event>, n: nat, s: State)
    requires At(flush, metricsEnabled, script, n, s) && (n == |script| || s.mode.Exited?)
    ensures s == Exec(flush, metricsEnabled, script)
  {
    if n < |script| {
      AtStep(flush, metricsEnabled, script, n, s);
    }
    assert script[..n] == script;
  }

  // The body of the inner loop for one log; exit is None when the loop goes on.
  method HandleLog(storage: ParquetStorage, flush: u64, event: Event, target: Option<u64>, metrics: Metrics,
                   ghost s: State)
    returns (exit: Option<Exit>, target': Option<u64>, metrics': Metrics, ghost s': State)
    requires event.LogArrived? && s.mode.Streaming?
    requires s.sink == storage.State() && s.target == target && s.metrics == metrics
    modifies storage
    ensures s' == Next(flush, s, event)
    ensures s'.sink == storage.State() && s'.target == target' && s'.metrics == metrics'
    ensures s'.mode == if exit.Some? then Exited(exit.value) else Streaming
    ensures s'.attempt == s.attempt && s'.slept == s.slept
  {
    var log := event.log;
    target', metrics', s' := target, metrics, Next(flush, s, event);
    if log.blockNumber.None? || log.txHash.None? || log.logIndex.None? {
      return Some(MissingMetadata), target', metrics.Fail(0, 0, 1), s';
    }
    var blockNumber := log.blockNumber.value;
    metrics' := metrics'.ObserveLog();
    if target'.Some? {
      if blockNumber >= target'.value {
        var rotated := storage.RotateWriters(event.rotateIo);
        if !rotated {
          return Some(RotateFailed), target', metrics', s';
        }
        metrics' := metrics'.ObserveRotate();
        target' := Some(SaturatingAdd(blockNumber, flush));
      }
    } else {
      target' := Some(SaturatingAdd(blockNumber, flush));
    }
    match DecodeLog(log)
    case DecodeError => return Some(DecodeFailed), target', metrics'.Fail(1, 0, 0), s';
    case NotAnEvent => return None, target', metrics', s';
    case Event(decoded) =>
      metrics' := metrics'.ObserveType(decoded.eventType);
      var result := storage.WriteEvent(
        decoded.eventType, blockNumber, log.txHash.value, log.logIndex.value, decoded.columns, event.writeIo);
      if !result.Accepted? {
        return Some(WriteFailed(result)), target', metrics'.Fail(0, 1, 0), s';
      }
      return None, target', metrics', s';
  }

  // The Ctrl-C branch of the select.
  method HandleInterrupt(storage: ParquetStorage, event: Event, metrics: Metrics, ghost flush: u64, ghost s: State)
    returns (exit: Exit, metrics': Metrics)
    requires event.Interrupt? && s.mode.Streaming?
    requires s.sink == storage.State() && s.metrics == metrics
    modifies storage
    ensures Next(flush, s, event)
            == s.(sink := storage.State(), metrics := metrics', mode := Exited(exit))
  {
    if !event.signalOk {
      return SignalError, metrics;
    }
    var closed := storage.CloseWriters(event.closeIo);
    if !closed {
      return CloseFailed, metrics;
    }
    return Shutdown, metrics.ObserveShutdown();
  }

  // The inner loop: it takes events from position n on until the stream ends,
  // the script ends or the run is over.
  method Listen(storage: ParquetStorage, flush: u64, ghost metricsEnabled: bool, script: seq<Event>, n: nat,
                target: Option<u64>, metrics: Metrics, ghost s: State)
    returns (n': nat, exit: Option<Exit>, target': Option<u64>, metrics': Metrics, ghost s': State)
    requires At(flush, metricsEnabled, script, n, s) && n <= |script|
    requires s.mode.Streaming? && s.sink == storage.State() && s.target == target && s.metrics == metrics
    modifies storage
    ensures At(flush, metricsEnabled, script, n', s') && n <= n' <= |script|
    ensures s'.sink == storage.State() && s'.target == target' && s'.metrics == metrics'
    ensures s'.mode == if exit.Some? then Exited(exit.value) else Streaming
    ensures s'.attempt == s.attempt && s'.slept == s.slept
    ensures exit.None? && n' < |script| ==> script[n'].StreamEnded?
  {
    hide *;
    n', exit, target', metrics', s' := n, None, target, metrics, s;
    while n' < |script| && !script[n'].StreamEnded?
      invariant At(flush, metricsEnabled, script, n', s') && n <= n' <= |script|
      invariant s'.mode.Streaming?
      invariant s'.sink == storage.State() && s'.target == target' && s'.metrics == metrics'
      invariant s'.attempt == s.attempt && s'.slept == s.slept
      invariant exit.None?
    {
      AtStep(flush, metricsEnabled, script, n', s');
      var event := script[n'];
      n' := n' + 1;
      if event.Interrupt? {
        var why: Exit;
        ghost var before := s';
        s' := Next(flush, s', event);
        why, metrics' := HandleInterrupt(storage, event, metrics', flush, before);
        return n', Some(why), target', metrics', s';
      }
      exit, target', metrics', s' := HandleLog(storage, flush, event, target', metrics', s');
      if exit.Some? {
        return;
      }
    }
  }

  // What the three connection events and the end of a stream change.
  lemma NextConnection(flush: u64, s: State, event: Event)
    requires !event.LogArrived? && !event.Interrupt?
    ensures Next(flush, s, event).sink == s.sink && Next(flush, s, event).target == s.target
    ensures event.Subscribed? ==>
              var s' := Next(flush, s, event);
              && s'.mode == Streaming && s'.attempt == 0 && s'.slept == s.slept
              && s'.metrics == s.metrics.SetConnected(true)
    ensures !event.Subscribed? ==>
              var s' := Next(flush, s, event);
              && s'.mode == (if event.StreamEnded? then Connecting else s.mode)
              && s'.attempt == SaturatingIncrement(s.attempt)
              && s'.slept == s.slept + ReconnectDelay(s.attempt)
              && s'.metrics == (if event.StreamEnded? then s.metrics.SetConnected(false) else s.metrics)
  {
  }

  // One turn of the outer loop: connect, subscribe, listen, and wait before the next.
  method Session(storage: ParquetStorage, flush: u64, ghost metricsEnabled: bool, script: seq<Event>, n: nat,
                 target: Option<u64>, metrics: Metrics, attempt: u32, slept: nat, ghost s: State)
    returns (n': nat, exit: Option<Exit>, target': Option<u64>, metrics': Metrics, attempt': u32, slept': nat,
             ghost s': State)
    requires At(flush, metricsEnabled, script, n, s) && n < |script| && s.mode.Connecting?
    requires s.sink == storage.State() && s.target == target && s.metrics == metrics
    requires s.attempt == attempt && s.slept == slept
    modifies storage
    ensures At(flush, metricsEnabled, script, n', s') && n < n' <= |script|
    ensures s'.sink == storage.State() && s'.target == target' && s'.metrics == metrics'
    ensures s'.attempt == attempt' && s'.slept == slept'
    ensures exit.Some? ==> s'.mode == Exited(exit.value)
    ensures exit.None? ==> s'.mode.Connecting? || (s'.mode.Streaming? && n' == |script|)
  {
    hide *;
    target', metrics', attempt', slept', exit := target, metrics, attempt, slept, None;
    AtStep(flush, metricsEnabled, script, n, s);
    NextConnection(flush, s, script[n]);
    s' := Next(flush, s, script[n]);
    n' := n + 1;
    if script[n].ConnectFailed? || script[n].SubscribeFailed? {
      slept' := slept + ReconnectDelay(attempt);
      attempt' := SaturatingIncrement(attempt);
      return;
    }
    attempt' := 0;
    metrics' := metrics.SetConnected(true);
    n', exit, target', metrics', s' := Listen(storage, flush, metricsEnabled, script, n', target', metrics', s');
    if exit.None? && n' < |script| {
      AtStep(flush, metricsEnabled, script, n', s');
      NextConnection(flush, s', script[n']);
      s' := Next(flush, s', script[n']);
      metrics' := metrics'.SetConnected(false);
      slept' := slept' + ReconnectDelay(attempt');
      attempt' := SaturatingIncrement(attempt');
      n' := n' + 1;
    }
  }

  // `run`: sessions until one of them ends the run.
  method Run(flush: u64, metricsEnabled: bool, script: seq<Event>)
    returns (outcome: Outcome, storage: ParquetStorage, metrics: Metrics, attempt: u32, slept: nat)
    requires IsRun(flush, metricsEnabled, script)
    ensures outcome.InvalidConfig? <==> flush == 0
    ensures flush == 0 ==> storage.State() == Empty() && slept == 0
    ensures flush > 0 ==>
              var s := Exec(flush, metricsEnabled, script);
              && outcome == (if s.mode.Exited? then Ended(s.mode.exit) else StillRunning)
              && storage.State() == s.sink && metrics == s.metrics && attempt == s.attempt && slept == s.slept
  {
    storage := new ParquetStorage();
    metrics, attempt, slept := NoMetrics(metricsEnabled), 0, 0;
    if flush == 0 {
      return InvalidConfig, storage, metrics, attempt, slept;
    }
    var nextRotationBlock: Option<u64> := None;
    var n := 0;
    ghost var s := Init(metricsEnabled);
    assert At(flush, metricsEnabled, script, n, s);
    hide *;
    while n < |script|
      invariant At(flush, metricsEnabled, script, n, s) && n <= |script|
      invariant s.mode.Connecting? || (s.mode.Streaming? && n == |script|)
      invariant s.sink == storage.State() && s.target == nextRotationBlock
      invariant s.attempt == attempt && s.metrics == metrics && s.slept == slept
      invariant fresh(storage)
    {
      var exit: Option<Exit>;
      n, exit, nextRotationBlock, metrics, attempt, slept, s :=
        Session(storage, flush, metricsEnabled, script, n, nextRotationBlock, metrics, attempt, slept, s);
      if exit.Some? {
        AtEnd(flush, metricsEnabled, script, n, s);
        return Ended(exit.value), storage, metrics, attempt, slept;
      }
    }
    AtEnd(flush, metricsEnabled, script, n, s);
    return StillRunning, storage, metrics, attempt, slept;
  }
}
