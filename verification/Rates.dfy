// src/metrics.rs: sliding-window log rates, kept by the observer and a ticker.
module Rates {
  import opened Base
  import opened Decode

  // Clock readings are in nanoseconds.  The window, and the oldest timestamp inside it.
  const SECOND: int := 1_000_000_000
  const WINDOW: int := 60 * SECOND

  function Cutoff(now: int): int {
    now - WINDOW
  }

  // A queue is pruned from the front only; Recent is the recount it should equal.
  function PopOld(queue: seq<int>, cutoff: int): seq<int> {
    if queue == [] then [] else if queue[0] < cutoff then PopOld(queue[1..], cutoff) else queue
  }

  function Recent(history: seq<int>, cutoff: int): seq<int> {
    if history == [] then []
    else Recent(history[..|history| - 1], cutoff)
         + if history[|history| - 1] >= cutoff then [history[|history| - 1]] else []
  }

  ghost predicate Ascending(times: seq<int>) {
    forall i, j :: 0 <= i < j < |times| ==> times[i] <= times[j]
  }

  // Both deques and the published gauges.
  datatype RateState = RateState(
    total: seq<int>,
    byType: map<EventType, seq<int>>,
    totalRate: nat,
    typeRates: map<EventType, nat>)

  function Prune(r: RateState, now: int): RateState {
    r.(total := PopOld(r.total, Cutoff(now)),
       byType := map t | t in r.byType :: PopOld(r.byType[t], Cutoff(now)))
  }

  function Publish(r: RateState): RateState {
    r.(totalRate := |r.total|, typeRates := r.typeRates + map t | t in r.byType :: |r.byType[t]|)
  }

  function AddTotal(r: RateState, at: int): RateState {
    r.(total := r.total + [at])
  }

  function AddType(r: RateState, t: EventType, at: int): RateState {
    r.(byType := r.byType[t := (if t in r.byType then r.byType[t] else []) + [at]])
  }

  // The mutex-protected state as it changes in place.
  class RateTracker {
    var total: seq<int>
    var byType: map<EventType, seq<int>>
    var totalRate: nat
    var typeRates: map<EventType, nat>

    ghost function State(): RateState
      reads this
    {
      RateState(total, byType, totalRate, typeRates)
    }

    constructor ()
      ensures State() == RateState([], map[], 0, map[])
    {
      total, byType, totalRate, typeRates := [], map[], 0, map[];
    }

    method PruneOldEntries(now: int)
      modifies this`total, this`byType
      ensures State() == Prune(old(State()), now)
    {
      var cutoff := Cutoff(now);
      while total != [] && total[0] < cutoff
        invariant PopOld(total, cutoff) == PopOld(old(total), cutoff)
        invariant byType == old(byType)
        decreases |total|
      {
        total := total[1..];
      }
      var left := byType.Keys;
      while left != {}
        invariant left <= byType.Keys == old(byType).Keys
        invariant total == PopOld(old(total), cutoff)
        invariant forall t :: t in byType ==>
                    byType[t] == if t in left then old(byType)[t] else PopOld(old(byType)[t], cutoff)
        decreases left
      {
        var t :| t in left;
        var entries := byType[t];
        while entries != [] && entries[0] < cutoff
          invariant PopOld(entries, cutoff) == PopOld(old(byType)[t], cutoff)
          decreases |entries|
        {
          entries := entries[1..];
        }
        byType := byType[t := entries];
        left := left - {t};
      }
    }

    method PublishRates()
      modifies this`totalRate, this`typeRates
      ensures State() == Publish(old(State()))
    {
      totalRate := |total|;
      var left := byType.Keys;
      while left != {}
        invariant left <= byType.Keys
        invariant totalRate == |total|
        invariant typeRates.Keys == old(typeRates).Keys + (byType.Keys - left)
        invariant forall t :: t in byType && t !in left ==> typeRates[t] == |byType[t]|
        invariant forall t :: t in typeRates && (t !in byType || t in left) ==> typeRates[t] == old(typeRates)[t]
        decreases left
      {
        var t :| t in left;
        typeRates := typeRates[t := |byType[t]|];
        left := left - {t};
      }
    }

    // `observe_log` once it holds the lock: `at` was read before, `now` after.
    method ObserveLog(at: int, now: int)
      modifies this
      ensures State() == Publish(Prune(AddTotal(old(State()), at), now))
    {
      total := total + [at];
      PruneOldEntries(now);
      PublishRates();
    }

    // `observe_decoded_type` once it holds the lock.
    method ObserveDecodedType(t: EventType, at: int, now: int)
      modifies this
      ensures State() == Publish(Prune(AddType(old(State()), t, at), now))
    {
      var entries := if t in byType then byType[t] else [];
      byType := byType[t := entries + [at]];
      PruneOldEntries(now);
      PublishRates();
    }

    // One tick of the background updater.
    method Tick(now: int)
      modifies this
      ensures State() == Publish(Prune(old(State()), now))
    {
      PruneOldEntries(now);
      PublishRates();
    }
  }

  // Where the one caller of the observers stands.  It reads the clock before it
  // waits for the lock, so the ticker can come in between.
  datatype Caller =
    | Idle
    | LogStamped(at: int)
    | LogSeen
    | TypeStamped(t: EventType, at: int)

  // A completed observation: when the log was stamped, and when its type was.
  datatype Observation = Observation(logAt: int, typed: Option<(EventType, int)>)

  datatype System = System(
    clock: int,
    caller: Caller,
    rates: RateState,
    seen: seq<Observation>,
    cutoff: Option<int>)

  // `now` is the clock reading taken inside the step; the clock never runs back.
  datatype Step =
    | StampLog(now: int)
    | CommitLog(now: int)
    | SkipType
    | StampType(t: EventType, now: int)
    | CommitType(now: int)
    | Ticker(now: int)

  function Init(clock: int): System {
    System(clock, Idle, RateState([], map[], 0, map[]), [], None)
  }

  predicate CanStep(s: System, step: Step) {
    match step
    case StampLog(now) => s.caller.Idle? && s.clock <= now
    case CommitLog(now) => s.caller.LogStamped? && s.clock <= now
    case SkipType => s.caller.LogSeen?
    case StampType(_, now) => s.caller.LogSeen? && s.clock <= now
    case CommitType(now) => s.caller.TypeStamped? && s.clock <= now
    case Ticker(now) => s.clock <= now
  }

  function Next(s: System, step: Step): System
    requires CanStep(s, step)
  {
    match step
    case StampLog(now) => s.(clock := now, caller := LogStamped(now))
    case CommitLog(now) =>
      s.(clock := now, caller := LogSeen, cutoff := Some(Cutoff(now)),
         rates := Publish(Prune(AddTotal(s.rates, s.caller.at), now)),
         seen := s.seen + [Observation(s.caller.at, None)])
    case SkipType => s.(caller := Idle)
    case StampType(t, now) => s.(clock := now, caller := TypeStamped(t, now))
    case CommitType(now) =>
      s.(clock := now, caller := Idle, cutoff := Some(Cutoff(now)),
         rates := Publish(Prune(AddType(s.rates, s.caller.t, s.caller.at), now)),
         seen := if s.seen == [] then []
                 else s.seen[..|s.seen| - 1]
                      + [s.seen[|s.seen| - 1].(typed := Some((s.caller.t, s.caller.at)))])
    case Ticker(now) => s.(clock := now, cutoff := Some(Cutoff(now)), rates := Publish(Prune(s.rates, now)))
  }

  predicate IsRun(clock: int, steps: seq<Step>)
    decreases |steps|, 0
  {
    if steps == [] then true
    else
      var before := steps[..|steps| - 1];
      IsRun(clock, before) && CanStep(Exec(clock, before), steps[|steps| - 1])
  }

  function Exec(clock: int, steps: seq<Step>): System
    requires IsRun(clock, steps)
    decreases |steps|, 1
  {
    if steps == [] then Init(clock) else Next(Exec(clock, steps[..|steps| - 1]), steps[|steps| - 1])
  }

  // All timestamps ever recorded: of logs, and of one event type.
  function LogTimes(seen: seq<Observation>): seq<int> {
    if seen == [] then [] else LogTimes(seen[..|seen| - 1]) + [seen[|seen| - 1].logAt]
  }

  function TypePart(o: Observation, t: EventType): seq<int> {
    if o.typed.Some? && o.typed.value.0 == t then [o.typed.value.1] else []
  }

  function TypeTimes(seen: seq<Observation>, t: EventType): seq<int> {
    if seen == [] then [] else TypeTimes(seen[..|seen| - 1], t) + TypePart(seen[|seen| - 1], t)
  }

  // Observations do not overlap: each log's stamps come after those of the one before.
  function LastStamp(o: Observation): int {
    if o.typed.Some? then o.typed.value.1 else o.logAt
  }

  ghost predicate Serial(seen: seq<Observation>, clock: int) {
    && (forall i :: 0 <= i < |seen| ==> seen[i].logAt <= LastStamp(seen[i]) <= clock)
    && (forall i, j :: 0 <= i < j < |seen| ==> LastStamp(seen[i]) <= seen[j].logAt)
  }

  // The recount of a history, before the first prune nothing is dropped.
  function Window(history: seq<int>, cutoff: Option<int>): seq<int> {
    if cutoff.None? then history else Recent(history, cutoff.value)
  }

  ghost predicate CallerInv(s: System) {
    match s.caller
    case Idle => true
    case LogStamped(at) => at <= s.clock && (s.seen != [] ==> LastStamp(s.seen[|s.seen| - 1]) <= at)
    case LogSeen => s.seen != [] && s.seen[|s.seen| - 1].typed.None?
    case TypeStamped(t, at) =>
      s.seen != [] && s.seen[|s.seen| - 1].typed.None? && s.seen[|s.seen| - 1].logAt <= at <= s.clock
  }

  ghost predicate Inv(s: System) {
    && Serial(s.seen, s.clock)
    && CallerInv(s)
    && (s.cutoff.None? ==> s.seen == [])
    && (s.cutoff.Some? ==> s.cutoff.value <= Cutoff(s.clock))
    && s.rates.total == Window(LogTimes(s.seen), s.cutoff)
    && s.rates.totalRate == |s.rates.total|
    && s.rates.typeRates.Keys == s.rates.byType.Keys
    && (forall t :: TypeOk(s, t))
  }

  // The deque and the gauge of one type: both exist once the type was seen, the
  // deque is the window of the type's history and the gauge is its length.
  ghost predicate TypeOk(s: System, t: EventType) {
    && (t in s.rates.byType <==> TypeTimes(s.seen, t) != [])
    && (t in s.rates.byType ==>
          s.rates.byType[t] == Window(TypeTimes(s.seen, t), s.cutoff)
          && t in s.rates.typeRates && s.rates.typeRates[t] == |s.rates.byType[t]|)
  }
}
