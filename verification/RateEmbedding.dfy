// The serial caller of the rate state is a frontfill run.
module RateEmbedding {
  import opened Base
  import opened Decode
  import opened LabelledCounts
  import opened Rates
  import opened RateResults
  import Storage
  import Frontfill
  import FrontfillRuns
  import FrontfillCounters

  // What the caller does at the rate state, without its clock readings.
  datatype Act = ReadsForLog | LogsIt | GoesOn | ReadsForType(t: EventType) | TypesIt

  datatype Stage = Between | LogRead | LogIn | TypeRead(t: EventType)

  // The caller's acts in some steps; the ticker's are left out.
  function Acts(steps: seq<Step>): seq<Act> {
    if steps == [] then []
    else
      Acts(steps[..|steps| - 1])
      + match steps[|steps| - 1]
        case StampLog(_) => [ReadsForLog]
        case CommitLog(_) => [LogsIt]
        case SkipType => [GoesOn]
        case StampType(t, _) => [ReadsForType(t)]
        case CommitType(_) => [TypesIt]
        case Ticker(_) => []
  }

  function StageAfter(stage: Stage, act: Act): Option<Stage> {
    match act
    case ReadsForLog => if stage.Between? then Some(LogRead) else None
    case LogsIt => if stage.LogRead? then Some(LogIn) else None
    case GoesOn => if stage.LogIn? then Some(Between) else None
    case ReadsForType(t) => if stage.LogIn? then Some(TypeRead(t)) else None
    case TypesIt => if stage.TypeRead? then Some(Between) else None
  }

  // Where a sequence of acts leads, if it is one that a serial caller can do.
  function StageOf(acts: seq<Act>): Option<Stage> {
    if acts == [] then Some(Between)
    else
      var before := StageOf(acts[..|acts| - 1]);
      if before.None? then None else StageAfter(before.value, acts[|acts| - 1])
  }

  function Clock(clock: int, step: Step): int {
    if step.SkipType? then clock else step.now
  }

  function LastClock(clock: int, steps: seq<Step>): int {
    if steps == [] then clock else Clock(LastClock(clock, steps[..|steps| - 1]), steps[|steps| - 1])
  }

  // The clock never runs back over the steps.
  predicate ClockAscends(clock: int, steps: seq<Step>) {
    steps == []
    || (&& ClockAscends(clock, steps[..|steps| - 1])
        && LastClock(clock, steps[..|steps| - 1]) <= LastClock(clock, steps))
  }

  function LogsDone(acts: seq<Act>): nat {
    if acts == [] then 0 else LogsDone(acts[..|acts| - 1]) + if acts[|acts| - 1].LogsIt? then 1 else 0
  }

  function TypesDone(acts: seq<Act>, t: EventType): nat {
    if acts == [] then 0
    else
      TypesDone(acts[..|acts| - 1], t)
      + if acts[|acts| - 1].TypesIt? && StageOf(acts[..|acts| - 1]) == Some(TypeRead(t)) then 1 else 0
  }

  predicate AtStage(caller: Caller, stage: Stage) {
    match caller
    case Idle => stage.Between?
    case LogStamped(_) => stage.LogRead?
    case LogSeen => stage.LogIn?
    case TypeStamped(t, _) => stage == TypeRead(t)
  }

  ghost predicate Reflects(s: System, acts: seq<Act>, clock: int) {
    && StageOf(acts).Some? && AtStage(s.caller, StageOf(acts).value)
    && s.clock == clock
    && |LogTimes(s.seen)| == LogsDone(acts)
    && forall t :: |TypeTimes(s.seen, t)| == TypesDone(acts, t)
  }

  lemma ActsSplit(acts: seq<Act>, step: Step)
    ensures if step.Ticker? then acts + Acts([step]) == acts
            else |Acts([step])| == 1 && (acts + Acts([step]))[..|acts|] == acts
                 && |acts + Acts([step])| == |acts| + 1 && (acts + Acts([step]))[|acts|] == Acts([step])[0]
  {
    OneAct(step);
  }

  // A step can be taken exactly if its act is the caller's turn.
  lemma StepEnabled(s: System, step: Step, acts: seq<Act>, clock: int)
    requires Reflects(s, acts, clock)
    ensures CanStep(s, step) <==> clock <= Clock(clock, step) && StageOf(acts + Acts([step])).Some?
    ensures CanStep(s, step) ==> AtStage(Next(s, step).caller, StageOf(acts + Acts([step])).value)
    ensures CanStep(s, step) ==> Next(s, step).clock == Clock(clock, step)
  {
    hide Publish, Prune, AddTotal, AddType, LogTimes, TypeTimes;
    OneAct(step);
    ActsSplit(acts, step);
  }

  // And it adds to the histories what the act says.
  lemma StepTimes(s: System, step: Step)
    requires Inv(s) && CanStep(s, step)
    ensures |LogTimes(Next(s, step).seen)| == |LogTimes(s.seen)| + if step.CommitLog? then 1 else 0
    ensures forall t :: |TypeTimes(Next(s, step).seen, t)|
                        == |TypeTimes(s.seen, t)| + if step.CommitType? && s.caller.t == t then 1 else 0
  {
    hide Publish, Prune, AddTotal, AddType, Serial, LogTimes, TypeTimes, TypeOk, Window;
    if step.CommitLog? {
      LogTimesSnoc(s.seen, Observation(s.caller.at, None));
    } else if step.CommitType? {
      var before, o := s.seen[..|s.seen| - 1], s.seen[|s.seen| - 1];
      assert s.seen == before + [o];
      TypedTimes(before, o, s.caller.t, s.caller.at);
    }
  }

  lemma ActCounts(s: System, step: Step, acts: seq<Act>)
    requires StageOf(acts).Some? && AtStage(s.caller, StageOf(acts).value) && CanStep(s, step)
    ensures LogsDone(acts + Acts([step])) == LogsDone(acts) + if step.CommitLog? then 1 else 0
    ensures forall t :: TypesDone(acts + Acts([step]), t)
                        == TypesDone(acts, t) + if step.CommitType? && s.caller.t == t then 1 else 0
  {
    OneAct(step);
    ActsSplit(acts, step);
  }

  lemma StepReflects(s: System, step: Step, acts: seq<Act>, clock: int)
    requires Reflects(s, acts, clock) && Inv(s)
    ensures CanStep(s, step) <==> clock <= Clock(clock, step) && StageOf(acts + Acts([step])).Some?
    ensures CanStep(s, step) ==> Reflects(Next(s, step), acts + Acts([step]), Clock(clock, step))
  {
    hide Next, CanStep, Inv, Acts, StageOf, LogsDone, TypesDone, LogTimes, TypeTimes, AtStage;
    StepEnabled(s, step, acts, clock);
    if CanStep(s, step) {
      StepTimes(s, step);
      ActCounts(s, step, acts);
    }
  }

  lemma OneAct(step: Step)
    ensures Acts([step]) == match step
                            case StampLog(_) => [ReadsForLog]
                            case CommitLog(_) => [LogsIt]
                            case SkipType => [GoesOn]
                            case StampType(t, _) => [ReadsForType(t)]
                            case CommitType(_) => [TypesIt]
                            case Ticker(_) => []
  {
    assert [step][..0] == [] && Acts([]) == [];
  }

  lemma ActsSnoc(steps: seq<Step>, step: Step)
    ensures Acts(steps + [step]) == Acts(steps) + Acts([step])
  {
    assert (steps + [step])[..|steps|] == steps;
    OneAct(step);
  }

  // The runs of the rate system are exactly the interleavings of a ticker with a
  // serial caller, on a clock that does not run back.
  lemma {:induction false} RunsAreSerial(clock: int, steps: seq<Step>)
    ensures IsRun(clock, steps) <==> ClockAscends(clock, steps) && StageOf(Acts(steps)).Some?
    ensures IsRun(clock, steps) ==> Reflects(Exec(clock, steps), Acts(steps), LastClock(clock, steps))
    decreases |steps|
  {
    hide Next, CanStep, Reflects, Acts, StageOf, LogsDone, TypesDone;
    if steps == [] {
      NothingYet(clock);
    } else {
      var before, step := steps[..|steps| - 1], steps[|steps| - 1];
      assert steps == before + [step];
      RunsAreSerial(clock, before);
      ActsSnoc(before, step);
      PrefixHasStage(Acts(before), Acts([step]));
      if IsRun(clock, before) {
        RunInv(clock, before);
        StepReflects(Exec(clock, before), step, Acts(before), LastClock(clock, before));
      }
    }
  }

  lemma NothingYet(clock: int)
    ensures StageOf(Acts([])) == Some(Between) && Reflects(Init(clock), Acts([]), clock)
  {
  }

  lemma {:induction false} PrefixHasStage(acts: seq<Act>, more: seq<Act>)
    ensures StageOf(acts + more).Some? ==> StageOf(acts).Some?
    decreases |more|
  {
    if more == [] {
      assert acts + more == acts;
    } else {
      assert (acts + more)[..|acts + more| - 1] == acts + more[..|more| - 1];
      PrefixHasStage(acts, more[..|more| - 1]);
    }
  }

  // --- the caller is a frontfill run ---

  // What one event of a frontfill run with metrics on does at the rate state.
  function ActsAt(flush: u64, s: Frontfill.State, event: Frontfill.Event): seq<Act> {
    if !event.LogArrived? || !event.log.Complete() then []
    else
      var seen := s.(metrics := s.metrics.ObserveLog());
      var rotated := Frontfill.RotateIfDue(flush, seen, event.log.blockNumber.value, event.rotateIo);
      if !rotated.mode.Exited? && DecodeLog(event.log).Event? then
        [ReadsForLog, LogsIt, ReadsForType(DecodeLog(event.log).event.eventType), TypesIt]
      else [ReadsForLog, LogsIt, GoesOn]
  }

  function RunActs(flush: u64, events: seq<Frontfill.Event>): seq<Act>
    requires Frontfill.IsRun(flush, true, events)
  {
    if events == [] then []
    else
      var before := events[..|events| - 1];
      RunActs(flush, before) + ActsAt(flush, Frontfill.Exec(flush, true, before), events[|events| - 1])
  }

  // These acts are a caller's turns, with one observation for each counted log.
  ghost predicate Serves(acts: seq<Act>, metrics: Frontfill.Metrics) {
    && StageOf(acts) == Some(Between)
    && LogsDone(acts) == metrics.logsTotal
    && forall t :: TypesDone(acts, t) == CountOf(metrics.logsByType, t)
  }

  lemma ThreeActs(acts: seq<Act>)
    requires StageOf(acts) == Some(Between)
    ensures var all := acts + [ReadsForLog, LogsIt, GoesOn];
            && StageOf(all) == Some(Between) && LogsDone(all) == LogsDone(acts) + 1
            && forall t :: TypesDone(all, t) == TypesDone(acts, t)
  {
    var one := acts + [ReadsForLog];
    var two := one + [LogsIt];
    var three := two + [GoesOn];
    assert one[..|acts|] == acts && two[..|one|] == one && three[..|two|] == two;
    assert three == acts + [ReadsForLog, LogsIt, GoesOn];
    assert StageOf(one) == Some(LogRead) && StageOf(two) == Some(LogIn);
    assert forall t :: TypesDone(one, t) == TypesDone(acts, t) && TypesDone(two, t) == TypesDone(one, t);
    assert LogsDone(one) == LogsDone(acts) && LogsDone(two) == LogsDone(one) + 1;
  }

  lemma FourActs(acts: seq<Act>, u: EventType)
    requires StageOf(acts) == Some(Between)
    ensures var all := acts + [ReadsForLog, LogsIt, ReadsForType(u), TypesIt];
            && StageOf(all) == Some(Between) && LogsDone(all) == LogsDone(acts) + 1
            && forall t :: TypesDone(all, t) == TypesDone(acts, t) + if t == u then 1 else 0
  {
    var one := acts + [ReadsForLog];
    var two := one + [LogsIt];
    var three := two + [ReadsForType(u)];
    var four := three + [TypesIt];
    assert one[..|acts|] == acts && two[..|one|] == one && three[..|two|] == two && four[..|three|] == three;
    assert four == acts + [ReadsForLog, LogsIt, ReadsForType(u), TypesIt];
    assert StageOf(one) == Some(LogRead) && StageOf(two) == Some(LogIn) && StageOf(three) == Some(TypeRead(u));
    assert forall t :: TypesDone(one, t) == TypesDone(acts, t) && TypesDone(two, t) == TypesDone(one, t)
                       && TypesDone(three, t) == TypesDone(two, t);
    assert LogsDone(one) == LogsDone(acts) && LogsDone(two) == LogsDone(one) + 1 && LogsDone(three) == LogsDone(two);
  }

  // The counters of an event, in the terms of its acts.
  lemma NextCounts(flush: u64, s: Frontfill.State, event: Frontfill.Event)
    requires s.metrics.enabled
    ensures var acts := ActsAt(flush, s, event);
            var metrics := Frontfill.Next(flush, s, event).metrics;
            && metrics.enabled
            && (acts == [] ==> metrics.logsTotal == s.metrics.logsTotal && metrics.logsByType == s.metrics.logsByType)
            && (acts != [] ==> metrics.logsTotal == s.metrics.logsTotal + 1)
            && (|acts| == 3 ==> acts == [ReadsForLog, LogsIt, GoesOn] && metrics.logsByType == s.metrics.logsByType)
            && (|acts| == 4 ==>
                  && acts[2].ReadsForType? && acts == [ReadsForLog, LogsIt, ReadsForType(acts[2].t), TypesIt]
                  && metrics.logsByType
                     == s.metrics.logsByType[acts[2].t := CountOf(s.metrics.logsByType, acts[2].t) + 1])
            && |acts| in {0, 3, 4}
  {
    hide Frontfill.RotateIfDue, Frontfill.Store, Frontfill.Next, DecodeLog;
    if event.LogArrived? && event.log.Complete() {
      LogCounts(flush, s, event);
    } else {
      QuietCounts(flush, s, event);
    }
  }

  lemma LogCounts(flush: u64, s: Frontfill.State, event: Frontfill.Event)
    requires s.metrics.enabled && event.LogArrived? && event.log.Complete()
    ensures var seen := s.(metrics := s.metrics.ObserveLog());
            var rotated := Frontfill.RotateIfDue(flush, seen, event.log.blockNumber.value, event.rotateIo);
            var metrics := Frontfill.Next(flush, s, event).metrics;
            && metrics.enabled && metrics.logsTotal == s.metrics.logsTotal + 1
            && metrics.logsByType
               == if !rotated.mode.Exited? && DecodeLog(event.log).Event? then
                    var t := DecodeLog(event.log).event.eventType;
                    s.metrics.logsByType[t := CountOf(s.metrics.logsByType, t) + 1]
                  else s.metrics.logsByType
  {
    hide Frontfill.RotateIfDue, Frontfill.Store, Frontfill.Next, DecodeLog, Storage.Rotate;
    var seen := s.(metrics := s.metrics.ObserveLog());
    var rotated := Frontfill.RotateIfDue(flush, seen, event.log.blockNumber.value, event.rotateIo);
    FrontfillRuns.NextOnLog(flush, s, event);
    FrontfillRuns.RotateCases(flush, seen, event.log.blockNumber.value, event.rotateIo);
    if !rotated.mode.Exited? {
      FrontfillCounters.StoreCases(rotated, event.log, event.writeIo);
    }
  }

  lemma QuietCounts(flush: u64, s: Frontfill.State, event: Frontfill.Event)
    requires s.metrics.enabled && !(event.LogArrived? && event.log.Complete())
    ensures var metrics := Frontfill.Next(flush, s, event).metrics;
            metrics.enabled && metrics.logsTotal == s.metrics.logsTotal && metrics.logsByType == s.metrics.logsByType
  {
    hide Frontfill.ReconnectDelay, Frontfill.OnInterrupt;
    if event.Interrupt? {
      InterruptCounts(s, event);
    }
  }

  lemma InterruptCounts(s: Frontfill.State, event: Frontfill.Event)
    requires s.metrics.enabled && event.Interrupt?
    ensures var metrics := Frontfill.OnInterrupt(s, event.signalOk, event.closeIo).metrics;
            metrics.enabled && metrics.logsTotal == s.metrics.logsTotal && metrics.logsByType == s.metrics.logsByType
  {
  }

  lemma {:induction false} RunServes(flush: u64, events: seq<Frontfill.Event>)
    requires Frontfill.IsRun(flush, true, events)
    ensures Serves(RunActs(flush, events), Frontfill.Exec(flush, true, events).metrics)
    ensures Frontfill.Exec(flush, true, events).metrics.enabled
    decreases |events|
  {
    hide Frontfill.Exec, Frontfill.IsRun, Frontfill.Next, Serves, ActsAt;
    if events == [] {
      NoneServed(flush);
    } else {
      var before, event := events[..|events| - 1], events[|events| - 1];
      Frontfill.ExecLast(flush, true, events);
      RunServes(flush, before);
      var s := Frontfill.Exec(flush, true, before);
      NextCounts(flush, s, event);
      ServesMore(RunActs(flush, before), ActsAt(flush, s, event), s.metrics, Frontfill.Next(flush, s, event).metrics);
    }
  }

  lemma NoneServed(flush: u64)
    ensures Frontfill.IsRun(flush, true, [])
    ensures Serves([], Frontfill.Exec(flush, true, []).metrics) && Frontfill.Exec(flush, true, []).metrics.enabled
  {
  }

  lemma ServesMore(acts: seq<Act>, more: seq<Act>, metrics: Frontfill.Metrics, metrics': Frontfill.Metrics)
    requires Serves(acts, metrics)
    requires more == [] || more == [ReadsForLog, LogsIt, GoesOn]
             || (|more| == 4 && more[2].ReadsForType?
                 && more == [ReadsForLog, LogsIt, ReadsForType(more[2].t), TypesIt])
    requires metrics'.logsTotal == metrics.logsTotal + if more == [] then 0 else 1
    requires metrics'.logsByType == if |more| == 4
                                    then metrics.logsByType[more[2].t := CountOf(metrics.logsByType, more[2].t) + 1]
                                    else metrics.logsByType
    ensures Serves(acts + more, metrics')
  {
    hide StageOf, LogsDone, TypesDone;
    if more == [] {
      assert acts + more == acts;
    } else if |more| == 3 {
      ThreeActs(acts);
    } else {
      FourActs(acts, more[2].t);
    }
  }

  // A frontfill run and the ticker, interleaved in any way on a clock that does
  // not run back, are a run of the rate system, and its histories have one
  // stamp for each log, and each typed log, that the run has counted.
  lemma FrontfillEmbedded(flush: u64, events: seq<Frontfill.Event>, clock: int, steps: seq<Step>)
    requires Frontfill.IsRun(flush, true, events)
    requires ClockAscends(clock, steps) && Acts(steps) == RunActs(flush, events)
    ensures IsRun(clock, steps)
    ensures var metrics := Frontfill.Exec(flush, true, events).metrics;
            var seen := Exec(clock, steps).seen;
            && |LogTimes(seen)| == metrics.logsTotal
            && forall t :: |TypeTimes(seen, t)| == CountOf(metrics.logsByType, t)
  {
    hide Frontfill.Exec, Frontfill.IsRun, Exec, IsRun, StageOf, LogsDone, TypesDone, LogTimes, TypeTimes, RunActs;
    RunServes(flush, events);
    RunsAreSerial(clock, steps);
  }

  // So once the rates were published, a type has a rate exactly if it was
  // counted, and no rate exceeds its counter.
  lemma RatesWithinCounters(flush: u64, events: seq<Frontfill.Event>, clock: int, steps: seq<Step>)
    requires Frontfill.IsRun(flush, true, events)
    requires ClockAscends(clock, steps) && Acts(steps) == RunActs(flush, events)
    requires IsRun(clock, steps) && Exec(clock, steps).cutoff.Some?
    ensures var metrics := Frontfill.Exec(flush, true, events).metrics;
            var rates := Exec(clock, steps).rates;
            && rates.totalRate <= metrics.logsTotal
            && forall t ::
                 && (t in rates.typeRates <==> CountOf(metrics.logsByType, t) > 0)
                 && (t in rates.typeRates ==> rates.typeRates[t] <= CountOf(metrics.logsByType, t))
  {
    hide Frontfill.Exec, Frontfill.IsRun, Exec, IsRun, LogTimes, TypeTimes, RunActs, Acts, ClockAscends, Recent;
    FrontfillEmbedded(flush, events, clock, steps);
    PublishedRatesAreRecounts(clock, steps);
    var s := Exec(clock, steps);
    RecentShorter(LogTimes(s.seen), s.cutoff.value);
    forall t ensures |Recent(TypeTimes(s.seen, t), s.cutoff.value)| <= |TypeTimes(s.seen, t)| {
      RecentShorter(TypeTimes(s.seen, t), s.cutoff.value);
    }
  }

  lemma {:induction false} RecentShorter(times: seq<int>, cutoff: int)
    ensures |Recent(times, cutoff)| <= |times|
  {
    if times != [] {
      RecentShorter(times[..|times| - 1], cutoff);
    }
  }
}
