// The steps of one chunk task, taken together, are the sequential task.
module BackfillChunk {
  import opened Base
  import opened Decode
  import opened ChunkTask
  import opened Backfill
  import opened BackfillProgress

  // The chunk has written the types in `done`, of which those with a fault failed.
  ghost predicate HasWritten(env: Env, s: System, s': System, i: nat, done: set<EventType>,
                             faults: map<EventType, Fault>, reports: seq<Failure>)
    requires |s.phases| == |env.ranges| && i < |env.ranges|
  {
    var logs, range := ChunkLogs(env, i), env.ranges[i];
    && done <= Grouped(logs).Keys
    && s'.phases == s.phases[i := Writing(Grouped(logs) - done, Min(Incomplete(logs), U64_MAX))]
    && s'.limiter == s.limiter
    && s'.files == s.files + ChunkFiles(range, done, faults, logs)
    && s'.failures == s.failures + reports
    && multiset(reports) == multiset(WriteErrors(range, done * faults.Keys))
  }

  function WriteStep(i: nat, t: EventType, faults: map<EventType, Fault>): Step {
    if t in faults then WriteErr(i, t, faults[t]) else WriteOk(i, t)
  }

  lemma NextWrite(env: Env, s: System, i: nat, t: EventType, faults: map<EventType, Fault>)
    requires |s.phases| == |env.ranges| && i < |env.ranges| && PhaseInv(env, s, i)
    requires s.phases[i].Writing? && t in s.phases[i].left
    ensures CanStep(env, s, WriteStep(i, t, faults))
    ensures Next(env, s, WriteStep(i, t, faults))
            == s.(phases := s.phases[i := Writing(s.phases[i].left - {t}, s.phases[i].missing)],
                  files := AfterWrite(s.files, env.ranges[i], t, FaultOf(faults, t), ChunkLogs(env, i)),
                  failures := s.failures + if t in faults then [WriteFailed(env.ranges[i], t)] else [])
  {
    hide ChunkLogs, Incomplete, Grouped, ChunkFile, InBounds, FileOf, InFlight, PhaseInv;
    if t !in faults {
      WriteEffect(env, s, i, t);
      hide Next;
    }
  }

  lemma WrittenPhase(env: Env, s: System, s': System, i: nat, done: set<EventType>, faults: map<EventType, Fault>,
                     reports: seq<Failure>)
    requires |s.phases| == |env.ranges| && i < |env.ranges| && HasWritten(env, s, s', i, done, faults, reports)
    ensures PhaseInv(env, s', i)
  {
    hide ChunkLogs, Incomplete, Grouped, ChunkFiles, WriteErrors;
  }

  lemma WritesOne(env: Env, s: System, s': System, i: nat, done: set<EventType>, faults: map<EventType, Fault>,
                  reports: seq<Failure>, t: EventType)
    requires |s.phases| == |env.ranges| && i < |env.ranges|
    requires HasWritten(env, s, s', i, done, faults, reports) && t in Grouped(ChunkLogs(env, i)) && t !in done
    ensures CanStep(env, s', WriteStep(i, t, faults))
    ensures HasWritten(env, s, Next(env, s', WriteStep(i, t, faults)), i, done + {t}, faults,
                       reports + if t in faults then [WriteFailed(env.ranges[i], t)] else [])
  {
    hide ChunkLogs, Incomplete, Grouped, ChunkFile, ChunkFiles, WriteErrors, InFlight, PhaseInv, Next, CanStep,
         WriteStep;
    var logs := ChunkLogs(env, i);
    WrittenPhase(env, s, s', i, done, faults, reports);
    NextWrite(env, s', i, t, faults);
    OneMoreFile(s.files, env.ranges[i], done, faults, t, logs);
    OneMoreReport(env.ranges[i], done, faults.Keys, t);
    assert Grouped(logs) - (done + {t}) == Grouped(logs) - done - {t};
  }

  lemma Opens(env: Env, s: System, i: nat, faults: map<EventType, Fault>)
    requires |s.phases| == |env.ranges| && i < |env.ranges| && s.phases[i].Fetching?
    ensures CanStep(env, s, FetchOk(i))
    ensures var s1 := Next(env, s, FetchOk(i));
            CanStep(env, s1, Process(i)) && HasWritten(env, s, Next(env, s1, Process(i)), i, {}, faults, [])
  {
    hide ChunkLogs, Incomplete, Grouped, ChunkFiles, WriteErrors, InFlight;
    NoTypeYet(env.ranges[i], faults, ChunkLogs(env, i));
    var logs := ChunkLogs(env, i);
    var writing := Writing(Grouped(logs), Min(Incomplete(logs), U64_MAX));
    assert Grouped(logs) - {} == Grouped(logs);
    assert s.phases[i := Fetched(logs)][i := writing] == s.phases[i := writing];
  }

  lemma Finishes(env: Env, s: System, s': System, i: nat, faults: map<EventType, Fault>, reports: seq<Failure>)
    requires |s.phases| == |env.ranges| && i < |env.ranges|
    requires HasWritten(env, s, s', i, Grouped(ChunkLogs(env, i)).Keys, faults, reports)
    ensures CanStep(env, s', Finish(i))
    ensures var done := Next(env, s', Finish(i));
            && done.phases == s.phases[i := Done(true)] && done.limiter == s.limiter
            && ChunkEffect(env.ranges[i], ChunkLogs(env, i), faults, s.files, s.failures,
                           done.files, done.failures, reports)
  {
    var logs := ChunkLogs(env, i);
    assert Grouped(logs) - Grouped(logs).Keys == map[];
    hide ChunkLogs, Incomplete, Grouped, ChunkFiles, WriteErrors, InFlight;
  }

  // From any reachable state, a chunk whose fetch is out can be run to its end
  // on its own, for every assignment of faults to types, and then has
  // exactly the effect that `RunChunk` has on its directory and failure list.
  lemma ChunkStepsAreRunChunk(env: Env, before: seq<Step>, i: nat, faults: map<EventType, Fault>)
    returns (steps: seq<Step>, reports: seq<Failure>)
    requires IsRun(env, before) && i < |env.ranges| && Exec(env, before).phases[i].Fetching?
    ensures IsRun(env, before + steps) && forall step :: step in steps ==> Touches(step, i)
    ensures var s, s' := Exec(env, before), Exec(env, before + steps);
            && s'.phases == s.phases[i := Done(true)] && s'.limiter == s.limiter
            && ChunkEffect(env.ranges[i], ChunkLogs(env, i), faults, s.files, s.failures,
                           s'.files, s'.failures, reports)
  {
    hide *;
    var s := Exec(env, before);
    Opens(env, s, i, faults);
    OwnSteps(i);
    steps := [];
    assert before + steps == before;
    OneMoreStep(env, before, steps, FetchOk(i));
    steps := steps + [FetchOk(i)];
    OneMoreStep(env, before, steps, Process(i));
    steps := steps + [Process(i)];
    reports := [];
    var done, types: set<EventType> := {}, Grouped(ChunkLogs(env, i)).Keys;
    var left := types;
    while left != {}
      invariant done <= types && left == types - done
      invariant IsRun(env, before + steps) && forall step :: step in steps ==> Touches(step, i)
      invariant HasWritten(env, s, Exec(env, before + steps), i, done, faults, reports)
      decreases left
    {
      var t :| t in left;
      WritesOne(env, s, Exec(env, before + steps), i, done, faults, reports, t);
      OneMoreStep(env, before, steps, WriteStep(i, t, faults));
      steps := steps + [WriteStep(i, t, faults)];
      reports := reports + if t in faults then [WriteFailed(env.ranges[i], t)] else [];
      done := done + {t};
      left := left - {t};
    }
    assert done == types;
    Finishes(env, s, Exec(env, before + steps), i, faults, reports);
    OneMoreStep(env, before, steps, Finish(i));
    steps := steps + [Finish(i)];
  }

  lemma OwnSteps(i: nat)
    ensures Touches(FetchOk(i), i) && Touches(Process(i), i) && Touches(Finish(i), i)
    ensures forall t, faults :: Touches(WriteStep(i, t, faults), i)
  {
  }

  lemma OneMoreStep(env: Env, before: seq<Step>, steps: seq<Step>, step: Step)
    requires IsRun(env, before + steps) && CanStep(env, Exec(env, before + steps), step)
    ensures IsRun(env, before + (steps + [step]))
    ensures Exec(env, before + (steps + [step])) == Next(env, Exec(env, before + steps), step)
  {
    hide *;
    ExtendRun(env, before + steps, step);
    assert before + (steps + [step]) == before + steps + [step];
  }
}
