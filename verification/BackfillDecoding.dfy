// Logs that fail to decode are skipped without a trace.
module BackfillDecoding {
  import opened Decode
  import opened Rows
  import opened ChunkRanges
  import opened ChunkTask
  import opened Backfill
  import opened BackfillData
  import opened BackfillProgress

  // The logs that `decode_log` does not answer with an error.
  function Decodable(logs: seq<Log>): seq<Log> {
    if logs == [] then []
    else
      var last := logs[|logs| - 1];
      Decodable(logs[..|logs| - 1]) + if DecodeLog(last).DecodeError? then [] else [last]
  }

  // To a chunk, logs that fail to decode make no difference.
  lemma {:induction false} DecodableLogs(logs: seq<Log>, t: EventType)
    ensures RowsOf(t, Decodable(logs)) == RowsOf(t, logs)
    ensures Incomplete(Decodable(logs)) == Incomplete(logs)
  {
    hide DecodeLog, RowsOf, Incomplete, RowOf, Names, Values, ColumnNames;
    if logs == [] {
      assert Decodable(logs) == logs;
    } else {
      var before, last := logs[..|logs| - 1], logs[|logs| - 1];
      assert logs == before + [last];
      DecodableLogs(before, t);
      RowsOfSnoc(t, before, last);
      IncompleteSnoc(before, last);
      RowsOfSnoc(t, Decodable(before), last);
      IncompleteSnoc(Decodable(before), last);
      assert Decodable(logs) == if DecodeLog(last).DecodeError? then Decodable(before) else Decodable(before) + [last];
    }
  }

  lemma DecodableGroups(logs: seq<Log>)
    ensures Grouped(Decodable(logs)) == Grouped(logs) && Incomplete(Decodable(logs)) == Incomplete(logs)
  {
    hide DecodeLog, RowsOf, Incomplete, Decodable, ColumnNames;
    forall t ensures RowsOf(t, Decodable(logs)) == RowsOf(t, logs) {
      DecodableLogs(logs, t);
    }
    DecodableLogs(logs, OrderFilled);
  }

  // The chain without the logs that fail to decode.
  function DecodableChain(chain: seq<ChainLog>): seq<ChainLog> {
    if chain == [] then []
    else
      var last := chain[|chain| - 1];
      DecodableChain(chain[..|chain| - 1]) + if DecodeLog(last.log).DecodeError? then [] else [last]
  }

  lemma {:induction false} DecodableLogsIn(chain: seq<ChainLog>, range: Range)
    ensures LogsIn(DecodableChain(chain), range) == Decodable(LogsIn(chain, range))
  {
    hide DecodeLog, LogsIn, Decodable;
    if chain == [] {
      assert LogsIn([], range) == [] && Decodable([]) == [] by { NoLogs(range); }
      assert DecodableChain(chain) == chain;
    } else {
      var before, last := chain[..|chain| - 1], chain[|chain| - 1];
      assert chain == before + [last];
      DecodableLogsIn(before, range);
      LogsInSnoc(before, last, range);
      LogsInSnoc(DecodableChain(before), last, range);
      DecodableSnoc(LogsIn(before, range), last.log);
      assert DecodableChain(chain)
          == if DecodeLog(last.log).DecodeError? then DecodableChain(before) else DecodableChain(before) + [last];
    }
  }

  lemma NoLogs(range: Range)
    ensures LogsIn([], range) == [] && Decodable([]) == []
  {
  }

  lemma DecodableSnoc(logs: seq<Log>, log: Log)
    ensures Decodable(logs + [log]) == if DecodeLog(log).DecodeError? then Decodable(logs) else Decodable(logs) + [log]
  {
    hide DecodeLog;
    assert (logs + [log])[..|logs|] == logs;
  }

  function Without(env: Env): Env {
    env.(chain := DecodableChain(env.chain))
  }

  function Stripped(p: Phase): Phase {
    if p.Fetched? then Fetched(Decodable(p.logs)) else p
  }

  // The two runs differ in the logs they have fetched but not yet processed.
  ghost predicate Alike(s: System, s': System) {
    && |s'.phases| == |s.phases|
    && (forall i :: 0 <= i < |s.phases| ==> s'.phases[i] == Stripped(s.phases[i]))
    && s'.limiter == s.limiter && s'.files == s.files && s'.failures == s.failures
  }

  lemma SameInFlight(s: System, s': System)
    requires Alike(s, s')
    ensures InFlight(s'.phases) == InFlight(s.phases)
  {
    hide Decodable;
    InFlightIsSum(s.phases);
    InFlightIsSum(s'.phases);
    assert ActiveFlags(s'.phases) == ActiveFlags(s.phases);
  }

  lemma AlikeEnabled(env: Env, s: System, s': System, step: Step)
    requires Alike(s, s') && |s.phases| == |env.ranges|
    ensures CanStep(Without(env), s', step) <==> CanStep(env, s, step)
  {
    SameInFlight(s, s');
    hide Decodable, DecodableChain, InFlight;
  }

  lemma AlikeNext(env: Env, s: System, s': System, step: Step)
    requires Alike(s, s') && |s.phases| == |env.ranges| && CanStep(env, s, step) && CanStep(Without(env), s', step)
    ensures Alike(Next(env, s, step), Next(Without(env), s', step))
  {
    hide Decodable, DecodableChain, InFlight, Grouped, Incomplete, LogsIn, InBounds, FileOf;
    if step.FetchOk? {
      DecodableLogsIn(env.chain, env.ranges[step.i]);
    } else if step.Process? {
      DecodableGroups(s.phases[step.i].logs);
    }
  }

  // A backfill cannot tell that logs have failed to decode: over the chain that
  // never had them the same steps are a run, they leave the same files, and they
  // report the same failures.
  lemma {:induction false} DecodeErrorsAreSilent(env: Env, steps: seq<Step>)
    ensures IsRun(Without(env), steps) <==> IsRun(env, steps)
    ensures IsRun(env, steps) ==>
              && Exec(Without(env), steps).files == Exec(env, steps).files
              && Exec(Without(env), steps).failures == Exec(env, steps).failures
              && (Terminal(Exec(Without(env), steps)) <==> Terminal(Exec(env, steps)))
    decreases |steps|
  {
    RunsAlike(env, steps);
    hide Exec, IsRun, Decodable;
  }

  lemma {:induction false} RunsAlike(env: Env, steps: seq<Step>)
    ensures IsRun(Without(env), steps) <==> IsRun(env, steps)
    ensures IsRun(env, steps) ==> Alike(Exec(env, steps), Exec(Without(env), steps))
    decreases |steps|
  {
    hide Alike, Next, CanStep, Without;
    if steps == [] {
      InitsAlike(env);
    } else {
      var before, step := steps[..|steps| - 1], steps[|steps| - 1];
      RunsAlike(env, before);
      SameRanges(env);
      if IsRun(env, before) {
        AlikeEnabled(env, Exec(env, before), Exec(Without(env), before), step);
        if CanStep(env, Exec(env, before), step) {
          AlikeNext(env, Exec(env, before), Exec(Without(env), before), step);
        }
      }
    }
  }

  lemma SameRanges(env: Env)
    ensures Without(env).ranges == env.ranges
  {
  }

  lemma InitsAlike(env: Env)
    ensures Alike(Init(env), Init(Without(env)))
  {
  }
}
