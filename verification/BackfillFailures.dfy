// Which failures a backfill reports, and that it reports each once.
module BackfillFailures {
  import opened Base
  import opened Decode
  import opened ChunkRanges
  import opened ChunkTask
  import opened Backfill
  import opened BackfillData
  import opened BackfillProgress

  ghost predicate WriteFaulted(steps: seq<Step>, i: nat, t: EventType) {
    exists fault :: WriteErr(i, t, fault) in steps
  }

  // Chunk i has given cause for the failure f.
  ghost predicate Caused(env: Env, steps: seq<Step>, s: System, i: nat, f: Failure)
    requires |s.phases| == |env.ranges| && i < |env.ranges|
  {
    && f.range == env.ranges[i]
    && match f
       case FetchFailed(_) => FetchErr(i) in steps
       case WriteFailed(_, t) => WriteFaulted(steps, i, t)
       case MetadataMissing(_, count) =>
         var logs := ChunkLogs(env, i);
         var missing := |set n | 0 <= n < |logs| && DecodeLog(logs[n]).Event? && !logs[n].Complete()|;
         s.phases[i] == Done(true) && missing > 0 && count == Min(missing, U64_MAX)
  }

  ghost predicate SomeCause(env: Env, steps: seq<Step>, s: System, f: Failure)
    requires |s.phases| == |env.ranges|
  {
    exists i :: 0 <= i < |env.ranges| && Caused(env, steps, s, i, f)
  }

  ghost predicate Distinct(failures: seq<Failure>) {
    forall a, b :: 0 <= a < b < |failures| ==> failures[a] != failures[b]
  }

  // The list is exactly the failures that have a cause, without repetition; and a
  // chunk whose fetch failed is done with.
  ghost predicate Listed(env: Env, steps: seq<Step>, s: System) {
    && |s.phases| == |env.ranges|
    && (forall f :: f in s.failures <==> SomeCause(env, steps, s, f))
    && Distinct(s.failures)
    && (forall i :: 0 <= i < |env.ranges| && FetchErr(i) in steps ==> s.phases[i] == Done(false))
  }

  // The failure that a step reports, if any.
  function Report(env: Env, s: System, step: Step): Option<Failure>
    requires |s.phases| == |env.ranges| && CanStep(env, s, step)
  {
    match step
    case FetchErr(i) => Some(FetchFailed(env.ranges[i]))
    case WriteErr(i, t, _) => Some(WriteFailed(env.ranges[i], t))
    case Finish(i) =>
      if s.phases[i].missing > 0 then Some(MetadataMissing(env.ranges[i], s.phases[i].missing)) else None
    case _ => None
  }

  lemma NextFailures(env: Env, s: System, step: Step)
    requires |s.phases| == |env.ranges| && CanStep(env, s, step)
    ensures Next(env, s, step).failures
            == s.failures + if Report(env, s, step).Some? then [Report(env, s, step).value] else []
  {
    hide ChunkLogs, Incomplete, Grouped, InFlight, InBounds, FileOf;
  }

  lemma InSnoc(steps: seq<Step>, step: Step)
    ensures forall x :: x in steps + [step] <==> x in steps || x == step
  {
  }

  lemma FaultedSnoc(steps: seq<Step>, step: Step, i: nat, t: EventType)
    ensures WriteFaulted(steps + [step], i, t) <==>
            WriteFaulted(steps, i, t) || (step.WriteErr? && step.i == i && step.t == t)
  {
    if step.WriteErr? && step.i == i && step.t == t {
      assert WriteErr(i, t, step.fault) in steps + [step];
    }
    if WriteFaulted(steps, i, t) {
      var fault :| WriteErr(i, t, fault) in steps;
      assert WriteErr(i, t, fault) in steps + [step];
    }
  }

  lemma DoneByFinish(env: Env, s: System, step: Step, i: nat)
    requires |s.phases| == |env.ranges| && CanStep(env, s, step) && i < |env.ranges|
    ensures Next(env, s, step).phases[i] == Done(true) <==> s.phases[i] == Done(true) || step == Finish(i)
    ensures Next(env, s, step).phases[i] == Done(false) <==> s.phases[i] == Done(false) || step == FetchErr(i)
    ensures step == Finish(i) ==> s.phases[i].Writing?
    ensures step == FetchErr(i) ==> s.phases[i].Fetching?
  {
    hide ChunkLogs, Incomplete, Grouped, InFlight, InBounds, FileOf;
  }

  // A step gives cause for its own report, and for nothing else.
  lemma CauseSnoc(env: Env, steps: seq<Step>, s: System, step: Step, i: nat, f: Failure)
    requires env.Valid() && |s.phases| == |env.ranges| && CanStep(env, s, step) && i < |env.ranges|
    requires PhaseInv(env, s, i)
    ensures Caused(env, steps + [step], Next(env, s, step), i, f) <==>
            Caused(env, steps, s, i, f) || (Touches(step, i) && Report(env, s, step) == Some(f))
  {
    hide Next, CanStep, ChunkLogs, Incomplete, Grouped, Partitions, HonestBlocks, WriteFaulted, DecodeLog;
    IncompleteIsCount(ChunkLogs(env, i));
    InSnoc(steps, step);
    DoneByFinish(env, s, step, i);
    if f.WriteFailed? {
      FaultedSnoc(steps, step, i, f.eventType);
    }
  }

  lemma ReportTouches(env: Env, s: System, step: Step)
    requires |s.phases| == |env.ranges| && CanStep(env, s, step) && Report(env, s, step).Some?
    ensures !IsRefill(step) && step.i < |env.ranges| && Touches(step, step.i)
    ensures forall i :: Touches(step, i) ==> i == step.i
  {
    hide InFlight;
  }

  lemma SameChunks(env: Env, s: System, step: Step)
    requires |s.phases| == |env.ranges| && CanStep(env, s, step)
    ensures |Next(env, s, step).phases| == |env.ranges|
  {
    hide InFlight;
  }

  lemma ListedSnoc(env: Env, steps: seq<Step>, s: System, step: Step, f: Failure)
    requires env.Valid() && |s.phases| == |env.ranges| && CanStep(env, s, step)
    requires forall i :: 0 <= i < |env.ranges| ==> PhaseInv(env, s, i)
    ensures SomeCause(env, steps + [step], Next(env, s, step), f) <==>
            SomeCause(env, steps, s, f) || Report(env, s, step) == Some(f)
  {
    hide Next, CanStep, Caused, Report, PhaseInv, Partitions, HonestBlocks, Touches;
    SameChunks(env, s, step);
    forall i | 0 <= i < |env.ranges|
      ensures Caused(env, steps + [step], Next(env, s, step), i, f) <==>
              Caused(env, steps, s, i, f) || (Touches(step, i) && Report(env, s, step) == Some(f))
    {
      CauseSnoc(env, steps, s, step, i, f);
    }
    if Report(env, s, step).Some? {
      ReportTouches(env, s, step);
      assert Touches(step, step.i);
    }
  }

  // What a step reports has not been reported before.
  lemma ReportIsNew(env: Env, steps: seq<Step>, s: System, step: Step)
    requires env.Valid() && Inv(env, s) && Listed(env, steps, s) && CanStep(env, s, step)
    requires Report(env, s, step).Some?
    ensures Report(env, s, step).value !in s.failures
  {
    ReportTouches(env, s, step);
    var i, f := step.i, Report(env, s, step).value;
    assert PhaseInv(env, s, i) && f.range == env.ranges[i];
    if step.WriteErr? {
      assert FileInv(env, s, i, step.t);
      hide ChunkLogs, Incomplete, Partitions, HonestBlocks, InFlight, AsBefore, ChunkFile;
      assert !Settled(env, s, i, step.t);
    } else {
      hide ChunkLogs, Incomplete, Grouped, Partitions, HonestBlocks, InFlight, FileInv;
      if f in s.failures {
        var j :| 0 <= j < |env.ranges| && Caused(env, steps, s, j, f);
        if j != i {
          RangesDistinct(env, i, j);
        }
      }
    }
  }

  lemma DistinctSnoc(failures: seq<Failure>, f: Failure)
    requires Distinct(failures) && f !in failures
    ensures Distinct(failures + [f])
  {
  }

  lemma FetchFailuresDone(env: Env, steps: seq<Step>, s: System, step: Step, i: nat)
    requires |s.phases| == |env.ranges| && CanStep(env, s, step) && i < |env.ranges|
    requires FetchErr(i) in steps ==> s.phases[i] == Done(false)
    ensures FetchErr(i) in steps + [step] ==> Next(env, s, step).phases[i] == Done(false)
  {
    hide Next, CanStep;
    InSnoc(steps, step);
    DoneByFinish(env, s, step, i);
  }

  lemma StepKeepsListed(env: Env, steps: seq<Step>, s: System, step: Step)
    requires env.Valid() && Inv(env, s) && Listed(env, steps, s) && CanStep(env, s, step)
    ensures Listed(env, steps + [step], Next(env, s, step))
  {
    NextFailures(env, s, step);
    if Report(env, s, step).Some? {
      ReportIsNew(env, steps, s, step);
      DistinctSnoc(s.failures, Report(env, s, step).value);
    }
    forall i | 0 <= i < |env.ranges| && FetchErr(i) in steps + [step]
      ensures Next(env, s, step).phases[i] == Done(false)
    {
      FetchFailuresDone(env, steps, s, step, i);
    }
    hide Next, CanStep, SomeCause, Report, PhaseInv, FileInv, AsBefore, Distinct, Partitions, HonestBlocks;
    forall f ensures f in Next(env, s, step).failures <==> SomeCause(env, steps + [step], Next(env, s, step), f) {
      ListedSnoc(env, steps, s, step, f);
    }
  }

  // In every state of every run the failure list has an entry for each fetch that
  // failed, for each chunk and type whose write failed, and for each finished chunk
  // with its number of decoded logs that lack metadata; it has no other entry, and
  // none twice.
  lemma {:induction false} FailuresExactly(env: Env, steps: seq<Step>)
    requires env.Valid() && IsRun(env, steps)
    ensures Listed(env, steps, Exec(env, steps))
    decreases |steps|
  {
    hide Listed, Next, CanStep, Inv, Partitions, HonestBlocks;
    if steps == [] {
      NothingListed(env);
    } else {
      var before, step := steps[..|steps| - 1], steps[|steps| - 1];
      assert steps == before + [step];
      FailuresExactly(env, before);
      RunKeepsFiles(env, before);
      StepKeepsListed(env, before, Exec(env, before), step);
    }
  }

  lemma NothingListed(env: Env)
    ensures Listed(env, [], Init(env))
  {
    hide Incomplete, ChunkLogs;
  }

  // A finished run is clean for every type exactly if no fetch and no write in it
  // has failed, whether or not logs lacked metadata.
  lemma CleanExactly(env: Env, steps: seq<Step>)
    requires env.Valid() && IsRun(env, steps) && Terminal(Exec(env, steps))
    ensures (forall t :: Clean(env, Exec(env, steps), t)) <==> forall step :: step in steps ==> !IsError(step)
  {
    FailuresExactly(env, steps);
    var s := Exec(env, steps);
    hide Exec, Terminal, Incomplete, ChunkLogs, Distinct, Partitions, HonestBlocks;
    if forall step :: step in steps ==> !IsError(step) {
      forall t, range | range in env.ranges
        ensures FetchFailed(range) !in s.failures && WriteFailed(range, t) !in s.failures
      {
        NoCause(env, steps, s, FetchFailed(range));
        NoCause(env, steps, s, WriteFailed(range, t));
      }
    } else {
      var step :| step in steps && IsError(step);
      StepsInRange(env, steps, step);
      ErrorIsListed(env, steps, s, step);
    }
  }

  lemma NoCause(env: Env, steps: seq<Step>, s: System, f: Failure)
    requires |s.phases| == |env.ranges| && !f.MetadataMissing?
    requires forall step :: step in steps ==> !IsError(step)
    ensures !SomeCause(env, steps, s, f)
  {
    hide Incomplete, ChunkLogs;
  }

  lemma {:induction false} StepsInRange(env: Env, steps: seq<Step>, step: Step)
    requires IsRun(env, steps) && step in steps && !IsRefill(step)
    ensures step.i < |env.ranges|
    decreases |steps|
  {
    hide InFlight, Next;
    var before := steps[..|steps| - 1];
    if step in before {
      StepsInRange(env, before, step);
    } else {
      assert step == steps[|steps| - 1];
    }
  }

  lemma ErrorIsListed(env: Env, steps: seq<Step>, s: System, step: Step)
    requires Listed(env, steps, s) && step in steps && IsError(step) && step.i < |env.ranges|
    ensures exists t :: !Clean(env, s, t)
  {
    hide Incomplete, ChunkLogs, Distinct;
    var range := env.ranges[step.i];
    if step.FetchErr? {
      assert Caused(env, steps, s, step.i, FetchFailed(range));
      assert FetchFailed(range) in s.failures;
      assert !Clean(env, s, OrderFilled);
    } else {
      assert WriteErr(step.i, step.t, step.fault) in steps;
      assert Caused(env, steps, s, step.i, WriteFailed(range, step.t));
      assert WriteFailed(range, step.t) in s.failures;
      assert !Clean(env, s, step.t);
    }
  }

  // The file of a failed write is as it was if it was not created, and otherwise
  // torn, from that step on.
  lemma {:induction false} FailedWriteLeaves(env: Env, steps: seq<Step>, i: nat, t: EventType, fault: Fault)
    requires env.Valid() && IsRun(env, steps) && i < |env.ranges| && WriteErr(i, t, fault) in steps
    ensures var files, name := Exec(env, steps).files, FileName(t, env.ranges[i]);
            if fault.NotCreated? then AsBefore(env, files, name) else name in files && files[name] == Torn
    decreases |steps|
  {
    hide Next, CanStep, Inv, Partitions, HonestBlocks, Settled, Listed;
    var before, step := steps[..|steps| - 1], steps[|steps| - 1];
    assert steps == before + [step];
    var s := Exec(env, before);
    RunKeepsFiles(env, before);
    if WriteErr(i, t, fault) in before {
      FailedWriteLeaves(env, before, i, t, fault);
      FailuresExactly(env, before);
      FaultedIsSettled(env, before, s, i, t, fault);
      SettledStays(env, s, step, i, t);
    } else {
      FaultEffect(env, s, i, t, fault);
    }
  }

  lemma FaultedIsSettled(env: Env, steps: seq<Step>, s: System, i: nat, t: EventType, fault: Fault)
    requires Inv(env, s) && Listed(env, steps, s) && i < |env.ranges| && WriteErr(i, t, fault) in steps
    ensures Settled(env, s, i, t)
  {
    hide ChunkLogs, AsBefore, ChunkFile, PhaseInv, Settled;
    assert Caused(env, steps, s, i, WriteFailed(env.ranges[i], t));
    assert FileInv(env, s, i, t);
  }

  lemma SettledStays(env: Env, s: System, step: Step, i: nat, t: EventType)
    requires env.Valid() && |s.phases| == |env.ranges| && i < |env.ranges|
    requires CanStep(env, s, step) && Settled(env, s, i, t)
    ensures var files, files', name := s.files, Next(env, s, step).files, FileName(t, env.ranges[i]);
            (name in files' <==> name in files) && (name in files' ==> files'[name] == files[name])
  {
    hide ChunkLogs, Grouped, Incomplete, InFlight, InBounds, FileOf, ChunkFile, Partitions, HonestBlocks;
    if (step.WriteOk? || step.WriteErr?) && step.i != i {
      RangesDistinct(env, step.i, i);
    }
  }

  lemma FaultEffect(env: Env, s: System, i: nat, t: EventType, fault: Fault)
    requires Inv(env, s) && i < |env.ranges| && CanStep(env, s, WriteErr(i, t, fault))
    ensures var files, name := Next(env, s, WriteErr(i, t, fault)).files, FileName(t, env.ranges[i]);
            if fault.NotCreated? then AsBefore(env, files, name) else name in files && files[name] == Torn
  {
    assert FileInv(env, s, i, t) && !Settled(env, s, i, t) by {
      hide ChunkLogs, Grouped, AsBefore, ChunkFile, InFlight;
    }
    hide ChunkLogs, Grouped, ChunkFile, InFlight, Settled;
  }

  // So a backfill without a failing fetch or write leaves one stable sort of the
  // complete rows of the range, also when logs that lack metadata make it return
  // an error.
  lemma FaultFreeRefinesSequentialSort(env: Env, steps: seq<Step>, t: EventType)
    requires env.Valid() && IsRun(env, steps) && Terminal(Exec(env, steps))
    requires forall step :: step in steps ==> !IsError(step)
    ensures DataOnDisk(env, Exec(env, steps), t) == Reference(env.chain, env.start, env.end, t) <==> NoStaleRows(env, t)
  {
    hide *;
    CleanExactly(env, steps);
    BackfillRefinesSequentialSort(env, steps, t);
  }
}
