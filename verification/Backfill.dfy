// src/backfill.rs: `run` after its set-up, as a system of interleaved steps.
module Backfill {
  import opened Base
  import opened Decode
  import opened Rows
  import opened StableSort
  import opened ChunkRanges
  import opened RateLimiting
  import opened ChunkTask

  // A log of the chain together with the block it really is in.
  datatype ChainLog = ChainLog(block: u64, log: Log)

  // What stays fixed during a run.
  datatype Env = Env(
    start: u64,
    end: u64,
    ranges: seq<Range>,
    parallelism: nat,
    rate: nat,
    chain: seq<ChainLog>,
    directory: map<FileName, ParquetFile>)  // what the output directory holds before the run
  {
    // The checks at the head of `run`, what `chunk_ranges` delivers, and the one
    // assumption about the provider: a reported block number is the real one.
    ghost predicate Valid() {
      && Partitions(ranges, start, end)
      && parallelism > 0
      && rate > 0
      && HonestBlocks(chain)
    }
  }

  ghost predicate HonestBlocks(chain: seq<ChainLog>) {
    forall n :: 0 <= n < |chain| && chain[n].log.blockNumber.Some? ==>
                  chain[n].log.blockNumber.value == chain[n].block
  }

  // The provider's answer to a range query: the logs of those blocks, in chain order.
  function LogsIn(chain: seq<ChainLog>, range: Range): seq<Log> {
    if chain == [] then []
    else
      var last := chain[|chain| - 1];
      LogsIn(chain[..|chain| - 1], range) + if range.Contains(last.block) then [last.log] else []
  }

  function ChunkLogs(env: Env, i: nat): seq<Log>
    requires i < |env.ranges|
  {
    LogsIn(env.chain, env.ranges[i])
  }

  // Where a chunk task stands.
  datatype Phase =
    | Waiting                                                    // not yet taken from the stream
    | Acquiring                                                  // waits for a permit
    | Fetching                                                   // the request is out
    | Fetched(logs: seq<Log>)
    | Writing(left: map<EventType, Group>, missing: u64)         // files still to write
    | Done(fetched: bool)
    | Panicked

  datatype System = System(
    phases: seq<Phase>,
    limiter: Limiter,
    files: map<FileName, ParquetFile>,
    failures: seq<Failure>)

  // One atomic step; WriteOk and WriteErr name any type that is left, so the
  // map is visited in an arbitrary order.
  datatype Step =
    | Start(i: nat)
    | Grant(i: nat)
    | FetchOk(i: nat)
    | FetchErr(i: nat)
    | Process(i: nat)
    | WriteOk(i: nat, t: EventType)
    | WriteErr(i: nat, t: EventType, fault: Fault)
    | Finish(i: nat)
    | RefillRead
    | RefillAdd

  predicate IsRefill(step: Step) {
    step.RefillRead? || step.RefillAdd?
  }

  predicate Active(p: Phase) {
    !p.Waiting? && !p.Done?
  }

  function InFlight(phases: seq<Phase>): nat {
    Sum(seq(|phases|, i requires 0 <= i < |phases| => if Active(phases[i]) then 1 else 0))
  }

  function Init(env: Env): System {
    System(seq(|env.ranges|, i => Waiting), Fresh(env.rate), env.directory, [])
  }

  predicate CanStep(env: Env, s: System, step: Step)
    requires |s.phases| == |env.ranges|
  {
    match step
    case Start(i) =>
      && i < |s.phases| && s.phases[i].Waiting?
      && (forall j :: 0 <= j < i ==> !s.phases[j].Waiting?)
      && InFlight(s.phases) < env.parallelism
    case Grant(i) => i < |s.phases| && s.phases[i].Acquiring? && Enabled(s.limiter, Acquire)
    case FetchOk(i) => i < |s.phases| && s.phases[i].Fetching?
    case FetchErr(i) => i < |s.phases| && s.phases[i].Fetching?
    case Process(i) => i < |s.phases| && s.phases[i].Fetched?
    case WriteOk(i, t) => i < |s.phases| && s.phases[i].Writing? && t in s.phases[i].left
    case WriteErr(i, t, _) => i < |s.phases| && s.phases[i].Writing? && t in s.phases[i].left
    case Finish(i) => i < |s.phases| && s.phases[i].Writing? && s.phases[i].left == map[]
    case RefillRead => Enabled(s.limiter, ReadAvailable)
    case RefillAdd => Enabled(s.limiter, AddMissing)
  }

  ghost function Next(env: Env, s: System, step: Step): System
    requires |s.phases| == |env.ranges| && CanStep(env, s, step)
  {
    match step
    case Start(i) => s.(phases := s.phases[i := Acquiring])
    case Grant(i) => s.(phases := s.phases[i := Fetching], limiter := Apply(s.limiter, Acquire))
    case FetchOk(i) => s.(phases := s.phases[i := Fetched(ChunkLogs(env, i))])
    case FetchErr(i) =>
      s.(phases := s.phases[i := Done(false)], failures := s.failures + [FetchFailed(env.ranges[i])])
    case Process(i) =>
      var logs := s.phases[i].logs;
      s.(phases := s.phases[i := Writing(Grouped(logs), Min(Incomplete(logs), U64_MAX))])
    case WriteOk(i, t) =>
      var group := s.phases[i].left[t];
      if InBounds(group.columns, SortRows(group.rows)) then
        s.(phases := s.phases[i := Writing(s.phases[i].left - {t}, s.phases[i].missing)],
           files := s.files[FileName(t, env.ranges[i]) := FileOf(t, group.columns, SortRows(group.rows))])
      else
        s.(phases := s.phases[i := Panicked], files := s.files[FileName(t, env.ranges[i]) := Torn])
    case WriteErr(i, t, fault) =>
      s.(phases := s.phases[i := Writing(s.phases[i].left - {t}, s.phases[i].missing)],
         files := if fault.NotCreated? then s.files else s.files[FileName(t, env.ranges[i]) := Torn],
         failures := s.failures + [WriteFailed(env.ranges[i], t)])
    case Finish(i) =>
      s.(phases := s.phases[i := Done(true)],
         failures := s.failures + if s.phases[i].missing > 0
                                  then [MetadataMissing(env.ranges[i], s.phases[i].missing)] else [])
    case RefillRead => s.(limiter := Apply(s.limiter, ReadAvailable))
    case RefillAdd => s.(limiter := Apply(s.limiter, AddMissing))
  }

  // A run is any sequence of enabled steps; Exec is the state it leads to.
  ghost predicate IsRun(env: Env, steps: seq<Step>)
    decreases |steps|, 0
  {
    if steps == [] then true
    else
      var before := steps[..|steps| - 1];
      IsRun(env, before) && CanStep(env, Exec(env, before), steps[|steps| - 1])
  }

  ghost function Exec(env: Env, steps: seq<Step>): (s: System)
    requires IsRun(env, steps)
    ensures |s.phases| == |env.ranges|
    decreases |steps|, 1
  {
    if steps == [] then Init(env)
    else Next(env, Exec(env, steps[..|steps| - 1]), steps[|steps| - 1])
  }

  ghost predicate Terminal(s: System) {
    forall i :: 0 <= i < |s.phases| ==> s.phases[i].Done?
  }

  // `run` returns Ok(()).
  ghost predicate ReturnsOk(s: System) {
    Terminal(s) && s.failures == []
  }

  // The chunk's attempt to write type t is over.
  ghost predicate Settled(env: Env, s: System, i: nat, t: EventType)
    requires |s.phases| == |env.ranges| && i < |s.phases|
  {
    && t in Grouped(ChunkLogs(env, i))
    && (s.phases[i] == Done(true) || (s.phases[i].Writing? && t !in s.phases[i].left))
  }

  ghost predicate PhaseInv(env: Env, s: System, i: nat)
    requires |s.phases| == |env.ranges| && i < |s.phases|
  {
    match s.phases[i]
    case Fetched(logs) => logs == ChunkLogs(env, i)
    case Writing(left, missing) =>
      && missing == Min(Incomplete(ChunkLogs(env, i)), U64_MAX)
      && left.Keys <= Grouped(ChunkLogs(env, i)).Keys
      && forall t :: t in left ==> left[t] == Grouped(ChunkLogs(env, i))[t]
    case Done(fetched) => fetched || FetchFailed(env.ranges[i]) in s.failures
    case Panicked => false
    case _ => true
  }

  // The directory has under this name what it had before the run.
  ghost predicate AsBefore(env: Env, files: map<FileName, ParquetFile>, name: FileName) {
    && (name in files <==> name in env.directory)
    && (name in files ==> files[name] == env.directory[name])
  }

  // Until its write is over a file is what it was before the run.  Then it is the
  // sorted file of the chunk's rows of its type or, exactly if the write was
  // reported as failed, what it was before or torn.
  ghost predicate FileInv(env: Env, s: System, i: nat, t: EventType)
    requires |s.phases| == |env.ranges| && i < |s.phases|
  {
    var name := FileName(t, env.ranges[i]);
    var reported := WriteFailed(env.ranges[i], t) in s.failures;
    && (!Settled(env, s, i, t) ==> AsBefore(env, s.files, name) && !reported)
    && (Settled(env, s, i, t) && !reported ==>
          name in s.files && s.files[name] == ChunkFile(t, ChunkLogs(env, i)))
    && (reported ==> AsBefore(env, s.files, name) || (name in s.files && s.files[name] == Torn))
  }

  ghost predicate Inv(env: Env, s: System) {
    && |s.phases| == |env.ranges|
    && (forall i :: 0 <= i < |s.phases| ==> PhaseInv(env, s, i))
    && (forall i, t :: 0 <= i < |s.phases| ==> FileInv(env, s, i, t))
    && (forall name: FileName :: name.range !in env.ranges ==> AsBefore(env, s.files, name))
  }

  lemma RangesDistinct(env: Env, i: nat, j: nat)
    requires env.Valid() && i < |env.ranges| && j < |env.ranges| && i != j
    ensures env.ranges[i] != env.ranges[j]
  {
    if i < j {
      PartitionOrder(env.ranges, env.start, env.end, i, j);
    } else {
      PartitionOrder(env.ranges, env.start, env.end, j, i);
    }
  }

  predicate Touches(step: Step, i: nat) {
    match step
    case RefillRead => false
    case RefillAdd => false
    case _ => step.i == i
  }

  // A chunk is not affected by a change that leaves its phase, its files and its
  // write reports alone.
  lemma ChunkFrame(env: Env, s: System, s': System, j: nat, t: EventType)
    requires |s.phases| == |s'.phases| == |env.ranges| && j < |env.ranges|
    requires PhaseInv(env, s, j) && FileInv(env, s, j, t)
    requires s'.phases[j] == s.phases[j]
    requires FileName(t, env.ranges[j]) in s'.files <==> FileName(t, env.ranges[j]) in s.files
    requires FileName(t, env.ranges[j]) in s.files ==>
               s'.files[FileName(t, env.ranges[j])] == s.files[FileName(t, env.ranges[j])]
    requires WriteFailed(env.ranges[j], t) in s'.failures <==> WriteFailed(env.ranges[j], t) in s.failures
    requires FetchFailed(env.ranges[j]) in s.failures ==> FetchFailed(env.ranges[j]) in s'.failures
    ensures PhaseInv(env, s', j) && FileInv(env, s', j, t)
  {
    hide Grouped, ChunkLogs, ChunkFile, Incomplete;
  }

  lemma OtherChunkKept(env: Env, s: System, step: Step, j: nat, t: EventType)
    requires env.Valid() && |s.phases| == |env.ranges| && CanStep(env, s, step)
    requires j < |env.ranges| && !Touches(step, j)
    requires PhaseInv(env, s, j) && FileInv(env, s, j, t)
    ensures PhaseInv(env, Next(env, s, step), j) && FileInv(env, Next(env, s, step), j, t)
  {
    hide Grouped, ChunkLogs, ChunkFile, Incomplete, InBounds, FileOf, SortRows, Partitions, InFlight, PhaseInv,
         FileInv, HonestBlocks;
    if !IsRefill(step) {
      RangesDistinct(env, step.i, j);
    }
    ChunkFrame(env, s, Next(env, s, step), j, t);
  }

  lemma OwnChunkKept(env: Env, s: System, step: Step, t: EventType)
    requires env.Valid() && |s.phases| == |env.ranges| && CanStep(env, s, step) && !IsRefill(step)
    requires PhaseInv(env, s, step.i) && FileInv(env, s, step.i, t)
    ensures PhaseInv(env, Next(env, s, step), step.i) && FileInv(env, Next(env, s, step), step.i, t)
  {
    hide PhaseInv, FileInv, Next, CanStep, Partitions, HonestBlocks;
    if step.WriteOk? {
      OwnWriteKept(env, s, step.i, step.t, t);
    } else if step.WriteErr? {
      OwnWriteErrKept(env, s, step.i, step.t, step.fault, t);
    } else {
      OwnPhaseMoves(env, s, step, t);
      OwnFileKept(env, s, step, t);
    }
  }

  // The steps of a chunk other than its writes settle no type, and leave its
  // files and its write reports alone.
  lemma OwnPhaseMoves(env: Env, s: System, step: Step, t: EventType)
    requires |s.phases| == |env.ranges| && CanStep(env, s, step) && !IsRefill(step)
    requires !step.WriteOk? && !step.WriteErr? && PhaseInv(env, s, step.i)
    ensures PhaseInv(env, Next(env, s, step), step.i)
    ensures Settled(env, Next(env, s, step), step.i, t) <==> Settled(env, s, step.i, t)
  {
    hide ChunkLogs, Incomplete, Grouped, InFlight;
  }

  lemma OwnFileKept(env: Env, s: System, step: Step, t: EventType)
    requires |s.phases| == |env.ranges| && CanStep(env, s, step) && !IsRefill(step)
    requires !step.WriteOk? && !step.WriteErr? && FileInv(env, s, step.i, t)
    requires Settled(env, Next(env, s, step), step.i, t) <==> Settled(env, s, step.i, t)
    ensures FileInv(env, Next(env, s, step), step.i, t)
  {
    hide ChunkLogs, Incomplete, Grouped, InFlight, Settled, ChunkFile;
  }

  // No index of a row is ever out of bounds, so a write never panics.
  lemma WriteEffect(env: Env, s: System, i: nat, u: EventType)
    requires |s.phases| == |env.ranges| && CanStep(env, s, WriteOk(i, u)) && PhaseInv(env, s, i)
    ensures Next(env, s, WriteOk(i, u))
            == s.(phases := s.phases[i := Writing(s.phases[i].left - {u}, s.phases[i].missing)],
                  files := s.files[FileName(u, env.ranges[i]) := ChunkFile(u, ChunkLogs(env, i))])
  {
    WriteGroupInBounds(u, ChunkLogs(env, i));
    assert s.phases[i].left[u] == Group(ColumnNames(u), RowsOf(u, ChunkLogs(env, i)));
    hide ChunkLogs, ChunkFile, Incomplete, InBounds, FileOf, SortRows, Grouped, RowsOf, ColumnNames, InFlight;
  }

  // Type u has been settled, by a file or by a report.
  lemma OneMoreSettled(env: Env, s: System, s': System, i: nat, u: EventType, t: EventType)
    requires |s.phases| == |env.ranges| && i < |s.phases| && s.phases[i].Writing? && u in s.phases[i].left
    requires PhaseInv(env, s, i)
    requires s'.phases == s.phases[i := Writing(s.phases[i].left - {u}, s.phases[i].missing)]
    ensures PhaseInv(env, s', i) && (Settled(env, s', i, t) <==> Settled(env, s, i, t) || t == u)
    ensures !Settled(env, s, i, u) && Settled(env, s', i, u)
  {
    hide ChunkLogs, Incomplete, Grouped;
  }

  lemma OwnWriteKept(env: Env, s: System, i: nat, u: EventType, t: EventType)
    requires |s.phases| == |env.ranges| && CanStep(env, s, WriteOk(i, u))
    requires PhaseInv(env, s, i) && FileInv(env, s, i, t)
    ensures PhaseInv(env, Next(env, s, WriteOk(i, u)), i) && FileInv(env, Next(env, s, WriteOk(i, u)), i, t)
  {
    hide ChunkLogs, ChunkFile, Incomplete, InBounds, FileOf, SortRows, Grouped, RowsOf, ColumnNames, InFlight, Next,
         PhaseInv, Settled;
    WriteEffect(env, s, i, u);
    OneMoreSettled(env, s, Next(env, s, WriteOk(i, u)), i, u, t);
  }

  lemma OwnWriteErrKept(env: Env, s: System, i: nat, u: EventType, fault: Fault, t: EventType)
    requires |s.phases| == |env.ranges| && CanStep(env, s, WriteErr(i, u, fault))
    requires PhaseInv(env, s, i) && FileInv(env, s, i, t)
    ensures PhaseInv(env, Next(env, s, WriteErr(i, u, fault)), i)
    ensures FileInv(env, Next(env, s, WriteErr(i, u, fault)), i, t)
  {
    hide ChunkLogs, ChunkFile, Incomplete, InBounds, FileOf, SortRows, Grouped, RowsOf, ColumnNames, InFlight,
         PhaseInv, Settled;
    OneMoreSettled(env, s, Next(env, s, WriteErr(i, u, fault)), i, u, t);
  }

  // A step writes only under names of the run's own chunks.
  lemma ForeignNameKept(env: Env, s: System, step: Step, name: FileName)
    requires |s.phases| == |env.ranges| && CanStep(env, s, step)
    requires name.range !in env.ranges && AsBefore(env, s.files, name)
    ensures AsBefore(env, Next(env, s, step).files, name)
  {
    hide Grouped, ChunkLogs, Incomplete, InBounds, FileOf, SortRows, InFlight;
  }

  lemma StepKeepsFiles(env: Env, s: System, step: Step)
    requires env.Valid() && Inv(env, s) && CanStep(env, s, step)
    ensures Inv(env, Next(env, s, step))
  {
    hide Grouped, ChunkLogs, ChunkFile, Incomplete, InBounds, FileOf, SortRows, Partitions, InFlight, BaseColumns,
         PhaseInv, FileInv, AsBefore, HonestBlocks;
    var s' := Next(env, s, step);
    forall j, t | 0 <= j < |s.phases|
      ensures PhaseInv(env, s', j) && FileInv(env, s', j, t)
    {
      assert FileInv(env, s, j, t);
      if Touches(step, j) {
        OwnChunkKept(env, s, step, t);
      } else {
        OtherChunkKept(env, s, step, j, t);
      }
    }
    forall j | 0 <= j < |s.phases| ensures PhaseInv(env, s', j) {
      assert FileInv(env, s', j, OrderFilled);
    }
    forall name: FileName | name.range !in env.ranges ensures AsBefore(env, s'.files, name) {
      ForeignNameKept(env, s, step, name);
    }
  }

  lemma {:induction false} RunKeepsFiles(env: Env, steps: seq<Step>)
    requires env.Valid() && IsRun(env, steps)
    ensures Inv(env, Exec(env, steps))
    decreases |steps|
  {
    if steps != [] {
      var before := steps[..|steps| - 1];
      RunKeepsFiles(env, before);
      StepKeepsFiles(env, Exec(env, before), steps[|steps| - 1]);
    }
  }
}
