// Bounds on a backfill's concurrency and rate, absence of deadlock, termination.
module BackfillProgress {
  import opened Base
  import opened Decode
  import opened ChunkRanges
  import opened RateLimiting
  import opened ChunkTask
  import opened Backfill

  // The steps of a run that the rate limiter sees.
  function LimiterPart(step: Step): seq<LimiterStep> {
    match step
    case Grant(_) => [Acquire]
    case RefillRead => [ReadAvailable]
    case RefillAdd => [AddMissing]
    case _ => []
  }

  function LimiterSteps(steps: seq<Step>): seq<LimiterStep> {
    if steps == [] then [] else LimiterSteps(steps[..|steps| - 1]) + LimiterPart(steps[|steps| - 1])
  }

  function Grants(steps: seq<Step>): nat {
    if steps == [] then 0 else Grants(steps[..|steps| - 1]) + if steps[|steps| - 1].Grant? then 1 else 0
  }

  function CompletedRefills(steps: seq<Step>): nat {
    if steps == [] then 0
    else CompletedRefills(steps[..|steps| - 1]) + if steps[|steps| - 1].RefillAdd? then 1 else 0
  }

  // A backfill run contains a run of the limiter alone, so all that is proved
  // about the limiter holds here.
  lemma {:induction false} LimiterEmbedded(env: Env, steps: seq<Step>)
    requires IsRun(env, steps)
    ensures ValidRun(Fresh(env.rate), LimiterSteps(steps))
    ensures Exec(env, steps).limiter == Run(Fresh(env.rate), LimiterSteps(steps))
    ensures Exec(env, steps).limiter.granted == Grants(steps)
    ensures Refills(LimiterSteps(steps)) == CompletedRefills(steps)
    decreases |steps|
  {
    if steps != [] {
      var before, step := steps[..|steps| - 1], steps[|steps| - 1];
      LimiterEmbedded(env, before);
      LimiterStepEmbedded(env, Exec(env, before), step);
      hide Next, Run, ValidRun, LimiterPart, Fresh;
      RunConcat(Fresh(env.rate), LimiterSteps(before), LimiterPart(step));
    }
  }

  lemma LimiterStepEmbedded(env: Env, s: System, step: Step)
    requires |s.phases| == |env.ranges| && CanStep(env, s, step)
    ensures ValidRun(s.limiter, LimiterPart(step))
    ensures Run(s.limiter, LimiterPart(step)) == Next(env, s, step).limiter
    ensures Next(env, s, step).limiter.granted == s.limiter.granted + if step.Grant? then 1 else 0
    ensures Refills(LimiterPart(step)) == if step.RefillAdd? then 1 else 0
  {
    hide ChunkLogs, Incomplete, Grouped, InFlight, FileOf, InBounds;
    if LimiterPart(step) != [] {
      assert LimiterPart(step)[1..] == [];
    }
  }

  // After any k steps, the rest of the run starts at most rate * (r + 1)
  // fetches, where r is the number of refills it completes.
  lemma FetchRate(env: Env, steps: seq<Step>, k: nat)
    requires IsRun(env, steps) && k <= |steps|
    ensures Grants(steps) - Grants(steps[..k])
            <= env.rate * (CompletedRefills(steps) - CompletedRefills(steps[..k]) + 1)
  {
    hide Exec, IsRun, Run, ValidRun, LimiterSteps, Grants, CompletedRefills, Refills, Fresh;
    PrefixIsRun(env, steps, k);
    LimiterEmbedded(env, steps);
    LimiterEmbedded(env, steps[..k]);
    LimiterPrefix(steps, k);
    var before := LimiterSteps(steps[..k]);
    var segment := LimiterSteps(steps)[|before|..];
    assert LimiterSteps(steps) == before + segment;
    RunSplit(Fresh(env.rate), before, segment);
    GrantsPerSegment(env.rate, before, segment);
  }

  lemma {:induction false} PrefixIsRun(env: Env, steps: seq<Step>, k: nat)
    requires IsRun(env, steps) && k <= |steps|
    ensures IsRun(env, steps[..k])
    decreases |steps|
  {
    if k < |steps| {
      PrefixIsRun(env, steps[..|steps| - 1], k);
      assert steps[..|steps| - 1][..k] == steps[..k];
    } else {
      assert steps[..k] == steps;
    }
  }

  lemma {:induction false} LimiterPrefix(steps: seq<Step>, k: nat)
    requires k <= |steps|
    ensures LimiterSteps(steps[..k]) <= LimiterSteps(steps)
    decreases |steps|
  {
    if k < |steps| {
      LimiterPrefix(steps[..|steps| - 1], k);
      assert steps[..|steps| - 1][..k] == steps[..k];
    } else {
      assert steps[..k] == steps;
    }
  }

  lemma {:induction false} RunSplit(l: Limiter, a: seq<LimiterStep>, b: seq<LimiterStep>)
    requires ValidRun(l, a + b)
    ensures ValidRun(l, a) && ValidRun(Run(l, a), b) && Run(l, a + b) == Run(Run(l, a), b)
    ensures Refills(a + b) == Refills(a) + Refills(b)
    decreases |a|
  {
    if a == [] {
      assert a + b == b;
    } else {
      assert (a + b)[1..] == a[1..] + b;
      RunSplit(Apply(l, a[0]), a[1..], b);
    }
  }

  // Flags of the chunks that are in flight, that hold a permit, that are done.
  function ActiveFlags(phases: seq<Phase>): (flags: seq<nat>)
    ensures |flags| == |phases|
    ensures forall i :: 0 <= i < |phases| ==> flags[i] == if Active(phases[i]) then 1 else 0
  {
    seq(|phases|, i requires 0 <= i < |phases| => if Active(phases[i]) then 1 else 0)
  }

  predicate Permitted(p: Phase) {
    !p.Waiting? && !p.Acquiring?
  }

  function PermittedFlags(phases: seq<Phase>): (flags: seq<nat>)
    ensures |flags| == |phases|
    ensures forall i :: 0 <= i < |phases| ==> flags[i] == if Permitted(phases[i]) then 1 else 0
  {
    seq(|phases|, i requires 0 <= i < |phases| => if Permitted(phases[i]) then 1 else 0)
  }

  function DoneFlags(phases: seq<Phase>): (flags: seq<nat>)
    ensures |flags| == |phases|
    ensures forall i :: 0 <= i < |phases| ==> flags[i] == if phases[i].Done? then 1 else 0
  {
    seq(|phases|, i requires 0 <= i < |phases| => if phases[i].Done? then 1 else 0)
  }

  lemma InFlightIsSum(phases: seq<Phase>)
    ensures InFlight(phases) == Sum(ActiveFlags(phases))
  {
    assert ActiveFlags(phases)
        == seq(|phases|, i requires 0 <= i < |phases| => if Active(phases[i]) then 1 else 0);
  }

  // InFlight is the number of chunks that are neither waiting nor done.
  lemma {:induction false} InFlightIsCount(phases: seq<Phase>)
    ensures InFlight(phases) == |set i | 0 <= i < |phases| && !phases[i].Waiting? && !phases[i].Done?|
  {
    hide InFlight, Sum;
    InFlightLast(phases);
    if phases != [] {
      var n := |phases| - 1;
      InFlightIsCount(phases[..n]);
      OneMoreInFlight(phases, n);
    }
  }

  lemma InFlightLast(phases: seq<Phase>)
    ensures if phases == [] then InFlight(phases) == 0
            else var n := |phases| - 1;
                 InFlight(phases) == InFlight(phases[..n]) + if phases[n].Waiting? || phases[n].Done? then 0 else 1
  {
    InFlightIsSum(phases);
    if phases != [] {
      var n := |phases| - 1;
      InFlightIsSum(phases[..n]);
      hide InFlight;
      assert ActiveFlags(phases)[..n] == ActiveFlags(phases[..n]);
    }
  }

  lemma OneMoreInFlight(phases: seq<Phase>, n: nat)
    requires n + 1 == |phases|
    ensures var before := phases[..n];
            |set i | 0 <= i < |phases| && !phases[i].Waiting? && !phases[i].Done?|
            == |set i | 0 <= i < |before| && !before[i].Waiting? && !before[i].Done?|
               + if phases[n].Waiting? || phases[n].Done? then 0 else 1
  {
    var before := phases[..n];
    var all := set i | 0 <= i < |phases| && !phases[i].Waiting? && !phases[i].Done?;
    var some := set i | 0 <= i < |before| && !before[i].Waiting? && !before[i].Done?;
    assert all == some + if phases[n].Waiting? || phases[n].Done? then {} else {n};
  }

  lemma FlagUpdates(phases: seq<Phase>, i: nat, p: Phase)
    requires i < |phases|
    ensures InFlight(phases[i := p]) + (if Active(phases[i]) then 1 else 0)
            == InFlight(phases) + if Active(p) then 1 else 0
    ensures Sum(PermittedFlags(phases[i := p])) + (if Permitted(phases[i]) then 1 else 0)
            == Sum(PermittedFlags(phases)) + if Permitted(p) then 1 else 0
  {
    InFlightIsSum(phases);
    InFlightIsSum(phases[i := p]);
    var active, permitted := ActiveFlags(phases), PermittedFlags(phases);
    assert ActiveFlags(phases[i := p]) == active[i := if Active(p) then 1 else 0];
    assert PermittedFlags(phases[i := p]) == permitted[i := if Permitted(p) then 1 else 0];
    SumUpdate(active, i, if Active(p) then 1 else 0);
    SumUpdate(permitted, i, if Permitted(p) then 1 else 0);
  }

  // At no time are more than `parallelism` chunks in flight, and every grant
  // belongs to exactly one chunk.
  lemma {:induction false} BoundedFanOut(env: Env, steps: seq<Step>)
    requires env.Valid() && IsRun(env, steps)
    ensures InFlight(Exec(env, steps).phases) <= env.parallelism
    ensures var phases := Exec(env, steps).phases;
            |set i | 0 <= i < |phases| && !phases[i].Waiting? && !phases[i].Done?| <= env.parallelism
    ensures Grants(steps) == Sum(PermittedFlags(Exec(env, steps).phases))
    decreases |steps|
  {
    InFlightIsCount(Exec(env, steps).phases);
    if steps == [] {
      InFlightIsSum(Init(env).phases);
      SumZero(ActiveFlags(Init(env).phases));
      SumZero(PermittedFlags(Init(env).phases));
    } else {
      var before, step := steps[..|steps| - 1], steps[|steps| - 1];
      var s := Exec(env, before);
      BoundedFanOut(env, before);
      RunKeepsFiles(env, before);
      assert !IsRefill(step) ==> PhaseInv(env, s, step.i);
      StepFanOut(env, s, step);
    }
  }

  lemma StepFanOut(env: Env, s: System, step: Step)
    requires |s.phases| == |env.ranges| && CanStep(env, s, step) && InFlight(s.phases) <= env.parallelism
    requires !IsRefill(step) ==> PhaseInv(env, s, step.i)
    ensures InFlight(Next(env, s, step).phases) <= env.parallelism
    ensures Sum(PermittedFlags(Next(env, s, step).phases))
            == Sum(PermittedFlags(s.phases)) + if step.Grant? then 1 else 0
  {
    if !IsRefill(step) {
      if step.WriteOk? {
        WriteEffect(env, s, step.i, step.t);
      }
      hide ChunkLogs, Incomplete, Grouped, InFlight, ChunkFile, FileOf, InBounds, PermittedFlags;
      FlagUpdates(s.phases, step.i, Next(env, s, step).phases[step.i]);
    }
  }

  // Completing n chunks takes at least n / rate - 1 refills, rounded up.
  lemma RefillsNeeded(env: Env, steps: seq<Step>)
    requires env.Valid() && IsRun(env, steps)
    ensures Sum(DoneFlags(Exec(env, steps).phases)) <= env.rate * (CompletedRefills(steps) + 1)
  {
    var phases := Exec(env, steps).phases;
    BoundedFanOut(env, steps);
    hide Exec, IsRun, InFlight, Sum;
    FetchRate(env, steps, 0);
    assert steps[..0] == [];
    SumMonotone(DoneFlags(phases), PermittedFlags(phases));
  }

  lemma {:induction false} SumMonotone(a: seq<nat>, b: seq<nat>)
    requires |a| == |b| && forall i :: 0 <= i < |a| ==> a[i] <= b[i]
    ensures Sum(a) <= Sum(b)
  {
    if a != [] {
      SumMonotone(a[..|a| - 1], b[..|b| - 1]);
    }
  }

  // How often chunk i is asked for from the provider.
  function Fetches(steps: seq<Step>, i: nat): nat {
    if steps == [] then 0
    else
      Fetches(steps[..|steps| - 1], i)
      + if steps[|steps| - 1] == FetchOk(i) || steps[|steps| - 1] == FetchErr(i) then 1 else 0
  }

  predicate HasFetched(p: Phase) {
    Permitted(p) && !p.Fetching?
  }

  lemma StepFetches(env: Env, s: System, step: Step, i: nat)
    requires |s.phases| == |env.ranges| && CanStep(env, s, step) && i < |env.ranges|
    ensures HasFetched(Next(env, s, step).phases[i]) <==>
            HasFetched(s.phases[i]) || step == FetchOk(i) || step == FetchErr(i)
    ensures step == FetchOk(i) || step == FetchErr(i) ==> !HasFetched(s.phases[i])
  {
    hide ChunkLogs, Incomplete, Grouped, InFlight, ChunkFile, FileOf, InBounds;
  }

  // Each chunk is fetched at most once, and exactly once when the run is over.
  lemma {:induction false} FetchedOnce(env: Env, steps: seq<Step>, i: nat)
    requires IsRun(env, steps) && i < |env.ranges|
    ensures Fetches(steps, i) == if HasFetched(Exec(env, steps).phases[i]) then 1 else 0
    decreases |steps|
  {
    hide Next, CanStep, HasFetched;
    if steps == [] {
      assert !HasFetched(Waiting) by { NotFetched(); }
    } else {
      var before, step := steps[..|steps| - 1], steps[|steps| - 1];
      FetchedOnce(env, before, i);
      StepFetches(env, Exec(env, before), step, i);
    }
  }

  lemma NotFetched()
    ensures !HasFetched(Waiting)
  {
  }

  // The steps a chunk still has before it.
  ghost function Rank(env: Env, i: nat, p: Phase): nat
    requires i < |env.ranges|
  {
    var files := |Grouped(ChunkLogs(env, i)).Keys|;
    match p
    case Waiting => files + 5
    case Acquiring => files + 4
    case Fetching => files + 3
    case Fetched(_) => files + 2
    case Writing(left, _) => |left.Keys| + 1
    case Done(_) => 0
    case Panicked => 0
  }

  ghost function Ranks(env: Env, phases: seq<Phase>): (ranks: seq<nat>)
    requires |phases| == |env.ranges|
    ensures |ranks| == |phases|
    ensures forall i :: 0 <= i < |phases| ==> ranks[i] == Rank(env, i, phases[i])
  {
    seq(|phases|, i requires 0 <= i < |phases| => Rank(env, i, phases[i]))
  }

  ghost function Work(env: Env, s: System): nat
    requires |s.phases| == |env.ranges|
  {
    Sum(Ranks(env, s.phases))
  }

  function ChunkSteps(steps: seq<Step>): nat {
    if steps == [] then 0 else ChunkSteps(steps[..|steps| - 1]) + if IsRefill(steps[|steps| - 1]) then 0 else 1
  }

  lemma WritingRank(env: Env, i: nat, left: map<EventType, Group>, missing: u64, t: EventType)
    requires i < |env.ranges| && t in left
    ensures Rank(env, i, Writing(left - {t}, missing)) < Rank(env, i, Writing(left, missing))
  {
    hide ChunkLogs, Grouped;
    assert (left - {t}).Keys == left.Keys - {t};
  }

  lemma RankDecreases(env: Env, s: System, step: Step)
    requires |s.phases| == |env.ranges| && CanStep(env, s, step) && !IsRefill(step)
    requires PhaseInv(env, s, step.i)
    ensures Rank(env, step.i, Next(env, s, step).phases[step.i]) < Rank(env, step.i, s.phases[step.i])
  {
    var i := step.i;
    hide ChunkLogs, Incomplete, Grouped, InFlight, ChunkFile, FileOf, InBounds, Rank;
    if step.WriteOk? {
      hide Next, PhaseInv;
      WriteEffect(env, s, i, step.t);
      WritingRank(env, i, s.phases[i].left, s.phases[i].missing, step.t);
    } else if step.WriteErr? {
      hide PhaseInv;
      WritingRank(env, i, s.phases[i].left, s.phases[i].missing, step.t);
    } else {
      RankOf(env, i, s.phases[i]);
      RankOf(env, i, Next(env, s, step).phases[i]);
    }
  }

  lemma RankOf(env: Env, i: nat, p: Phase)
    requires i < |env.ranges|
    ensures p.Fetched? ==> Rank(env, i, p) == |Grouped(ChunkLogs(env, i)).Keys| + 2
    ensures p.Writing? ==> Rank(env, i, p) == |p.left.Keys| + 1
    ensures p.Waiting? ==> Rank(env, i, p) == |Grouped(ChunkLogs(env, i)).Keys| + 5
    ensures p.Acquiring? ==> Rank(env, i, p) == |Grouped(ChunkLogs(env, i)).Keys| + 4
    ensures p.Fetching? ==> Rank(env, i, p) == |Grouped(ChunkLogs(env, i)).Keys| + 3
    ensures p.Done? ==> Rank(env, i, p) == 0
  {
    hide ChunkLogs, Grouped;
  }

  lemma OneRankChanges(env: Env, s: System, step: Step)
    requires |s.phases| == |env.ranges| && CanStep(env, s, step) && !IsRefill(step)
    ensures var s' := Next(env, s, step);
            Ranks(env, s'.phases) == Ranks(env, s.phases)[step.i := Rank(env, step.i, s'.phases[step.i])]
  {
    hide ChunkLogs, Incomplete, Grouped, InFlight, ChunkFile, FileOf, InBounds, Rank, PhaseInv;
    var s' := Next(env, s, step);
    assert s'.phases == s.phases[step.i := s'.phases[step.i]];
  }

  lemma WorkDecreases(env: Env, s: System, step: Step)
    requires |s.phases| == |env.ranges| && CanStep(env, s, step)
    requires !IsRefill(step) ==> PhaseInv(env, s, step.i)
    ensures if IsRefill(step) then Work(env, Next(env, s, step)) == Work(env, s)
            else Work(env, Next(env, s, step)) < Work(env, s)
  {
    if !IsRefill(step) {
      hide ChunkLogs, Incomplete, Grouped, InFlight, ChunkFile, FileOf, InBounds, Rank, PhaseInv, Next;
      RankDecreases(env, s, step);
      OneRankChanges(env, s, step);
      SumUpdate(Ranks(env, s.phases), step.i, Rank(env, step.i, Next(env, s, step).phases[step.i]));
    }
  }

  // Every run has a bounded number of steps other than refills.
  lemma {:induction false} BoundedWork(env: Env, steps: seq<Step>)
    requires env.Valid() && IsRun(env, steps)
    ensures ChunkSteps(steps) + Work(env, Exec(env, steps)) <= Work(env, Init(env))
    decreases |steps|
  {
    if steps != [] {
      var before, step := steps[..|steps| - 1], steps[|steps| - 1];
      BoundedWork(env, before);
      RunKeepsFiles(env, before);
      assert !IsRefill(step) ==> PhaseInv(env, Exec(env, before), step.i);
      hide Work, Next, PhaseInv, FileInv;
      WorkDecreases(env, Exec(env, before), step);
    }
  }

  predicate IsError(step: Step) {
    step.FetchErr? || step.WriteErr?
  }

  ghost predicate ChunkStepEnabled(env: Env, s: System)
    requires |s.phases| == |env.ranges|
  {
    exists step :: !IsRefill(step) && CanStep(env, s, step)
  }

  // With a permit in the bucket an unfinished run can always move a chunk.
  lemma PermitMeansProgress(env: Env, s: System) returns (step: Step)
    requires env.parallelism > 0 && |s.phases| == |env.ranges| && !Terminal(s) && s.limiter.permits > 0
    requires forall i :: 0 <= i < |s.phases| ==> !s.phases[i].Panicked?
    ensures !IsRefill(step) && !IsError(step) && CanStep(env, s, step)
  {
    if i :| 0 <= i < |s.phases| && Active(s.phases[i]) {
      match s.phases[i]
      case Acquiring => step := Grant(i);
      case Fetching => step := FetchOk(i);
      case Fetched(_) => step := Process(i);
      case Writing(left, _) =>
        if left == map[] {
          step := Finish(i);
        } else {
          var t :| t in left;
          step := WriteOk(i, t);
        }
    } else {
      InFlightIsSum(s.phases);
      SumZero(ActiveFlags(s.phases));
      var i := 0;
      while !s.phases[i].Waiting?
        invariant 0 <= i < |s.phases|
        invariant forall j :: 0 <= j < i ==> !s.phases[j].Waiting?
        invariant exists j :: i <= j < |s.phases| && s.phases[j].Waiting?
        decreases |s.phases| - i
      {
        i := i + 1;
      }
      step := Start(i);
    }
  }

  // No chunk task ever panics: every `row.values[col_index]` is in bounds.
  lemma NeverPanics(env: Env, steps: seq<Step>)
    requires env.Valid() && IsRun(env, steps)
    ensures forall i :: 0 <= i < |Exec(env, steps).phases| ==> !Exec(env, steps).phases[i].Panicked?
  {
    RunKeepsFiles(env, steps);
    var s := Exec(env, steps);
    hide Exec, IsRun, FileInv, ChunkLogs;
    forall i | 0 <= i < |s.phases| ensures !s.phases[i].Panicked? {
      assert PhaseInv(env, s, i);
    }
  }

  // No deadlock: an unfinished run can take a step, and if it cannot move a
  // chunk then the bucket is empty.
  lemma NeverStuck(env: Env, steps: seq<Step>)
    requires env.Valid() && IsRun(env, steps) && !Terminal(Exec(env, steps))
    ensures exists step :: CanStep(env, Exec(env, steps), step)
    ensures ChunkStepEnabled(env, Exec(env, steps)) || Exec(env, steps).limiter.permits == 0
  {
    var s := Exec(env, steps);
    NeverPanics(env, steps);
    hide Exec, IsRun, Terminal, Partitions;
    if s.limiter.permits > 0 {
      var step := PermitMeansProgress(env, s);
      assert CanStep(env, s, step);
    }
    if s.limiter.seen.None? {
      assert CanStep(env, s, RefillRead);
    } else {
      assert CanStep(env, s, RefillAdd);
    }
  }

  // With no acquire in between, a refill that is not stale fills the bucket.
  lemma {:induction false} RefillsFill(l: Limiter, steps: seq<LimiterStep>, stale: nat)
    requires RateLimiting.Inv(l) && ValidRun(l, steps) && forall step :: step in steps ==> !step.Acquire?
    requires stale <= 1 && (stale == 0 ==> l.permits == l.max || l.seen.None? || l.seen.value == l.permits)
    requires Refills(steps) > stale
    ensures Run(l, steps).permits == l.max
    decreases |steps|
  {
    var next := Apply(l, steps[0]);
    StepKeepsInv(l, steps[0]);
    if steps[0].AddMissing? && Refills(steps[1..]) == 0 {
      OnlyReads(next, steps[1..]);
    } else {
      RefillsFill(next, steps[1..], if steps[0].AddMissing? then 0 else stale);
    }
  }

  lemma {:induction false} OnlyReads(l: Limiter, steps: seq<LimiterStep>)
    requires ValidRun(l, steps) && Refills(steps) == 0 && forall step :: step in steps ==> !step.Acquire?
    ensures Run(l, steps).permits == l.permits
    decreases |steps|
  {
    if steps != [] {
      OnlyReads(Apply(l, steps[0]), steps[1..]);
    }
  }

  // The refill task unblocks a run: after two completed refills with nothing
  // else in between, the first of which may have acted on a stale reading, some
  // chunk can move, and without failing.
  lemma RefillsUnblock(env: Env, steps: seq<Step>, refills: seq<Step>) returns (step: Step)
    requires env.Valid() && IsRun(env, steps) && IsRun(env, steps + refills)
    requires !Terminal(Exec(env, steps))
    requires (forall step :: step in refills ==> IsRefill(step)) && CompletedRefills(refills) >= 2
    ensures !IsRefill(step) && !IsError(step) && CanStep(env, Exec(env, steps + refills), step)
  {
    assert env.parallelism > 0 && env.rate > 0;
    BucketFull(env, steps, refills);
    SamePhases(env, steps, refills);
    NeverPanics(env, steps + refills);
    hide Exec, IsRun, CompletedRefills, Partitions;
    step := PermitMeansProgress(env, Exec(env, steps + refills));
  }

  lemma BucketFull(env: Env, steps: seq<Step>, refills: seq<Step>)
    requires IsRun(env, steps) && IsRun(env, steps + refills)
    requires (forall step :: step in refills ==> IsRefill(step)) && CompletedRefills(refills) >= 2
    ensures Exec(env, steps + refills).limiter.permits == env.rate
  {
    LimiterEmbedded(env, steps);
    LimiterEmbedded(env, steps + refills);
    LimiterConcat(steps, refills);
    hide Exec, IsRun;
    RunSplit(Fresh(env.rate), LimiterSteps(steps), LimiterSteps(refills));
    RunKeepsInv(Fresh(env.rate), LimiterSteps(steps));
    RefillsOnly(refills);
    hide Run, ValidRun, LimiterSteps, CompletedRefills;
    RefillsFill(Exec(env, steps).limiter, LimiterSteps(refills), 1);
  }

  lemma {:induction false} LimiterConcat(a: seq<Step>, b: seq<Step>)
    ensures LimiterSteps(a + b) == LimiterSteps(a) + LimiterSteps(b)
    decreases |b|
  {
    if b == [] {
      assert a + b == a;
    } else {
      hide LimiterPart;
      var before, last := b[..|b| - 1], b[|b| - 1];
      LimiterConcat(a, before);
      assert (a + b)[..|a + b| - 1] == a + before && (a + b)[|a + b| - 1] == last;
      assert LimiterSteps(a + b) == LimiterSteps(a + before) + LimiterPart(last);
    }
  }

  lemma {:induction false} RefillsOnly(refills: seq<Step>)
    requires forall step :: step in refills ==> IsRefill(step)
    ensures forall step :: step in LimiterSteps(refills) ==> !step.Acquire?
    ensures Refills(LimiterSteps(refills)) == CompletedRefills(refills)
  {
    if refills != [] {
      var before, last := refills[..|refills| - 1], refills[|refills| - 1];
      RefillsOnly(before);
      assert last in refills;
      RefillsSnoc(LimiterSteps(before), LimiterPart(last)[0]);
    }
  }

  lemma {:induction false} RefillsSnoc(steps: seq<LimiterStep>, step: LimiterStep)
    ensures Refills(steps + [step]) == Refills(steps) + if step.AddMissing? then 1 else 0
  {
    if steps != [] {
      assert (steps + [step])[1..] == steps[1..] + [step];
      RefillsSnoc(steps[1..], step);
    }
  }

  lemma {:induction false} SamePhases(env: Env, steps: seq<Step>, refills: seq<Step>)
    requires IsRun(env, steps) && IsRun(env, steps + refills)
    requires forall step :: step in refills ==> IsRefill(step)
    ensures Exec(env, steps + refills).phases == Exec(env, steps).phases
    decreases |refills|
  {
    if refills == [] {
      assert steps + refills == steps;
    } else {
      var before, last := refills[..|refills| - 1], refills[|refills| - 1];
      assert (steps + refills)[..|steps + refills| - 1] == steps + before;
      assert last in refills;
      SamePhases(env, steps, before);
      RefillKeepsPhases(env, Exec(env, steps + before), last);
      hide Next, CanStep;
    }
  }

  lemma RefillKeepsPhases(env: Env, s: System, step: Step)
    requires |s.phases| == |env.ranges| && CanStep(env, s, step) && IsRefill(step)
    ensures Next(env, s, step).phases == s.phases
  {
  }

  // From every state of every run the backfill can still be completed, and
  // without any further failure.
  lemma CanFinish(env: Env, steps: seq<Step>) returns (rest: seq<Step>)
    requires env.Valid() && IsRun(env, steps)
    ensures IsRun(env, steps + rest) && Terminal(Exec(env, steps + rest))
    ensures forall step :: step in rest ==> !IsError(step)
    decreases Work(env, Exec(env, steps))
  {
    hide Exec, IsRun, Work, Terminal;
    if Terminal(Exec(env, steps)) {
      assert steps + [] == steps;
      return [];
    }
    var round := MoveOneChunk(env, steps);
    var tail := CanFinish(env, steps + round);
    rest := round + tail;
    assert steps + rest == steps + round + tail;
  }

  lemma MoveOneChunk(env: Env, steps: seq<Step>) returns (round: seq<Step>)
    requires env.Valid() && IsRun(env, steps) && !Terminal(Exec(env, steps))
    ensures IsRun(env, steps + round) && Work(env, Exec(env, steps + round)) < Work(env, Exec(env, steps))
    ensures forall step :: step in round ==> !IsError(step)
  {
    hide PhaseInv, FileInv, AsBefore, Exec, IsRun, Next, CanStep, CompletedRefills, Partitions, Ranks, Terminal,
         IsRefill, HonestBlocks;
    var refills := RefillRound(env, steps);
    var step := RefillsUnblock(env, steps, refills);
    var refilled := steps + refills;
    SamePhases(env, steps, refills);
    WorkFalls(env, refilled, step);
    ExtendRun(env, refilled, step);
    NoErrors(refills);
    round := refills + [step];
    assert steps + round == refilled + [step];
  }

  lemma NoErrors(refills: seq<Step>)
    requires forall step :: step in refills ==> IsRefill(step)
    ensures forall step :: step in refills ==> !IsError(step)
  {
  }

  lemma WorkFalls(env: Env, steps: seq<Step>, step: Step)
    requires env.Valid() && IsRun(env, steps) && CanStep(env, Exec(env, steps), step) && !IsRefill(step)
    ensures Work(env, Next(env, Exec(env, steps), step)) < Work(env, Exec(env, steps))
  {
    hide PhaseInv, FileInv, AsBefore, Exec, IsRun, Next, Partitions, Work, HonestBlocks;
    RunKeepsFiles(env, steps);
    assert PhaseInv(env, Exec(env, steps), step.i);
    WorkDecreases(env, Exec(env, steps), step);
  }

  lemma ExtendRun(env: Env, steps: seq<Step>, step: Step)
    requires IsRun(env, steps) && CanStep(env, Exec(env, steps), step)
    ensures IsRun(env, steps + [step]) && Exec(env, steps + [step]) == Next(env, Exec(env, steps), step)
  {
    hide Next, CanStep;
    assert (steps + [step])[..|steps|] == steps;
  }

  // The refill task run on its own until it has completed two refills.
  lemma RefillRound(env: Env, steps: seq<Step>) returns (refills: seq<Step>)
    requires IsRun(env, steps)
    ensures IsRun(env, steps + refills)
    ensures CompletedRefills(refills) == 2 && forall step :: step in refills ==> IsRefill(step)
  {
    refills := [];
    assert steps + refills == steps;
    while CompletedRefills(refills) < 2
      invariant IsRun(env, steps + refills)
      invariant CompletedRefills(refills) <= 2 && forall step :: step in refills ==> IsRefill(step)
      decreases 2 - CompletedRefills(refills), if Exec(env, steps + refills).limiter.seen.None? then 1 else 0
    {
      var step := if Exec(env, steps + refills).limiter.seen.None? then RefillRead else RefillAdd;
      RefillStep(env, steps + refills, step);
      assert steps + refills + [step] == steps + (refills + [step]);
      assert (refills + [step])[..|refills|] == refills;
      refills := refills + [step];
    }
  }

  lemma RefillStep(env: Env, steps: seq<Step>, step: Step)
    requires IsRun(env, steps)
    requires step == if Exec(env, steps).limiter.seen.None? then RefillRead else RefillAdd
    ensures IsRun(env, steps + [step])
    ensures Exec(env, steps + [step]).limiter.seen.Some? <==> step == RefillRead
  {
    hide IsRun, Exec, InFlight;
    ExtendRun(env, steps, step);
  }
}
