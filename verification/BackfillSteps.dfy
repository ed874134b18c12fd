// Which steps a backfill can take, and that its fan-out is used.
module BackfillSteps {
  import opened ChunkRanges
  import opened Backfill
  import opened BackfillProgress

  // A chunk is taken from the stream in order, as soon as fewer than `parallelism`
  // are under way; a permit is granted while there is one; a fetch can succeed or
  // fail; the writes of a chunk come in any order, and each can succeed or fail at
  // any point; and the refill task reads and adds in turn.
  predicate CanTake(env: Env, phases: seq<Phase>, permits: nat, reading: bool, step: Step)
  {
    match step
    case Start(i) =>
      && i < |phases| && phases[i].Waiting?
      && (forall j :: 0 <= j < i ==> !phases[j].Waiting?)
      && |set j | 0 <= j < |phases| && !phases[j].Waiting? && !phases[j].Done?| < env.parallelism
    case Grant(i) => i < |phases| && phases[i].Acquiring? && permits > 0
    case FetchOk(i) => i < |phases| && phases[i].Fetching?
    case FetchErr(i) => i < |phases| && phases[i].Fetching?
    case Process(i) => i < |phases| && phases[i].Fetched?
    case WriteOk(i, t) => i < |phases| && phases[i].Writing? && t in phases[i].left
    case WriteErr(i, t, _) => i < |phases| && phases[i].Writing? && t in phases[i].left
    case Finish(i) => i < |phases| && phases[i].Writing? && phases[i].left == map[]
    case RefillRead => !reading
    case RefillAdd => reading
  }

  // A run can be extended by exactly these steps.
  lemma StepsExactly(env: Env, steps: seq<Step>, step: Step)
    requires IsRun(env, steps)
    ensures var s := Exec(env, steps);
            IsRun(env, steps + [step]) <==> CanTake(env, s.phases, s.limiter.permits, s.limiter.seen.Some?, step)
  {
    hide Exec, InFlight;
    assert (steps + [step])[..|steps|] == steps;
    InFlightIsCount(Exec(env, steps).phases);
  }

  // From every reachable state with fewer than `parallelism` chunks under way and
  // a chunk that waits, the first one that waits can be started.
  lemma StartExtends(env: Env, steps: seq<Step>) returns (i: nat)
    requires IsRun(env, steps)
    requires exists j :: 0 <= j < |env.ranges| && Exec(env, steps).phases[j].Waiting?
    requires var phases := Exec(env, steps).phases;
             |set j | 0 <= j < |phases| && !phases[j].Waiting? && !phases[j].Done?| < env.parallelism
    ensures i < |env.ranges| && Exec(env, steps).phases[i].Waiting?
    ensures IsRun(env, steps + [Start(i)])
    ensures Exec(env, steps + [Start(i)]).phases == Exec(env, steps).phases[i := Acquiring]
  {
    hide Exec, IsRun, InFlight;
    var phases := Exec(env, steps).phases;
    i := 0;
    while !phases[i].Waiting?
      invariant 0 <= i < |phases|
      invariant forall j :: 0 <= j < i ==> !phases[j].Waiting?
      invariant exists j :: i <= j < |phases| && phases[j].Waiting?
      decreases |phases| - i
    {
      i := i + 1;
    }
    StepsExactly(env, steps, Start(i));
    InFlightIsCount(phases);
    ExtendRun(env, steps, Start(i));
  }

  ghost predicate FirstStarted(phases: seq<Phase>, k: nat) {
    forall i :: 0 <= i < |phases| ==> phases[i] == if i < k then Acquiring else Waiting
  }

  lemma {:induction false} FirstStartedCount(phases: seq<Phase>, k: nat)
    requires FirstStarted(phases, k) && k <= |phases|
    ensures |set i | 0 <= i < |phases| && !phases[i].Waiting? && !phases[i].Done?| == k
    decreases k
  {
    var started := set i | 0 <= i < |phases| && !phases[i].Waiting? && !phases[i].Done?;
    if k == 0 {
      assert started == {};
    } else {
      var fewer := phases[k - 1 := Waiting];
      FirstStartedCount(fewer, k - 1);
      assert started == (set i | 0 <= i < |fewer| && !fewer[i].Waiting? && !fewer[i].Done?) + {k - 1};
    }
  }

  lemma {:induction false} StartFirst(env: Env, k: nat) returns (steps: seq<Step>)
    requires k <= env.parallelism && k <= |env.ranges|
    ensures IsRun(env, steps) && FirstStarted(Exec(env, steps).phases, k)
  {
    if k == 0 {
      steps := [];
    } else {
      var before := StartFirst(env, k - 1);
      var phases := Exec(env, before).phases;
      hide Exec, IsRun;
      FirstStartedCount(phases, k - 1);
      assert phases[k - 1].Waiting?;
      var i := StartExtends(env, before);
      assert i >= k - 1;
      StepsExactly(env, before, Start(i));
      assert i == k - 1;
      steps := before + [Start(i)];
    }
  }

  // The fan-out is used to the full: there is a run with as many chunks under way
  // at once as `parallelism` and the number of chunks allow.
  lemma FullFanOut(env: Env) returns (steps: seq<Step>)
    requires env.Valid()
    ensures IsRun(env, steps)
    ensures var phases := Exec(env, steps).phases;
            |set i | 0 <= i < |phases| && !phases[i].Waiting? && !phases[i].Done?|
            == if env.parallelism < |env.ranges| then env.parallelism else |env.ranges|
  {
    hide Exec, IsRun, Partitions, HonestBlocks;
    var most := if env.parallelism < |env.ranges| then env.parallelism else |env.ranges|;
    steps := StartFirst(env, most);
    FirstStartedCount(Exec(env, steps).phases, most);
  }
}
