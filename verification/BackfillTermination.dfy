// Every fair schedule finishes a backfill, and when it finishes with Ok.
module BackfillTermination {
  import opened ChunkRanges
  import opened Backfill
  import opened BackfillData
  import opened BackfillFailures
  import opened BackfillOutcome
  import opened BackfillProgress

  // The first n steps of an infinite schedule, and those from the k-th up to the n-th.
  function Prefix(schedule: nat -> Step, n: nat): (steps: seq<Step>)
    ensures |steps| == n && forall i :: 0 <= i < n ==> steps[i] == schedule(i)
  {
    seq(n, i requires 0 <= i < n => schedule(i))
  }

  function Segment(schedule: nat -> Step, k: nat, n: nat): (steps: seq<Step>)
    requires k <= n
    ensures |steps| == n - k && forall i :: 0 <= i < n - k ==> steps[i] == schedule(k + i)
  {
    seq(n - k, i requires 0 <= i < n - k => schedule(k + i))
  }

  lemma PrefixGrows(schedule: nat -> Step, k: nat, n: nat)
    requires k <= n
    ensures Prefix(schedule, n) == Prefix(schedule, k) + Segment(schedule, k, n)
    ensures Prefix(schedule, n + 1)[..n] == Prefix(schedule, n)
  {
  }

  ghost predicate IsSchedule(env: Env, schedule: nat -> Step) {
    forall n: nat :: IsRun(env, Prefix(schedule, n))
  }

  function At(schedule: nat -> Step, n: nat): Step {
    schedule(n)
  }

  // The refill task goes on for ever.
  ghost predicate RefillsRecur(schedule: nat -> Step) {
    forall n: nat :: RefilledFrom(schedule, n)
  }

  ghost predicate RefilledFrom(schedule: nat -> Step, n: nat) {
    exists m: nat :: n <= m && At(schedule, m).RefillAdd?
  }

  // A chunk moves at position m, or none could.
  ghost predicate Served(env: Env, schedule: nat -> Step, m: nat)
    requires IsSchedule(env, schedule)
  {
    !IsRefill(At(schedule, m)) || !ChunkStepEnabled(env, Exec(env, Prefix(schedule, m)))
  }

  // Weak fairness towards the chunk tasks taken together: they are not passed
  // over for ever while one of them can move.  No single task is favoured.
  ghost predicate Fair(env: Env, schedule: nat -> Step)
    requires IsSchedule(env, schedule)
  {
    forall n: nat :: ServedFrom(env, schedule, n)
  }

  ghost predicate ServedFrom(env: Env, schedule: nat -> Step, n: nat)
    requires IsSchedule(env, schedule)
  {
    exists m: nat :: n <= m && Served(env, schedule, m)
  }

  lemma ScheduleStep(env: Env, schedule: nat -> Step, n: nat)
    requires IsSchedule(env, schedule)
    ensures IsRun(env, Prefix(schedule, n)) && IsRun(env, Prefix(schedule, n + 1))
    ensures CanStep(env, Exec(env, Prefix(schedule, n)), At(schedule, n))
    ensures Exec(env, Prefix(schedule, n + 1)) == Next(env, Exec(env, Prefix(schedule, n)), At(schedule, n))
  {
    hide Next, CanStep;
    PrefixGrows(schedule, n, n);
    assert IsRun(env, Prefix(schedule, n + 1));
  }

  ghost function WorkAt(env: Env, schedule: nat -> Step, n: nat): nat
    requires IsSchedule(env, schedule)
  {
    Work(env, Exec(env, Prefix(schedule, n)))
  }

  // The work left falls with each step of a chunk and never rises.
  lemma WorkStep(env: Env, schedule: nat -> Step, n: nat)
    requires env.Valid() && IsSchedule(env, schedule)
    ensures WorkAt(env, schedule, n + 1) <= WorkAt(env, schedule, n)
    ensures !IsRefill(At(schedule, n)) ==> WorkAt(env, schedule, n + 1) < WorkAt(env, schedule, n)
  {
    hide Next, CanStep, Work, PhaseInv, FileInv, Exec, IsRun, AsBefore;
    ScheduleStep(env, schedule, n);
    var s := Exec(env, Prefix(schedule, n));
    RunKeepsFiles(env, Prefix(schedule, n));
    StepNames(env, s, At(schedule, n));
    WorkDecreases(env, s, At(schedule, n));
  }

  lemma StepNames(env: Env, s: System, step: Step)
    requires |s.phases| == |env.ranges| && CanStep(env, s, step)
    ensures !IsRefill(step) ==> step.i < |s.phases|
  {
    hide InFlight;
  }

  lemma {:induction false} WorkNeverRises(env: Env, schedule: nat -> Step, k: nat, n: nat)
    requires env.Valid() && IsSchedule(env, schedule) && k <= n
    ensures WorkAt(env, schedule, n) <= WorkAt(env, schedule, k)
    decreases n
  {
    hide WorkAt;
    if k < n {
      WorkNeverRises(env, schedule, k, n - 1);
      WorkStep(env, schedule, n - 1);
    }
  }

  // Two refills at different positions of a segment are counted.
  lemma {:induction false} TwoRefills(steps: seq<Step>, i: nat, j: nat)
    requires i < j < |steps| && steps[i].RefillAdd? && steps[j].RefillAdd?
    ensures CompletedRefills(steps) >= 2
  {
    var n := |steps| - 1;
    if j < n {
      TwoRefills(steps[..n], i, j);
    } else {
      OneRefill(steps[..n], i);
    }
  }

  lemma {:induction false} OneRefill(steps: seq<Step>, i: nat)
    requires i < |steps| && steps[i].RefillAdd?
    ensures CompletedRefills(steps) >= 1
  {
    if i < |steps| - 1 {
      OneRefill(steps[..|steps| - 1], i);
    }
  }

  // An unfinished run in which only the refill task moves, with two refills, has
  // left some chunk able to move.
  lemma StuckIsUnfair(env: Env, schedule: nat -> Step, k: nat, first: nat, second: nat, n: nat)
    requires env.Valid() && IsSchedule(env, schedule) && k <= first < second < n
    requires !Terminal(Exec(env, Prefix(schedule, k)))
    requires forall j :: k <= j < n ==> IsRefill(At(schedule, j))
    requires At(schedule, first).RefillAdd? && At(schedule, second).RefillAdd?
    ensures ChunkStepEnabled(env, Exec(env, Prefix(schedule, n)))
  {
    hide *;
    ScheduleStep(env, schedule, k);
    ScheduleStep(env, schedule, n);
    PrefixGrows(schedule, k, n);
    OnlyRefills(schedule, k, first, second, n);
    var step := RefillsUnblock(env, Prefix(schedule, k), Segment(schedule, k, n));
    Enables(env, Exec(env, Prefix(schedule, n)), step);
  }

  lemma Enables(env: Env, s: System, step: Step)
    requires |s.phases| == |env.ranges| && !IsRefill(step) && CanStep(env, s, step)
    ensures ChunkStepEnabled(env, s)
  {
    hide CanStep;
  }

  lemma OnlyRefills(schedule: nat -> Step, k: nat, first: nat, second: nat, n: nat)
    requires k <= first < second < n
    requires forall j :: k <= j < n ==> IsRefill(At(schedule, j))
    requires At(schedule, first).RefillAdd? && At(schedule, second).RefillAdd?
    ensures CompletedRefills(Segment(schedule, k, n)) >= 2
    ensures forall step :: step in Segment(schedule, k, n) ==> IsRefill(step)
  {
    hide CompletedRefills, IsRefill;
    var refills := Segment(schedule, k, n);
    assert refills[first - k] == At(schedule, first) && refills[second - k] == At(schedule, second);
    TwoRefills(refills, first - k, second - k);
    forall step | step in refills ensures IsRefill(step) {
      var j :| 0 <= j < |refills| && refills[j] == step;
      assert step == At(schedule, k + j);
    }
  }

  // Termination: under every schedule in which refills recur and the chunk tasks
  // are not starved, every backfill finishes, from wherever it stands.
  lemma TerminatesFrom(env: Env, schedule: nat -> Step, k: nat) returns (n: nat)
    requires env.Valid() && IsSchedule(env, schedule) && RefillsRecur(schedule) && Fair(env, schedule)
    ensures k <= n && Terminal(Exec(env, Prefix(schedule, n)))
    decreases WorkAt(env, schedule, k)
  {
    hide Exec, IsRun, Terminal, ChunkStepEnabled, WorkAt, At;
    assert IsRun(env, Prefix(schedule, k)) && RefilledFrom(schedule, k);
    if Terminal(Exec(env, Prefix(schedule, k))) {
      return k;
    }
    var first: nat :| k <= first && At(schedule, first).RefillAdd?;
    assert RefilledFrom(schedule, first + 1);
    var second: nat :| first + 1 <= second && At(schedule, second).RefillAdd?;
    assert ServedFrom(env, schedule, second + 1);
    var m: nat :| second + 1 <= m && Served(env, schedule, m);
    if j: nat :| k <= j <= m && !IsRefill(At(schedule, j)) {
      WorkNeverRises(env, schedule, k, j);
      WorkStep(env, schedule, j);
      n := TerminatesFrom(env, schedule, j + 1);
    } else {
      StuckIsUnfair(env, schedule, k, first, second, m);
      assert false;
    }
  }

  // It then returns Ok, or at least has the right files, exactly if nothing failed
  // on the way; what tells the two apart is whether all logs have their metadata.
  lemma Terminates(env: Env, schedule: nat -> Step) returns (n: nat)
    requires env.Valid() && IsSchedule(env, schedule) && RefillsRecur(schedule) && Fair(env, schedule)
    ensures Terminal(Exec(env, Prefix(schedule, n)))
    ensures ReturnsOk(Exec(env, Prefix(schedule, n))) <==>
            && (forall i :: 0 <= i < n ==> !IsError(At(schedule, i)))
            && AllComplete(env.chain, Range(env.start, env.end))
    ensures (forall t :: Clean(env, Exec(env, Prefix(schedule, n)), t)) <==>
            forall i :: 0 <= i < n ==> !IsError(At(schedule, i))
  {
    hide Exec, IsRun, Terminal, ReturnsOk, AllComplete, Clean;
    n := TerminatesFrom(env, schedule, 0);
    OkExactly(env, Prefix(schedule, n));
    CleanExactly(env, Prefix(schedule, n));
    NoErrors(schedule, n);
  }

  lemma NoErrors(schedule: nat -> Step, n: nat)
    ensures (forall step :: step in Prefix(schedule, n) ==> !step.FetchErr? && !step.WriteErr?)
            <==> forall i :: 0 <= i < n ==> !IsError(At(schedule, i))
    ensures (forall step :: step in Prefix(schedule, n) ==> !IsError(step))
            <==> forall i :: 0 <= i < n ==> !IsError(At(schedule, i))
  {
    forall i | 0 <= i < n ensures At(schedule, i) in Prefix(schedule, n) {
      assert Prefix(schedule, n)[i] == schedule(i);
    }
    forall step | step in Prefix(schedule, n) ensures exists i :: 0 <= i < n && At(schedule, i) == step {
      var i :| 0 <= i < n && Prefix(schedule, n)[i] == step;
      assert At(schedule, i) == step;
    }
  }

  // --- such schedules exist ---

  // A finite run followed by the refill task alone.
  function RunThenRefill(run: seq<Step>, readNext: bool): nat -> Step {
    (n: nat) =>
      if n < |run| then run[n] else if (n - |run|) % 2 == (if readNext then 0 else 1) then RefillRead else RefillAdd
  }

  lemma {:induction false} RunThenRefillRuns(env: Env, run: seq<Step>, readNext: bool, n: nat)
    requires env.Valid() && IsRun(env, run) && (readNext <==> Exec(env, run).limiter.seen.None?)
    ensures IsRun(env, Prefix(RunThenRefill(run, readNext), n))
    ensures n >= |run| ==>
              var s := Exec(env, Prefix(RunThenRefill(run, readNext), n));
              && s.phases == Exec(env, run).phases
              && (s.limiter.seen.None? <==> RunThenRefill(run, readNext)(n) == RefillRead)
    decreases n
  {
    hide Exec, IsRun, CanStep, Next;
    var schedule := RunThenRefill(run, readNext);
    if n <= |run| {
      assert Prefix(schedule, n) == run[..n];
      PrefixIsRun(env, run, n);
      assert n == |run| ==> run[..n] == run;
    } else {
      RunThenRefillRuns(env, run, readNext, n - 1);
      var before := Prefix(schedule, n - 1);
      RefillStep(env, before, schedule(n - 1));
      RefillKept(env, Exec(env, before), schedule(n - 1));
      ExtendRun(env, before, schedule(n - 1));
      assert Prefix(schedule, n) == before + [schedule(n - 1)];
      Alternates(n - |run|);
    }
  }

  lemma Alternates(k: nat)
    requires k > 0
    ensures k % 2 != (k - 1) % 2
  {
  }

  lemma RefillKept(env: Env, s: System, step: Step)
    requires |s.phases| == |env.ranges|
    requires step == if s.limiter.seen.None? then RefillRead else RefillAdd
    ensures CanStep(env, s, step) && Next(env, s, step).phases == s.phases
  {
    hide InFlight;
  }

  lemma RefillsAlternate(run: seq<Step>, readNext: bool, n: nat)
    ensures RefilledFrom(RunThenRefill(run, readNext), n)
  {
    var m := |run| + 2 * n;
    var schedule := RunThenRefill(run, readNext);
    assert (m - |run|) % 2 == 0 && (m + 1 - |run|) % 2 == 1;
    assert At(schedule, m).RefillAdd? || At(schedule, m + 1).RefillAdd?;
  }

  lemma NothingEnabled(env: Env, s: System)
    requires |s.phases| == |env.ranges| && Terminal(s)
    ensures !ChunkStepEnabled(env, s)
  {
    hide InFlight;
  }

  lemma RunThenRefillServes(env: Env, run: seq<Step>, readNext: bool, n: nat)
    requires env.Valid() && IsRun(env, run) && (readNext <==> Exec(env, run).limiter.seen.None?)
    requires Terminal(Exec(env, run)) && IsSchedule(env, RunThenRefill(run, readNext))
    ensures ServedFrom(env, RunThenRefill(run, readNext), n)
  {
    hide Exec, IsRun, Terminal, ChunkStepEnabled, At, RunThenRefill, IsSchedule;
    var schedule, m := RunThenRefill(run, readNext), |run| + n;
    RunThenRefillRuns(env, run, readNext, m);
    SameTerminal(Exec(env, run), Exec(env, Prefix(schedule, m)));
    NothingEnabled(env, Exec(env, Prefix(schedule, m)));
    assert Served(env, schedule, m);
  }

  lemma RunThenRefillIsFair(env: Env, run: seq<Step>, readNext: bool)
    requires env.Valid() && IsRun(env, run) && (readNext <==> Exec(env, run).limiter.seen.None?)
    requires Terminal(Exec(env, run))
    ensures IsSchedule(env, RunThenRefill(run, readNext)) && RefillsRecur(RunThenRefill(run, readNext))
    ensures Fair(env, RunThenRefill(run, readNext))
  {
    hide Exec, IsRun, Terminal, ServedFrom, RefilledFrom, RunThenRefill;
    var schedule := RunThenRefill(run, readNext);
    forall n: nat ensures IsRun(env, Prefix(schedule, n)) {
      RunThenRefillRuns(env, run, readNext, n);
    }
    forall n: nat ensures RefilledFrom(schedule, n) {
      RefillsAlternate(run, readNext, n);
    }
    forall n: nat ensures ServedFrom(env, schedule, n) {
      RunThenRefillServes(env, run, readNext, n);
    }
  }

  // Every backfill has a fair schedule in which refills recur, so that Terminates
  // speaks of something: one that completes it and then only refills.
  lemma FairScheduleExists(env: Env)
    requires env.Valid()
    ensures exists schedule: nat -> Step ::
              IsSchedule(env, schedule) && RefillsRecur(schedule) && Fair(env, schedule)
  {
    assert IsRun(env, []);
    hide *;
    var run := CanFinish(env, []);
    assert [] + run == run;
    RunThenRefillIsFair(env, run, Exec(env, run).limiter.seen.None?);
  }

  lemma SameTerminal(s: System, s': System)
    requires Terminal(s) && s'.phases == s.phases
    ensures Terminal(s')
  {
  }

  // Success is always within reach: a run without failures, of a range whose
  // logs have their metadata, can be completed to one that returns Ok.
  lemma CanSucceed(env: Env, steps: seq<Step>) returns (rest: seq<Step>)
    requires env.Valid() && IsRun(env, steps) && AllComplete(env.chain, Range(env.start, env.end))
    requires forall step :: step in steps ==> !IsError(step)
    ensures IsRun(env, steps + rest) && ReturnsOk(Exec(env, steps + rest))
  {
    hide Exec, IsRun, Terminal, ReturnsOk, AllComplete;
    rest := CanFinish(env, steps);
    OkExactly(env, steps + rest);
  }
}
