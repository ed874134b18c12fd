// src/backfill.rs: the token bucket shared by all chunk tasks and the refill task.
module RateLimiting {
  import opened Base

  // The bucket, the value the refill task has read but not yet acted on, and
  // how much was granted, added and refilled so far.
  datatype Limiter = Limiter(
    max: nat,
    permits: nat,
    seen: Option<nat>,
    granted: nat,
    added: nat,
    refills: nat)

  // The atomic steps.  `available_permits` and `add_permits` are two calls, so
  // any number of acquires can come between ReadAvailable and AddMissing.
  datatype LimiterStep = Acquire | ReadAvailable | AddMissing

  function Fresh(max: nat): Limiter {
    Limiter(max, max, None, 0, 0, 0)
  }

  predicate Enabled(l: Limiter, step: LimiterStep) {
    match step
    case Acquire => l.permits > 0
    case ReadAvailable => l.seen.None?
    case AddMissing => l.seen.Some?
  }

  function Missing(l: Limiter): nat {
    if l.seen.Some? && l.seen.value < l.max then l.max - l.seen.value else 0
  }

  function Apply(l: Limiter, step: LimiterStep): Limiter
    requires Enabled(l, step)
  {
    match step
    case Acquire => l.(permits := l.permits - 1, granted := l.granted + 1)
    case ReadAvailable => l.(seen := Some(l.permits))
    case AddMissing =>
      l.(permits := l.permits + Missing(l), seen := None, added := l.added + Missing(l), refills := l.refills + 1)
  }

  predicate ValidRun(l: Limiter, steps: seq<LimiterStep>)
    decreases |steps|
  {
    steps == [] || (Enabled(l, steps[0]) && ValidRun(Apply(l, steps[0]), steps[1..]))
  }

  function Run(l: Limiter, steps: seq<LimiterStep>): Limiter
    requires ValidRun(l, steps)
    decreases |steps|
  {
    if steps == [] then l else Run(Apply(l, steps[0]), steps[1..])
  }

  // How many refills a run completes.
  function Refills(steps: seq<LimiterStep>): nat {
    if steps == [] then 0 else (if steps[0].AddMissing? then 1 else 0) + Refills(steps[1..])
  }

  ghost predicate Inv(l: Limiter) {
    && l.permits <= l.max
    && (l.seen.Some? ==> l.permits <= l.seen.value <= l.max)
    && l.granted + l.permits == l.max + l.added
    && l.added <= l.refills * l.max
  }

  lemma StepKeepsInv(l: Limiter, step: LimiterStep)
    requires Inv(l) && Enabled(l, step)
    ensures Inv(Apply(l, step))
  {
    assert (l.refills + 1) * l.max == l.refills * l.max + l.max;
  }

  // In every state of every run the bucket holds at most max permits, although
  // the refill acts on a stale reading, and no permit is lost or made up.
  lemma {:induction false} BucketConserved(max: nat, steps: seq<LimiterStep>)
    requires ValidRun(Fresh(max), steps)
    ensures var l := Run(Fresh(max), steps);
            && l.permits <= max
            && l.granted + l.permits == max + l.added
            && l.added <= l.refills * max
  {
    RunKeepsInv(Fresh(max), steps);
  }

  lemma {:induction false} RunKeepsInv(l: Limiter, steps: seq<LimiterStep>)
    requires Inv(l) && ValidRun(l, steps)
    ensures Inv(Run(l, steps)) && Run(l, steps).max == l.max
    ensures Run(l, steps).refills == l.refills + Refills(steps)
    ensures Run(l, steps).added <= l.added + Refills(steps) * l.max
    decreases |steps|
  {
    if steps != [] {
      var next := Apply(l, steps[0]);
      StepKeepsInv(l, steps[0]);
      RunKeepsInv(next, steps[1..]);
      if steps[0].AddMissing? {
        assert (1 + Refills(steps[1..])) * l.max == l.max + Refills(steps[1..]) * l.max;
      }
    }
  }

  // Any stretch of a run with k refills grants at most max * (k + 1) fetches.
  lemma {:induction false} GrantsPerSegment(max: nat, before: seq<LimiterStep>, segment: seq<LimiterStep>)
    requires ValidRun(Fresh(max), before) && ValidRun(Run(Fresh(max), before), segment)
    ensures Run(Run(Fresh(max), before), segment).granted - Run(Fresh(max), before).granted
            <= max * (Refills(segment) + 1)
  {
    RunKeepsInv(Fresh(max), before);
    RunKeepsInv(Run(Fresh(max), before), segment);
    assert max * (Refills(segment) + 1) == Refills(segment) * max + max;
  }

  function Repeat(step: LimiterStep, n: nat): seq<LimiterStep> {
    if n == 0 then [] else [step] + Repeat(step, n - 1)
  }

  function BusySegment(max: nat, k: nat): seq<LimiterStep> {
    if k == 0 then Repeat(Acquire, max)
    else Repeat(Acquire, max) + ([ReadAvailable, AddMissing] + BusySegment(max, k - 1))
  }

  lemma {:induction false} RunConcat(l: Limiter, a: seq<LimiterStep>, b: seq<LimiterStep>)
    requires ValidRun(l, a) && ValidRun(Run(l, a), b)
    ensures ValidRun(l, a + b) && Run(l, a + b) == Run(Run(l, a), b)
    ensures Refills(a + b) == Refills(a) + Refills(b)
    decreases |a|
  {
    if a == [] {
      assert a + b == b;
    } else {
      assert (a + b)[1..] == a[1..] + b;
      RunConcat(Apply(l, a[0]), a[1..], b);
    }
  }

  lemma {:induction false} AcquireAll(l: Limiter, n: nat)
    requires n <= l.permits
    ensures ValidRun(l, Repeat(Acquire, n))
    ensures Run(l, Repeat(Acquire, n)) == l.(permits := l.permits - n, granted := l.granted + n)
    ensures Refills(Repeat(Acquire, n)) == 0
    decreases n
  {
    if n > 0 {
      AcquireAll(Apply(l, Acquire), n - 1);
      assert Repeat(Acquire, n)[1..] == Repeat(Acquire, n - 1);
    }
  }

  function Filled(empty: Limiter): Limiter {
    empty.(permits := empty.max, added := empty.added + empty.max, refills := empty.refills + 1)
  }

  // An empty bucket is full again after a refill without an acquire in between.
  lemma FullAgain(empty: Limiter, rest: seq<LimiterStep>)
    requires empty.permits == 0 && empty.seen.None? && ValidRun(Filled(empty), rest)
    ensures var tail := [ReadAvailable, AddMissing] + rest;
            && ValidRun(empty, tail) && Run(empty, tail) == Run(Filled(empty), rest)
            && Refills(tail) == Refills(rest) + 1
  {
    var read := Apply(empty, ReadAvailable);
    var full := Apply(read, AddMissing);
    assert full == Filled(empty);
    var tail := [ReadAvailable, AddMissing] + rest;
    assert tail[1..] == [AddMissing] + rest && tail[1..][1..] == rest;
    assert ValidRun(read, tail[1..]) && Run(read, tail[1..]) == Run(full, rest);
  }

  // The segment bound is reached for every max and k, so it is the exact one.
  lemma {:induction false} SegmentBoundIsTight(max: nat, k: nat, l: Limiter)
    requires l.max == l.permits == max && l.seen.None?
    ensures ValidRun(l, BusySegment(max, k)) && Refills(BusySegment(max, k)) == k
    ensures Run(l, BusySegment(max, k)).granted == l.granted + max * (k + 1)
  {
    hide ValidRun, Run, Refills;
    AcquireAll(l, max);
    if k > 0 {
      var empty := l.(permits := 0, granted := l.granted + max);
      SegmentBoundIsTight(max, k - 1, Filled(empty));
      FullAgain(empty, BusySegment(max, k - 1));
      RunConcat(l, Repeat(Acquire, max), [ReadAvailable, AddMissing] + BusySegment(max, k - 1));
      assert max * (k + 1) == max * k + max;
    }
  }

  // The semaphore and the refill task as they change in place.
  class RateLimiter {
    const maxPerSecond: nat
    var permits: nat
    var available: Option<nat>  // local variable of the refill task between its two calls
    ghost var granted: nat
    ghost var added: nat
    ghost var refills: nat

    ghost function State(): Limiter
      reads this
    {
      Limiter(maxPerSecond, permits, available, granted, added, refills)
    }

    constructor (maxPerSecond: nat)
      ensures State() == Fresh(maxPerSecond)
    {
      this.maxPerSecond := maxPerSecond;
      permits := maxPerSecond;
      available := None;
      granted, added, refills := 0, 0, 0;
    }

    // One poll of `acquire`: the permit is taken and forgotten, or the task
    // stays suspended.
    method PollAcquire() returns (ready: bool)
      modifies this
      ensures ready <==> Enabled(old(State()), Acquire)
      ensures State() == if ready then Apply(old(State()), Acquire) else old(State())
    {
      ready := permits > 0;
      if ready {
        permits := permits - 1;
        granted := granted + 1;
      }
    }

    method RefillRead()
      requires available.None?
      modifies this
      ensures State() == Apply(old(State()), ReadAvailable)
    {
      available := Some(permits);
    }

    method RefillAdd()
      requires available.Some?
      modifies this
      ensures State() == Apply(old(State()), AddMissing)
    {
      if available.value < maxPerSecond {
        permits := permits + (maxPerSecond - available.value);
        added := added + (maxPerSecond - available.value);
      }
      available := None;
      refills := refills + 1;
    }
  }
}
