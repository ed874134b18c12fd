// The published rates are recounts of the whole history, and how they relate.
module RateResults {
  import opened Base
  import opened Decode
  import opened LabelledCounts
  import opened Rates

  // --- one deque ---

  lemma {:induction false} RecentConcat(a: seq<int>, b: seq<int>, cutoff: int)
    ensures Recent(a + b, cutoff) == Recent(a, cutoff) + Recent(b, cutoff)
    decreases |b|
  {
    if b == [] {
      assert a + b == a;
    } else {
      assert (a + b)[..|a + b| - 1] == a + b[..|b| - 1];
      RecentConcat(a, b[..|b| - 1], cutoff);
    }
  }

  lemma {:induction false} RecentAll(times: seq<int>, cutoff: int)
    requires forall i :: 0 <= i < |times| ==> times[i] >= cutoff
    ensures Recent(times, cutoff) == times
  {
    if times != [] {
      RecentAll(times[..|times| - 1], cutoff);
      assert times == times[..|times| - 1] + [times[|times| - 1]];
    }
  }

  // On an ascending queue popping from the front is filtering.
  lemma {:induction false} PopIsFilter(queue: seq<int>, cutoff: int)
    requires Ascending(queue)
    ensures PopOld(queue, cutoff) == Recent(queue, cutoff)
  {
    if queue != [] {
      if queue[0] < cutoff {
        PopIsFilter(queue[1..], cutoff);
        assert queue == [queue[0]] + queue[1..];
        RecentConcat([queue[0]], queue[1..], cutoff);
        assert Recent([queue[0]], cutoff) == [];
      } else {
        RecentAll(queue, cutoff);
      }
    }
  }

  lemma {:induction false} RecentTwice(times: seq<int>, first: int, second: int)
    requires first <= second
    ensures Recent(Recent(times, first), second) == Recent(times, second)
  {
    if times != [] {
      var before, last := times[..|times| - 1], times[|times| - 1];
      RecentTwice(before, first, second);
      if last >= first {
        RecentConcat(Recent(before, first), [last], second);
        assert Recent([], second) == [];
        assert Recent([last], second) == if last >= second then [last] else [];
      } else {
        assert Recent(times, first) == Recent(before, first);
      }
    }
  }

  lemma {:induction false} RecentMember(times: seq<int>, cutoff: int)
    ensures forall x :: x in Recent(times, cutoff) <==> x in times && x >= cutoff
  {
    if times != [] {
      RecentMember(times[..|times| - 1], cutoff);
      assert times == times[..|times| - 1] + [times[|times| - 1]];
    }
  }

  lemma {:induction false} RecentAscending(times: seq<int>, cutoff: int)
    requires Ascending(times)
    ensures Ascending(Recent(times, cutoff))
  {
    if times != [] {
      var before, last := times[..|times| - 1], times[|times| - 1];
      RecentAscending(before, cutoff);
      RecentMember(before, cutoff);
      forall i | 0 <= i < |Recent(before, cutoff)| ensures Recent(before, cutoff)[i] <= last {
        assert Recent(before, cutoff)[i] in Recent(before, cutoff);
        assert Recent(before, cutoff)[i] in before;
      }
    }
  }

  // A window of a history, with later timestamps pushed, is in order.
  lemma WindowAscending(history: seq<int>, earlier: Option<int>, pushed: seq<int>)
    requires Ascending(history + pushed)
    ensures Ascending(Window(history, earlier) + pushed)
  {
    hide Recent;
    var all, window := history + pushed, Window(history, earlier);
    assert Ascending(history) by {
      assert forall i :: 0 <= i < |history| ==> all[i] == history[i];
    }
    if earlier.Some? {
      RecentAscending(history, earlier.value);
      RecentMember(history, earlier.value);
    }
    forall i, j | 0 <= i < j < |window + pushed| ensures (window + pushed)[i] <= (window + pushed)[j] {
      if |window| <= i {
        assert all[|history| + i - |window|] <= all[|history| + j - |window|];
      } else if |window| <= j {
        assert window[i] in window && window[i] in history;
        var k :| 0 <= k < |history| && history[k] == window[i];
        assert all[k] <= all[|history| + j - |window|];
      }
    }
  }

  // The front-popping loop refines a full recount: a deque that was the window
  // of a history, with some later timestamps pushed, is pruned to the window of
  // the longer history.
  lemma PruneIsRecount(history: seq<int>, earlier: Option<int>, pushed: seq<int>, cutoff: int)
    requires Ascending(history + pushed) && (earlier.Some? ==> earlier.value <= cutoff)
    ensures PopOld(Window(history, earlier) + pushed, cutoff) == Recent(history + pushed, cutoff)
  {
    hide Ascending, Recent, PopOld;
    WindowAscending(history, earlier, pushed);
    PopIsFilter(Window(history, earlier) + pushed, cutoff);
    RecentConcat(Window(history, earlier), pushed, cutoff);
    RecentConcat(history, pushed, cutoff);
    if earlier.Some? {
      RecentTwice(history, earlier.value, cutoff);
    }
  }

  // --- histories ---

  lemma {:induction false} LogTimesAscending(seen: seq<Observation>, clock: int)
    requires Serial(seen, clock)
    ensures Ascending(LogTimes(seen)) && |LogTimes(seen)| == |seen|
    ensures forall i :: 0 <= i < |seen| ==> LogTimes(seen)[i] == seen[i].logAt
  {
    if seen != [] {
      LogTimesAscending(seen[..|seen| - 1], clock);
    }
  }

  lemma {:induction false} TypeTimesAscending(seen: seq<Observation>, clock: int, t: EventType)
    requires Serial(seen, clock)
    ensures Ascending(TypeTimes(seen, t))
    ensures forall x :: x in TypeTimes(seen, t) ==> x <= LastStamp(seen[|seen| - 1])
  {
    if seen != [] {
      var before := seen[..|seen| - 1];
      TypeTimesAscending(before, clock, t);
      assert before != [] ==> LastStamp(before[|before| - 1]) <= seen[|seen| - 1].logAt;
      forall i | 0 <= i < |TypeTimes(before, t)| ensures TypeTimes(before, t)[i] <= seen[|seen| - 1].logAt {
        assert TypeTimes(before, t)[i] in TypeTimes(before, t);
      }
    }
  }

  lemma LogTimesSnoc(seen: seq<Observation>, o: Observation)
    ensures LogTimes(seen + [o]) == LogTimes(seen) + [o.logAt]
    ensures forall t :: TypeTimes(seen + [o], t) == TypeTimes(seen, t) + TypePart(o, t)
  {
    assert (seen + [o])[..|seen|] == seen;
  }

  // --- all runs ---

  // The deque of type t after it was pruned and published, `pushed` being the
  // timestamps that were added to it first.
  lemma PruneType(s: System, s': System, r: RateState, t: EventType, pushed: seq<int>, now: int)
    requires TypeOk(s, t) && (s.cutoff.Some? ==> s.cutoff.value <= Cutoff(now))
    requires t in r.byType <==> t in s.rates.byType || pushed != []
    requires t in r.byType ==> r.byType[t] == (if t in s.rates.byType then s.rates.byType[t] else []) + pushed
    requires s'.rates == Publish(Prune(r, now)) && s'.cutoff == Some(Cutoff(now))
    requires TypeTimes(s'.seen, t) == TypeTimes(s.seen, t) + pushed && Ascending(TypeTimes(s'.seen, t))
    ensures TypeOk(s', t)
  {
    hide TypeTimes, Ascending, PopOld, Recent;
    EmptyWindow(s.cutoff);
    PruneIsRecount(TypeTimes(s.seen, t), s.cutoff, pushed, Cutoff(now));
  }

  lemma EmptyWindow(cutoff: Option<int>)
    ensures Window([], cutoff) == []
  {
  }

  // The total deque, likewise.
  lemma PruneTotal(s: System, s': System, r: RateState, pushed: seq<int>, now: int)
    requires s.rates.total == Window(LogTimes(s.seen), s.cutoff) && (s.cutoff.Some? ==> s.cutoff.value <= Cutoff(now))
    requires r.total == s.rates.total + pushed
    requires s'.rates == Publish(Prune(r, now)) && s'.cutoff == Some(Cutoff(now))
    requires LogTimes(s'.seen) == LogTimes(s.seen) + pushed && Ascending(LogTimes(s'.seen))
    ensures s'.rates.total == Window(LogTimes(s'.seen), s'.cutoff) && s'.rates.totalRate == |s'.rates.total|
  {
    hide LogTimes, Ascending, PopOld, Recent;
    PruneIsRecount(LogTimes(s.seen), s.cutoff, pushed, Cutoff(now));
  }

  lemma SameGauges(r: RateState, r': RateState, now: int)
    requires r' == Publish(Prune(r, now)) && r.typeRates.Keys <= r.byType.Keys
    ensures r'.typeRates.Keys == r'.byType.Keys
  {
    hide PopOld;
  }

  // The timestamps of type t that a step has pushed.
  function Pushed(pushed: Option<(EventType, int)>, t: EventType): seq<int> {
    if pushed.Some? && pushed.value.0 == t then [pushed.value.1] else []
  }

  function PushAll(r: RateState, logAt: Option<int>, typed: Option<(EventType, int)>): RateState {
    var withLog := if logAt.Some? then AddTotal(r, logAt.value) else r;
    if typed.Some? then AddType(withLog, typed.value.0, typed.value.1) else withLog
  }

  function AsSeq(at: Option<int>): seq<int> {
    if at.Some? then [at.value] else []
  }

  // A step that prunes and publishes, whatever it has pushed before.
  ghost predicate Prunes(s: System, s': System, logAt: Option<int>, typed: Option<(EventType, int)>, now: int) {
    && s.clock <= now && s'.clock == now && s'.cutoff == Some(Cutoff(now))
    && s'.rates == Publish(Prune(PushAll(s.rates, logAt, typed), now))
    && LogTimes(s'.seen) == LogTimes(s.seen) + AsSeq(logAt)
    && forall t :: TypeTimes(s'.seen, t) == TypeTimes(s.seen, t) + Pushed(typed, t)
  }

  lemma PushedTo(r: RateState, logAt: Option<int>, typed: Option<(EventType, int)>, t: EventType)
    ensures var r' := PushAll(r, logAt, typed);
            && (t in r'.byType <==> t in r.byType || Pushed(typed, t) != [])
            && (t in r'.byType ==> r'.byType[t] == (if t in r.byType then r.byType[t] else []) + Pushed(typed, t))
  {
  }

  lemma PruneKeepsType(s: System, s': System, logAt: Option<int>, typed: Option<(EventType, int)>, now: int,
                       t: EventType)
    requires Inv(s) && Prunes(s, s', logAt, typed, now) && Serial(s'.seen, now)
    ensures TypeOk(s', t)
  {
    hide PopOld, Recent, LogTimes, TypeTimes, Window, TypeOk, Publish, Prune, Ascending, Serial, CallerInv, PushAll;
    TypeTimesAscending(s'.seen, now, t);
    assert TypeOk(s, t);
    PushedTo(s.rates, logAt, typed, t);
    PruneType(s, s', PushAll(s.rates, logAt, typed), t, Pushed(typed, t), now);
  }

  lemma PruneKeepsTotal(s: System, s': System, logAt: Option<int>, typed: Option<(EventType, int)>, now: int)
    requires Inv(s) && Prunes(s, s', logAt, typed, now) && Serial(s'.seen, now)
    ensures s'.rates.total == Window(LogTimes(s'.seen), s'.cutoff) && s'.rates.totalRate == |s'.rates.total|
    ensures s'.rates.typeRates.Keys == s'.rates.byType.Keys
  {
    LogTimesAscending(s'.seen, now);
    hide PopOld, Recent, LogTimes, TypeTimes, Window, TypeOk, Publish, Prune, Ascending, Serial, CallerInv;
    var r := PushAll(s.rates, logAt, typed);
    PruneTotal(s, s', r, AsSeq(logAt), now);
    SameGauges(r, s'.rates, now);
  }

  lemma PruneKeepsInv(s: System, s': System, logAt: Option<int>, typed: Option<(EventType, int)>, now: int)
    requires Inv(s) && Prunes(s, s', logAt, typed, now) && Serial(s'.seen, now) && CallerInv(s')
    ensures Inv(s')
  {
    hide Inv, Prunes, TypeOk, Serial, CallerInv, Window, LogTimes;
    PruneKeepsTotal(s, s', logAt, typed, now);
    forall t ensures TypeOk(s', t) {
      PruneKeepsType(s, s', logAt, typed, now, t);
    }
    PrunedInv(s', s, logAt, typed, now);
  }

  lemma PrunedInv(s': System, s: System, logAt: Option<int>, typed: Option<(EventType, int)>, now: int)
    requires Prunes(s, s', logAt, typed, now) && Serial(s'.seen, now) && CallerInv(s')
    requires s'.rates.total == Window(LogTimes(s'.seen), s'.cutoff) && s'.rates.totalRate == |s'.rates.total|
    requires s'.rates.typeRates.Keys == s'.rates.byType.Keys && forall t :: TypeOk(s', t)
    ensures Inv(s')
  {
    hide TypeOk, Serial, CallerInv, Window, LogTimes, TypeTimes;
  }

  lemma TickerKeepsInv(s: System, now: int)
    requires Inv(s) && CanStep(s, Ticker(now))
    ensures Inv(Next(s, Ticker(now)))
  {
    hide LogTimes, TypeTimes, TypeOk, Publish, Prune, Window;
    PruneKeepsInv(s, Next(s, Ticker(now)), None, None, now);
  }

  lemma LogPrunes(s: System, now: int)
    requires CanStep(s, CommitLog(now))
    ensures Prunes(s, Next(s, CommitLog(now)), Some(s.caller.at), None, now)
  {
    LogTimesSnoc(s.seen, Observation(s.caller.at, None));
    hide LogTimes, TypeTimes, Publish, Prune;
  }

  lemma LogKeepsInv(s: System, now: int)
    requires Inv(s) && CanStep(s, CommitLog(now))
    ensures Inv(Next(s, CommitLog(now)))
  {
    hide LogTimes, TypeTimes, TypeOk, Publish, Prune, Window, Prunes;
    LogPrunes(s, now);
    PruneKeepsInv(s, Next(s, CommitLog(now)), Some(s.caller.at), None, now);
  }

  // Giving the last observation its type changes no log time.
  lemma TypedTimes(before: seq<Observation>, o: Observation, t: EventType, at: int)
    requires o.typed.None?
    ensures LogTimes(before + [o.(typed := Some((t, at)))]) == LogTimes(before + [o])
    ensures forall u :: TypeTimes(before + [o.(typed := Some((t, at)))], u)
                        == TypeTimes(before + [o], u) + Pushed(Some((t, at)), u)
  {
    LogTimesSnoc(before, o);
    LogTimesSnoc(before, o.(typed := Some((t, at))));
  }

  lemma TypePrunes(s: System, now: int)
    requires CanStep(s, CommitType(now)) && s.seen != [] && s.seen[|s.seen| - 1].typed.None?
    ensures Prunes(s, Next(s, CommitType(now)), None, Some((s.caller.t, s.caller.at)), now)
  {
    var before, o := s.seen[..|s.seen| - 1], s.seen[|s.seen| - 1];
    assert s.seen == before + [o];
    TypedTimes(before, o, s.caller.t, s.caller.at);
    hide LogTimes, TypeTimes, Publish, Prune;
  }

  lemma TypeKeepsInv(s: System, now: int)
    requires Inv(s) && CanStep(s, CommitType(now))
    ensures Inv(Next(s, CommitType(now)))
  {
    hide LogTimes, TypeTimes, TypeOk, Publish, Prune, Window, Prunes;
    TypePrunes(s, now);
    PruneKeepsInv(s, Next(s, CommitType(now)), None, Some((s.caller.t, s.caller.at)), now);
  }

  // In every state of every run, whatever the ticker does in between: each deque
  // is the window of its whole history, and each published rate is its length.
  lemma {:induction false} RunInv(clock: int, steps: seq<Step>)
    requires IsRun(clock, steps)
    ensures Inv(Exec(clock, steps))
    decreases |steps|
  {
    if steps != [] {
      var before, step := steps[..|steps| - 1], steps[|steps| - 1];
      RunInv(clock, before);
      StepInv(Exec(clock, before), step);
    }
  }

  lemma StepInv(s: System, step: Step)
    requires Inv(s) && CanStep(s, step)
    ensures Inv(Next(s, step))
  {
    match step
    case CommitLog(now) => LogKeepsInv(s, now);
    case CommitType(now) => TypeKeepsInv(s, now);
    case Ticker(now) => TickerKeepsInv(s, now);
    case _ => QuietKeepsInv(s, step);
  }

  // The steps that only read the clock or move the caller on.
  lemma QuietKeepsInv(s: System, step: Step)
    requires Inv(s) && CanStep(s, step) && (step.StampLog? || step.SkipType? || step.StampType?)
    ensures Inv(Next(s, step))
  {
    hide LogTimes, TypeTimes, Window, TypeOk;
    forall t ensures TypeOk(Next(s, step), t) {
      assert TypeOk(s, t);
      SameType(s, Next(s, step), t);
    }
  }

  lemma SameType(s: System, s': System, t: EventType)
    requires TypeOk(s, t) && s'.rates == s.rates && s'.seen == s.seen && s'.cutoff == s.cutoff
    ensures TypeOk(s', t)
  {
  }

  // The clock readings that stamped a log, and those that stamped a type: each
  // is taken before the lock is waited for.
  function LogReadings(steps: seq<Step>): seq<int> {
    if steps == [] then []
    else
      var last := steps[|steps| - 1];
      LogReadings(steps[..|steps| - 1]) + if last.StampLog? then [last.now] else []
  }

  function TypeReadings(steps: seq<Step>, t: EventType): seq<int> {
    if steps == [] then []
    else
      var last := steps[|steps| - 1];
      TypeReadings(steps[..|steps| - 1], t) + if last.StampType? && last.t == t then [last.now] else []
  }

  // The clock reading of the last prune, which is taken under the lock.
  function LastPrune(steps: seq<Step>): Option<int> {
    if steps == [] then None
    else
      var last := steps[|steps| - 1];
      if last.CommitLog? || last.CommitType? || last.Ticker? then Some(last.now)
      else LastPrune(steps[..|steps| - 1])
  }

  // The histories hold exactly these readings, but for one that still waits for
  // the lock, and the window is the minute before the last prune.
  ghost predicate Read(s: System, steps: seq<Step>) {
    && LogReadings(steps) == LogTimes(s.seen) + (if s.caller.LogStamped? then [s.caller.at] else [])
    && (forall t :: TypeReadings(steps, t)
                    == TypeTimes(s.seen, t)
                       + if s.caller.TypeStamped? && s.caller.t == t then [s.caller.at] else [])
    && s.cutoff.Some? == LastPrune(steps).Some?
    && (s.cutoff.Some? ==> s.cutoff.value == LastPrune(steps).value - 60_000_000_000)
  }

  lemma {:induction false} HistoriesAreRead(clock: int, steps: seq<Step>)
    requires IsRun(clock, steps)
    ensures Read(Exec(clock, steps), steps)
    decreases |steps|
  {
    if steps != [] {
      var before := steps[..|steps| - 1];
      HistoriesAreRead(clock, before);
      RunInv(clock, before);
      StepReads(Exec(clock, before), before, steps[|steps| - 1]);
      assert steps == before + [steps[|steps| - 1]];
    }
  }

  lemma StepReads(s: System, steps: seq<Step>, step: Step)
    requires Read(s, steps) && CallerInv(s) && CanStep(s, step)
    ensures Read(Next(s, step), steps + [step])
  {
    hide Publish, Prune, AddTotal, AddType, LogTimes, TypeTimes;
    assert (steps + [step])[..|steps|] == steps;
    if step.CommitLog? {
      LogTimesSnoc(s.seen, Observation(s.caller.at, None));
      assert forall t :: TypePart(Observation(s.caller.at, None), t) == [];
    } else if step.CommitType? {
      var before, o := s.seen[..|s.seen| - 1], s.seen[|s.seen| - 1];
      assert s.seen == before + [o];
      TypedTimes(before, o, s.caller.t, s.caller.at);
    }
  }

  // The places of the timestamps that are not older than `since`.
  function NotOlder(times: seq<int>, since: int): set<int> {
    set i | 0 <= i < |times| && times[i] >= since
  }

  lemma {:induction false} RecentCount(times: seq<int>, cutoff: int)
    ensures |Recent(times, cutoff)| == |NotOlder(times, cutoff)|
  {
    if times == [] {
      assert NotOlder(times, cutoff) == {};
    } else {
      var n := |times| - 1;
      RecentCount(times[..n], cutoff);
      assert NotOlder(times, cutoff) == NotOlder(times[..n], cutoff) + if times[n] >= cutoff then {n} else {};
    }
  }

  // After every prune, and until the next one, what is published is a recount of
  // the whole history: the total gauge counts the logs stamped in the minute
  // before the prune, and a type has a gauge exactly when it was ever observed,
  // which counts its own observations in that minute, also when there are none left.
  lemma PublishedRatesAreRecounts(clock: int, steps: seq<Step>)
    requires IsRun(clock, steps) && Exec(clock, steps).cutoff.Some?
    ensures var s := Exec(clock, steps);
            var cutoff := s.cutoff.value;
            && LastPrune(steps).Some? && cutoff == LastPrune(steps).value - 60_000_000_000
            && s.rates.total == Recent(LogTimes(s.seen), cutoff)
            && s.rates.totalRate == |Recent(LogTimes(s.seen), cutoff)|
            && s.rates.typeRates.Keys == s.rates.byType.Keys
            && forall t ::
                 && (t in s.rates.typeRates <==> TypeTimes(s.seen, t) != [])
                 && (t in s.rates.typeRates ==>
                       && s.rates.byType[t] == Recent(TypeTimes(s.seen, t), cutoff)
                       && s.rates.typeRates[t] == |Recent(TypeTimes(s.seen, t), cutoff)|)
  {
    hide Exec, IsRun, Recent, TypeTimes, LogTimes, LogReadings, TypeReadings, LastPrune;
    RunInv(clock, steps);
    HistoriesAreRead(clock, steps);
    var s := Exec(clock, steps);
    forall t
      ensures t in s.rates.byType <==> TypeTimes(s.seen, t) != []
      ensures t in s.rates.byType ==> TypeOk(s, t)
    {
      assert TypeOk(s, t);
    }
  }

  // The readings whose observer has had the lock: one may still wait for it.
  function Served(times: seq<int>, waits: bool): seq<int> {
    if waits && times != [] then times[..|times| - 1] else times
  }

  // The same, said of the clock readings of the run alone: one that was served
  // counts if it lies at most sixty seconds before the last prune.
  lemma RatesCountReadings(clock: int, steps: seq<Step>, t: EventType)
    requires IsRun(clock, steps) && LastPrune(steps).Some?
    ensures var caller, rates, now := Exec(clock, steps).caller, Exec(clock, steps).rates, LastPrune(steps).value;
            var logs := Served(LogReadings(steps), caller.LogStamped?);
            var types := Served(TypeReadings(steps, t), caller.TypeStamped? && caller.t == t);
            && rates.totalRate == |set i | 0 <= i < |logs| && now - logs[i] <= 60_000_000_000|
            && (t in rates.typeRates <==> types != [])
            && (t in rates.typeRates ==>
                  rates.typeRates[t] == |set i | 0 <= i < |types| && now - types[i] <= 60_000_000_000|)
  {
    hide Exec, IsRun, Recent, TypeTimes, LogTimes, LogReadings, TypeReadings, LastPrune, NotOlder;
    HistoriesAreRead(clock, steps);
    PublishedRatesAreRecounts(clock, steps);
    var s, now := Exec(clock, steps), LastPrune(steps).value;
    RecentCount(LogTimes(s.seen), s.cutoff.value);
    RecentCount(TypeTimes(s.seen, t), s.cutoff.value);
    assert Served(LogReadings(steps), s.caller.LogStamped?) == LogTimes(s.seen);
    assert Served(TypeReadings(steps, t), s.caller.TypeStamped? && s.caller.t == t) == TypeTimes(s.seen, t);
    SameCount(LogTimes(s.seen), now);
    SameCount(TypeTimes(s.seen, t), now);
  }

  lemma SameCount(times: seq<int>, now: int)
    ensures NotOlder(times, now - 60_000_000_000) == set i | 0 <= i < |times| && now - times[i] <= 60_000_000_000
  {
  }

  // --- the gauges against each other ---

  // Logs in the window that have no type, or none yet.
  function Untyped(seen: seq<Observation>, cutoff: int): nat {
    if seen == [] then 0
    else
      var o := seen[|seen| - 1];
      Untyped(seen[..|seen| - 1], cutoff) + if o.typed.None? && o.logAt >= cutoff then 1 else 0
  }

  // Logs whose two timestamps lie on both sides of the cutoff.
  function Straddling(seen: seq<Observation>, cutoff: int): nat {
    if seen == [] then 0
    else
      var o := seen[|seen| - 1];
      Straddling(seen[..|seen| - 1], cutoff)
      + if o.typed.Some? && o.logAt < cutoff <= o.typed.value.1 then 1 else 0
  }

  function TypeCount(seen: seq<Observation>, cutoff: int, t: EventType): nat {
    |Recent(TypeTimes(seen, t), cutoff)|
  }

  // Every type's recount.
  function TypeCounts(seen: seq<Observation>, cutoff: int): map<EventType, nat> {
    map t: EventType | true :: TypeCount(seen, cutoff, t)
  }

  lemma TypeCountSnoc(before: seq<Observation>, o: Observation, cutoff: int, t: EventType)
    ensures TypeCount(before + [o], cutoff, t)
            == TypeCount(before, cutoff, t)
               + if o.typed.Some? && o.typed.value.0 == t && o.typed.value.1 >= cutoff then 1 else 0
  {
    LogTimesSnoc(before, o);
    RecentConcat(TypeTimes(before, t), TypePart(o, t), cutoff);
    if TypePart(o, t) != [] {
      assert TypePart(o, t)[..0] == [];
    }
  }

  lemma TypeCountsSnoc(before: seq<Observation>, o: Observation, cutoff: int)
    ensures TypeTotal(TypeCounts(before + [o], cutoff))
            == TypeTotal(TypeCounts(before, cutoff)) + if o.typed.Some? && o.typed.value.1 >= cutoff then 1 else 0
  {
    hide TypeTotal, TypeCount;
    var counts, counts' := TypeCounts(before, cutoff), TypeCounts(before + [o], cutoff);
    forall t
      ensures CountOf(counts', t) == CountOf(counts, t)
                                     + if o.typed.Some? && o.typed.value.0 == t && o.typed.value.1 >= cutoff
                                       then 1 else 0
    {
      TypeCountSnoc(before, o, cutoff, t);
    }
    hide TypeCounts, CountOf;
    if o.typed.Some? && o.typed.value.1 >= cutoff {
      TypeTotalOneMore(counts, counts', o.typed.value.0);
    } else {
      TypeTotalSame(counts, counts');
    }
  }

  // Each log of a history adds as much to one side as to the other.
  lemma {:induction false} CountsBalance(seen: seq<Observation>, clock: int, cutoff: int)
    requires Serial(seen, clock)
    ensures TypeTotal(TypeCounts(seen, cutoff)) + Untyped(seen, cutoff)
            == |Recent(LogTimes(seen), cutoff)| + Straddling(seen, cutoff)
  {
    hide TypeTotal, TypeCounts;
    if seen == [] {
      NoCounts(cutoff);
    } else {
      var before, o := seen[..|seen| - 1], seen[|seen| - 1];
      assert seen == before + [o];
      CountsBalance(before, clock, cutoff);
      TypeCountsSnoc(before, o, cutoff);
      LogTimesSnoc(before, o);
      RecentConcat(LogTimes(before), [o.logAt], cutoff);
      assert [o.logAt][..0] == [];
      assert |Recent([o.logAt], cutoff)| == if o.logAt >= cutoff then 1 else 0;
    }
  }

  lemma NoCounts(cutoff: int)
    ensures TypeTotal(TypeCounts([], cutoff)) == 0
  {
    assert forall t :: TypeCount([], cutoff, t) == 0;
  }

  // One log straddles the cutoff at most: an earlier one ends before it.
  lemma {:induction false} AtMostOneStraddles(seen: seq<Observation>, clock: int, cutoff: int)
    requires Serial(seen, clock)
    ensures Straddling(seen, cutoff) <= 1
    ensures seen != [] && LastStamp(seen[|seen| - 1]) < cutoff ==> Straddling(seen, cutoff) == 0
  {
    if seen != [] {
      var before := seen[..|seen| - 1];
      assert before != [] ==> LastStamp(before[|before| - 1]) <= seen[|seen| - 1].logAt;
      AtMostOneStraddles(before, clock, cutoff);
    }
  }

  // At every publication of every run the type gauges sum to the total gauge,
  // less the untyped logs of the window, plus the one log that may straddle its
  // edge.  So they exceed the total by one at most, and exactly when a log
  // straddles and every log of the window has its type.
  lemma TypesExceedTotalByAtMostOne(clock: int, steps: seq<Step>)
    requires IsRun(clock, steps) && Exec(clock, steps).cutoff.Some?
    ensures var s := Exec(clock, steps);
            var cutoff := s.cutoff.value;
            && TypeTotal(s.rates.typeRates) + Untyped(s.seen, cutoff) == s.rates.totalRate + Straddling(s.seen, cutoff)
            && Straddling(s.seen, cutoff) <= 1
            && TypeTotal(s.rates.typeRates) <= s.rates.totalRate + 1
            && (TypeTotal(s.rates.typeRates) > s.rates.totalRate
                <==> Straddling(s.seen, cutoff) == 1 && Untyped(s.seen, cutoff) == 0)
  {
    hide Exec, IsRun, Recent, TypeTimes, LogTimes, Untyped, Straddling;
    PublishedRatesAreRecounts(clock, steps);
    RunInv(clock, steps);
    var s := Exec(clock, steps);
    var cutoff := s.cutoff.value;
    CountsBalance(s.seen, s.clock, cutoff);
    AtMostOneStraddles(s.seen, s.clock, cutoff);
    NothingRecent(cutoff);
    forall t ensures CountOf(s.rates.typeRates, t) == CountOf(TypeCounts(s.seen, cutoff), t) {
    }
    hide TypeTotal, TypeCounts, CountOf;
    TypeTotalSame(s.rates.typeRates, TypeCounts(s.seen, cutoff));
  }

  lemma NothingRecent(cutoff: int)
    ensures Recent([], cutoff) == []
  {
  }

  // The excess is reached: a log stamped at 0 and typed at 1, seen just
  // after 0 has left the window.
  lemma ExcessIsReached()
    ensures var steps := [StampLog(0), CommitLog(0), StampType(OrderFilled, 1), CommitType(1), Ticker(WINDOW + 1)];
            && IsRun(0, steps)
            && TypeTotal(Exec(0, steps).rates.typeRates) == 1
            && Exec(0, steps).rates.totalRate == 0
  {
    hide Exec, IsRun, Publish, Prune, PopOld, AddTotal, AddType, TypeTotal;
    OneType();
    LoggedAtZero();
    var two := [StampLog(0), CommitLog(0)];
    var three := two + [StampType(OrderFilled, 1)];
    OneMore(0, two, StampType(OrderFilled, 1));
    LogAndType();
    OneMore(0, three, CommitType(1));
    OnlyTheType();
    OneMore(0, three + [CommitType(1)], Ticker(WINDOW + 1));
    assert three + [CommitType(1)] + [Ticker(WINDOW + 1)]
        == [StampLog(0), CommitLog(0), StampType(OrderFilled, 1), CommitType(1), Ticker(WINDOW + 1)];
  }

  lemma OneType()
    ensures TypeTotal(map[OrderFilled := 1]) == 1
  {
    var none: map<EventType, nat> := map[];
    NoTypes(none);
    hide TypeTotal;
    TypeTotalOneMore(none, map[OrderFilled := 1], OrderFilled);
  }

  lemma NoTypes(none: map<EventType, nat>)
    requires none == map[]
    ensures TypeTotal(none) == 0
  {
    hide CountOf;
    assert forall t :: CountOf(none, t) == 0 by {
      forall t ensures CountOf(none, t) == 0 { NoType(none, t); }
    }
  }

  lemma NoType(m: map<EventType, nat>, t: EventType)
    requires t !in m
    ensures CountOf(m, t) == 0
  {
  }

  lemma LoggedAtZero()
    ensures IsRun(0, [StampLog(0), CommitLog(0)])
    ensures Exec(0, [StampLog(0), CommitLog(0)])
            == System(0, LogSeen, RateState([0], map[], 1, map[]), [Observation(0, None)], Some(-WINDOW))
  {
    assert IsRun(0, []) && Exec(0, []) == Init(0);
    hide Exec, IsRun, Publish, Prune, PopOld, AddTotal, AddType;
    OneMore(0, [], StampLog(0));
    var one := [] + [StampLog(0)];
    OnlyTheLog();
    OneMore(0, one, CommitLog(0));
    assert one + [CommitLog(0)] == [StampLog(0), CommitLog(0)];
  }

  lemma OneMore(clock: int, steps: seq<Step>, step: Step)
    requires IsRun(clock, steps) && CanStep(Exec(clock, steps), step)
    ensures IsRun(clock, steps + [step]) && Exec(clock, steps + [step]) == Next(Exec(clock, steps), step)
  {
    assert (steps + [step])[..|steps|] == steps;
  }

  // The three publications of that run.
  lemma OnlyTheLog()
    ensures Publish(Prune(AddTotal(RateState([], map[], 0, map[]), 0), 0)) == RateState([0], map[], 1, map[])
  {
    assert [] + [0] == [0];
  }

  lemma LogAndType()
    ensures Publish(Prune(AddType(RateState([0], map[], 1, map[]), OrderFilled, 1), 1))
            == RateState([0], map[OrderFilled := [1]], 1, map[OrderFilled := 1])
  {
    assert [] + [1] == [1];
    var r := Prune(AddType(RateState([0], map[], 1, map[]), OrderFilled, 1), 1);
    assert r.byType == map[OrderFilled := [1]];
  }

  lemma OnlyTheType()
    ensures Publish(Prune(RateState([0], map[OrderFilled := [1]], 1, map[OrderFilled := 1]), WINDOW + 1))
            == RateState([], map[OrderFilled := [1]], 0, map[OrderFilled := 1])
  {
    var r := Prune(RateState([0], map[OrderFilled := [1]], 1, map[OrderFilled := 1]), WINDOW + 1);
    assert [0][1..] == [] && r.total == [];
    assert r.byType == map[OrderFilled := [1]];
  }
}
