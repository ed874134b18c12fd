// Counters and gauges that are labelled by event type (src/metrics.rs).
module LabelledCounts {
  import opened Decode

  function CountOf(m: map<EventType, nat>, t: EventType): nat {
    if t in m then m[t] else 0
  }

  // The sum of a labelled metric over all of its labels.
  function TypeTotal(m: map<EventType, nat>): nat {
    CountOf(m, ConditionPreparation) + CountOf(m, PositionSplit) + CountOf(m, PositionsMerge)
    + CountOf(m, PayoutRedemption) + CountOf(m, OrderFilled) + CountOf(m, OrdersMatched)
    + CountOf(m, OrderCancelled) + CountOf(m, MarketPrepared) + CountOf(m, QuestionPrepared)
    + CountOf(m, PositionsConverted)
  }

  lemma TypeTotalSame(m: map<EventType, nat>, m': map<EventType, nat>)
    requires forall t :: CountOf(m', t) == CountOf(m, t)
    ensures TypeTotal(m') == TypeTotal(m)
  {
    hide CountOf;
  }

  lemma TypeTotalOneMore(m: map<EventType, nat>, m': map<EventType, nat>, t: EventType)
    requires forall u :: CountOf(m', u) == CountOf(m, u) + if t == u then 1 else 0
    ensures TypeTotal(m') == TypeTotal(m) + 1
  {
    hide CountOf;
  }
}
