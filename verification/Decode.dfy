// src/decode.rs: routing a log by its first topic to an event type and its columns.
module Decode {
  import opened Base

  datatype EventType =
    | ConditionPreparation
    | PositionSplit
    | PositionsMerge
    | PayoutRedemption
    | OrderFilled
    | OrdersMatched
    | OrderCancelled
    | MarketPrepared
    | QuestionPrepared
    | PositionsConverted

  // A column name, by its identity: ConditionId stands for "condition_id", and so on.
  datatype Column =
    | EventTypeName | BlockNumber | TransactionHash | LogIndex
    | ConditionId | Oracle | QuestionId | OutcomeSlotCount | CollateralToken
    | ParentCollectionId | Partition | Amounts | Amount | Redeemer | IndexSets | OrderHash
    | Maker | Taker | MakerFillAmount | TakerFillAmount | MakerFee | TakerFee | TakerOrderHash
    | MakerOrderHash | Creator | MarketId | Data | Stakeholder | Fee

  // A 32-byte topic: the signature hash of one of the ten events, or any other
  // hash.  Writing it this way assumes that the ten hashes are distinct.
  datatype Topic = Signature(event: EventType) | OtherHash(hash: nat)

  // A log as the provider delivers it.  `abi` is what the ABI decoder and the
  // renderer make of the log: for each event type whose layout fits, the column
  // values that could be rendered.
  datatype Log = Log(
    topics: seq<Topic>,
    abi: map<EventType, map<Column, string>>,
    blockNumber: Option<u64>,
    txHash: Option<string>,
    logIndex: Option<u64>)
  {
    predicate Complete() {
      blockNumber.Some? && txHash.Some? && logIndex.Some?
    }
  }

  datatype DecodedEvent = DecodedEvent(eventType: EventType, columns: seq<(Column, string)>)

  datatype Outcome = Event(event: DecodedEvent) | NotAnEvent | DecodeError

  // The columns specified for each event (spec/0001_topic0-schema-parquet.md).
  function ColumnNames(t: EventType): seq<Column> {
    match t
    case ConditionPreparation => [ConditionId, Oracle, QuestionId, OutcomeSlotCount]
    case PositionSplit =>
      [CollateralToken, ParentCollectionId, ConditionId, Partition, Amounts, Amount]
    case PositionsMerge =>
      [CollateralToken, ParentCollectionId, ConditionId, Partition, Amounts, Amount]
    case PayoutRedemption =>
      [Redeemer, CollateralToken, ParentCollectionId, ConditionId, IndexSets, Amount]
    case OrderFilled =>
      [OrderHash, Maker, Taker, MakerFillAmount, TakerFillAmount, MakerFee, TakerFee]
    case OrdersMatched => [TakerOrderHash, MakerOrderHash]
    case OrderCancelled => [OrderHash]
    case MarketPrepared => [ConditionId, Creator, MarketId, Data]
    case QuestionPrepared => [QuestionId, ConditionId, Creator, Data]
    case PositionsConverted => [ConditionId, Stakeholder, Amount, Fee]
  }

  function Topic0(log: Log): Option<Topic> {
    if log.topics == [] then None else Some(log.topics[0])
  }

  // The name and value pairs of one branch: the first value that cannot be
  // rendered ends the decoding with an error.
  function Render(values: map<Column, string>, names: seq<Column>): Option<seq<(Column, string)>> {
    if names == [] then Some([])
    else if names[0] !in values then None
    else
      var rest := Render(values, names[1..]);
      if rest.None? then None else Some([(names[0], values[names[0]])] + rest.value)
  }

  function DecodeAs(log: Log, t: EventType, names: seq<Column>): Outcome {
    if t !in log.abi then DecodeError
    else
      var columns := Render(log.abi[t], names);
      if columns.None? then DecodeError else Event(DecodedEvent(t, columns.value))
  }

  function DecodeLog(log: Log): Outcome {
    var topic0 := Topic0(log);
    if topic0.None? then NotAnEvent
    else if topic0.value == Signature(ConditionPreparation) then
      DecodeAs(log, ConditionPreparation, [ConditionId, Oracle, QuestionId, OutcomeSlotCount])
    else if topic0.value == Signature(PositionSplit) then
      DecodeAs(log, PositionSplit,
               [CollateralToken, ParentCollectionId, ConditionId, Partition, Amounts, Amount])
    else if topic0.value == Signature(PositionsMerge) then
      DecodeAs(log, PositionsMerge,
               [CollateralToken, ParentCollectionId, ConditionId, Partition, Amounts, Amount])
    else if topic0.value == Signature(PayoutRedemption) then
      DecodeAs(log, PayoutRedemption,
               [Redeemer, CollateralToken, ParentCollectionId, ConditionId, IndexSets, Amount])
    else if topic0.value == Signature(OrderFilled) then
      DecodeAs(log, OrderFilled,
               [OrderHash, Maker, Taker, MakerFillAmount, TakerFillAmount, MakerFee, TakerFee])
    else if topic0.value == Signature(OrdersMatched) then
      DecodeAs(log, OrdersMatched, [TakerOrderHash, MakerOrderHash])
    else if topic0.value == Signature(OrderCancelled) then
      DecodeAs(log, OrderCancelled, [OrderHash])
    else if topic0.value == Signature(MarketPrepared) then
      DecodeAs(log, MarketPrepared, [ConditionId, Creator, MarketId, Data])
    else if topic0.value == Signature(QuestionPrepared) then
      DecodeAs(log, QuestionPrepared, [QuestionId, ConditionId, Creator, Data])
    else if topic0.value == Signature(PositionsConverted) then
      DecodeAs(log, PositionsConverted, [ConditionId, Stakeholder, Amount, Fee])
    else NotAnEvent
  }

  function Names(columns: seq<(Column, string)>): (names: seq<Column>)
    ensures |names| == |columns|
  {
    seq(|columns|, i requires 0 <= i < |columns| => columns[i].0)
  }

  function Values(columns: seq<(Column, string)>): (values: seq<string>)
    ensures |values| == |columns|
  {
    seq(|columns|, i requires 0 <= i < |columns| => columns[i].1)
  }

  // Rendering keeps the column order, and fails exactly when a value is missing.
  lemma {:induction false} RenderCorrect(values: map<Column, string>, names: seq<Column>)
    ensures Render(values, names).Some? <==> forall n :: n in names ==> n in values
    ensures Render(values, names).Some? ==>
              var columns := Render(values, names).value;
              && Names(columns) == names
              && forall i :: 0 <= i < |columns| ==> columns[i].1 == values[names[i]]
  {
    if names != [] {
      RenderCorrect(values, names[1..]);
      assert names == [names[0]] + names[1..];
      if names[0] in values && Render(values, names[1..]).Some? {
        var columns := Render(values, names).value;
        var rest := Render(values, names[1..]).value;
        assert columns == [(names[0], values[names[0]])] + rest;
        assert Names(rest) == names[1..];
        forall i | 0 <= i < |columns|
          ensures columns[i].0 == names[i] && columns[i].1 == values[names[i]]
        {
          if i > 0 {
            assert columns[i] == rest[i - 1];
            assert Names(rest)[i - 1] == rest[i - 1].0;
          }
        }
        assert Names(columns) == names;
      }
    }
  }

  // The whole routing table: a log is an event of type t exactly when its first
  // topic is t's signature and every specified column can be rendered, the
  // columns come in the specified order, and the two other outcomes are the
  // unknown (or absent) topic and the known topic that does not decode.
  lemma {:induction false} DecodeLogRouting(log: Log)
    ensures DecodeLog(log).NotAnEvent? <==> log.topics == [] || log.topics[0].OtherHash?
    ensures DecodeLog(log).Event? <==>
            && log.topics != []
            && log.topics[0].Signature?
            && log.topics[0].event in log.abi
            && forall n :: n in ColumnNames(log.topics[0].event) ==> n in log.abi[log.topics[0].event]
    ensures DecodeLog(log).Event? ==>
              var e := DecodeLog(log).event;
              && e.eventType == log.topics[0].event
              && Names(e.columns) == ColumnNames(e.eventType)
              && forall i :: 0 <= i < |e.columns| ==>
                               e.columns[i].1 == log.abi[e.eventType][ColumnNames(e.eventType)[i]]
  {
    if log.topics != [] && log.topics[0].Signature? {
      var t := log.topics[0].event;
      DecodeLogByTable(log, t);
      if t in log.abi {
        RenderCorrect(log.abi[t], ColumnNames(t));
      }
    }
  }

  lemma DecodeLogByTable(log: Log, t: EventType)
    requires log.topics != [] && log.topics[0] == Signature(t)
    ensures DecodeLog(log) == DecodeAs(log, t, ColumnNames(t))
  {
  }
}
