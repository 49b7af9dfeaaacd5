/**
 * The polymorphic streams of ex1/data_stream.py: sensor, transaction and event
 * streams that keep per-batch counters, their `filter_data` overrides, and the
 * StreamProcessor that routes batches to registered streams by stream id.
 */
module Streams {
  import opened Wrappers
  import opened Text
  import opened Seqs

  // ---------------------------------------------------------------------------
  // Items of a batch
  // ---------------------------------------------------------------------------

  /** `item.split(":")[0]`: the text before the first colon (all of it when there is none). */
  function Tag(item: string): (tag: string)
    ensures tag <= item && ':' !in tag
    ensures |tag| < |item| ==> item[|tag|] == ':'
  {
    SplitFirst(item, ':');
    Split(item, ':')[0]
  }

  /**
   * The amount of a transaction item, `int(item.split(":")[1])`: 0 when there is no
   * colon (IndexError) or the second piece is not an integer (ValueError).
   */
  function Amount(item: string): (amount: int)
    ensures ':' !in item ==> amount == 0
  {
    var parts := Split(item, ':');
    if |parts| < 2 then 0
    else
      assert ':' in item by {
        if ':' !in item {
          SplitWithoutSep(item, ':');
        }
      }
      ParseInt(parts[1]).GetOr(0)
  }

  /** `tag:amount` is tagged `tag` and carries `amount`. */
  lemma TaggedItem(tag: string, amount: int)
    requires ':' !in tag
    ensures Tag(tag + ":" + ShowInt(amount)) == tag
    ensures Amount(tag + ":" + ShowInt(amount)) == amount
  {
    var digits := ShowInt(amount);
    assert ':' !in digits by {
      if amount < 0 {
        assert forall k :: 1 <= k < |digits| ==> digits[k] == ShowNat(-amount)[k - 1];
      }
    }
    SplitAtFirst(tag, digits, ':');
    SplitWithoutSep(digits, ':');
    ParseShowInt(amount);
  }

  /**
   * `tag:rest` where the text after the colon, up to any second colon, is not an
   * integer (ValueError, e.g. "buy:abc" or "buy:") carries amount 0 and adds
   * nothing to the net flow.
   */
  lemma MalformedItem(tag: string, rest: string)
    requires ':' !in tag && ParseInt(Split(rest, ':')[0]).None?
    ensures Tag(tag + ":" + rest) == tag
    ensures Amount(tag + ":" + rest) == 0 && FlowOf(tag + ":" + rest) == 0
  {
    SplitAtFirst(tag, rest, ':');
  }

  /** The criteria test of the sensor and transaction `filter_data`: no criteria, or the tag equals it. */
  function TagSelects(criteria: Option<string>): string -> bool {
    item => criteria.None? || Tag(item) == criteria.value
  }

  /** The criteria test of the event `filter_data`: no criteria, or the item equals it. */
  function EqualSelects(criteria: Option<string>): string -> bool {
    item => criteria.None? || item == criteria.value
  }

  /** What a transaction item adds to the net flow: + amount for "buy", - amount for "sell", 0 otherwise. */
  function FlowOf(item: string): int {
    if Tag(item) == "buy" then Amount(item)
    else if Tag(item) == "sell" then -Amount(item)
    else 0
  }

  /** The net flow of a batch: the sum of what each item adds. */
  function NetFlow(batch: seq<string>): int {
    if batch == [] then 0 else NetFlow(batch[..|batch| - 1]) + FlowOf(batch[|batch| - 1])
  }

  /** The sum of the amounts of the items. */
  function TotalAmount(batch: seq<string>): int {
    if batch == [] then 0 else TotalAmount(batch[..|batch| - 1]) + Amount(batch[|batch| - 1])
  }

  /** The net flow is the total of the "buy" amounts minus the total of the "sell" amounts. */
  lemma {:induction false} NetFlowIsBuysMinusSells(batch: seq<string>)
    ensures NetFlow(batch) ==
      TotalAmount(Keep(batch, TagSelects(Some("buy")))) - TotalAmount(Keep(batch, TagSelects(Some("sell"))))
  {
    if batch != [] {
      var init, last := batch[..|batch| - 1], batch[|batch| - 1];
      assert batch == init + [last];
      NetFlowIsBuysMinusSells(init);
      KeepSnoc(init, last, TagSelects(Some("buy")));
      KeepSnoc(init, last, TagSelects(Some("sell")));
      var buys := Keep(init, TagSelects(Some("buy")));
      var sells := Keep(init, TagSelects(Some("sell")));
      if Tag(last) == "buy" {
        assert Keep(batch, TagSelects(Some("buy"))) == buys + [last];
        assert Keep(batch, TagSelects(Some("sell"))) == sells;
        TotalAmountSnoc(buys, last);
      } else if Tag(last) == "sell" {
        assert Keep(batch, TagSelects(Some("buy"))) == buys;
        assert Keep(batch, TagSelects(Some("sell"))) == sells + [last];
        TotalAmountSnoc(sells, last);
      } else {
        assert Keep(batch, TagSelects(Some("buy"))) == buys;
        assert Keep(batch, TagSelects(Some("sell"))) == sells;
      }
    }
  }

  lemma TotalAmountSnoc(items: seq<string>, last: string)
    ensures TotalAmount(items + [last]) == TotalAmount(items) + Amount(last)
  {
    assert (items + [last])[..|items|] == items;
  }

  /** The demonstration batch: buy 100, sell 150, buy 75 gives a net flow of 25. */
  lemma DemoNetFlow()
    ensures NetFlow(["buy:100", "sell:150", "buy:75"]) == 25
  {
    DemoDigits();
    DemoBatchFlow("buy:100", "sell:150", "buy:75");
  }

  lemma DemoBatchFlow(a: string, b: string, c: string)
    requires a == "buy" + ":" + ShowInt(100)
    requires b == "sell" + ":" + ShowInt(150)
    requires c == "buy" + ":" + ShowInt(75)
    ensures NetFlow([a, b, c]) == 25
  {
    TaggedItem("buy", 100);
    TaggedItem("sell", 150);
    TaggedItem("buy", 75);
    NetFlowOfThree(a, b, c);
  }

  lemma NetFlowOfThree(a: string, b: string, c: string)
    ensures NetFlow([a, b, c]) == FlowOf(a) + FlowOf(b) + FlowOf(c)
  {
    assert [a, b, c][..2] == [a, b];
    assert [a, b][..1] == [a];
    assert [a][..0] == [];
    assert NetFlow([a]) == FlowOf(a);
    assert NetFlow([a, b]) == FlowOf(a) + FlowOf(b);
  }

  lemma DemoDigits()
    ensures ShowInt(100) == "100" && ShowInt(150) == "150" && ShowInt(75) == "75"
  {
    assert ShowNat(10) == "10";
    assert ShowNat(15) == "15";
  }

  /** The number of "error" items in a batch is how often "error" occurs in it. */
  lemma ErrorCountIsOccurrences(batch: seq<string>)
    ensures |Keep(batch, EqualSelects(Some("error")))| == multiset(batch)["error"]
  {
    var p := EqualSelects(Some("error"));
    var kept := Keep(batch, p);
    KeepOccurrences(batch, p, "error");
    assert forall k :: 0 <= k < |kept| ==> kept[k] == "error";
    AllEqualCount(kept, "error");
  }

  /** A sequence whose every element is `x` holds `x` once per position. */
  lemma {:induction false} AllEqualCount(s: seq<string>, x: string)
    requires forall k :: 0 <= k < |s| ==> s[k] == x
    ensures multiset(s)[x] == |s|
  {
    if s != [] {
      assert s == s[..|s| - 1] + [x];
      AllEqualCount(s[..|s| - 1], x);
    }
  }

  // ---------------------------------------------------------------------------
  // filter_data
  // ---------------------------------------------------------------------------

  /** `DataStream.filter_data`: the base class returns the batch as it is. */
  function BaseFilter(batch: seq<string>, criteria: Option<string>): (r: seq<string>)
    ensures r == Keep(batch, TagSelects(None)) && r == Keep(batch, EqualSelects(None))
  {
    KeepAll(batch, TagSelects(None));
    KeepAll(batch, EqualSelects(None));
    batch
  }

  /** The sensor and transaction `filter_data` loop. */
  method FilterByTag(batch: seq<string>, criteria: Option<string>) returns (filtered: seq<string>)
    ensures filtered == Keep(batch, TagSelects(criteria))
  {
    filtered := [];
    for i := 0 to |batch|
      invariant filtered == Keep(batch[..i], TagSelects(criteria))
    {
      assert batch[..i + 1] == batch[..i] + [batch[i]];
      KeepSnoc(batch[..i], batch[i], TagSelects(criteria));
      var parts := Split(batch[i], ':');
      if criteria.None? || parts[0] == criteria.value {
        filtered := filtered + [batch[i]];
      }
    }
    assert batch[..|batch|] == batch;
  }

  /** The event `filter_data` loop. */
  method FilterByValue(batch: seq<string>, criteria: Option<string>) returns (filtered: seq<string>)
    ensures filtered == Keep(batch, EqualSelects(criteria))
  {
    filtered := [];
    for i := 0 to |batch|
      invariant filtered == Keep(batch[..i], EqualSelects(criteria))
    {
      assert batch[..i + 1] == batch[..i] + [batch[i]];
      KeepSnoc(batch[..i], batch[i], EqualSelects(criteria));
      if criteria.None? || batch[i] == criteria.value {
        filtered := filtered + [batch[i]];
      }
    }
    assert batch[..|batch|] == batch;
  }

  /** Without criteria, every `filter_data` (the base one and the three overrides) returns the batch. */
  lemma FiltersWithoutCriteria(batch: seq<string>)
    ensures BaseFilter(batch, None) == batch
    ensures Keep(batch, TagSelects(None)) == batch
    ensures Keep(batch, EqualSelects(None)) == batch
  {
    KeepAll(batch, TagSelects(None));
    KeepAll(batch, EqualSelects(None));
  }

  /**
   * With criteria `c`, the sensor and transaction filters keep, in order and with
   * their multiplicities, exactly the items tagged `c`, and never lengthen the batch.
   */
  lemma TagFilterSpec(batch: seq<string>, c: string, item: string)
    ensures |Keep(batch, TagSelects(Some(c)))| <= |batch|
    ensures forall k :: 0 <= k < |Keep(batch, TagSelects(Some(c)))| ==> Tag(Keep(batch, TagSelects(Some(c)))[k]) == c
    ensures multiset(Keep(batch, TagSelects(Some(c))))[item] == if Tag(item) == c then multiset(batch)[item] else 0
  {
    KeepOccurrences(batch, TagSelects(Some(c)), item);
  }

  /**
   * With criteria `c`, the event filter keeps exactly the items equal to `c`, as
   * often as they occur, and filtering its result again changes nothing.
   */
  lemma ValueFilterSpec(batch: seq<string>, c: string)
    ensures Keep(batch, EqualSelects(Some(c))) == seq(multiset(batch)[c], _ => c)
    ensures Keep(Keep(batch, EqualSelects(Some(c))), EqualSelects(Some(c))) == Keep(batch, EqualSelects(Some(c)))
  {
    var kept := Keep(batch, EqualSelects(Some(c)));
    KeepOccurrences(batch, EqualSelects(Some(c)), c);
    AllEqualCount(kept, c);
    KeepIdempotent(batch, EqualSelects(Some(c)));
  }

  // ---------------------------------------------------------------------------
  // The streams
  // ---------------------------------------------------------------------------

  /**
   * A stream's counters as `get_stats` reports them. The counters only come into
   * being with the first `process_batch`; before that, `get_stats` raises.
   */
  datatype StreamState =
    | NotProcessed
    | SensorStats(readings: nat)
    | TransactionStats(operations: nat, netFlow: int)
    | EventStats(events: nat, errors: nat)

  datatype Kind = SensorKind | TransactionKind | EventKind

  /** The counters after `process_batch(batch)`: they depend on this batch only. */
  function AfterBatch(kind: Kind, batch: seq<string>): StreamState {
    match kind
    case SensorKind => SensorStats(|batch|)
    case TransactionKind => TransactionStats(|batch|, NetFlow(batch))
    case EventKind => EventStats(|batch|, |Keep(batch, EqualSelects(Some("error")))|)
  }

  /** An event batch never has more errors than events. */
  lemma EventErrorsBounded(batch: seq<string>)
    ensures AfterBatch(EventKind, batch).errors <= AfterBatch(EventKind, batch).events
  {
  }

  class SensorStream {
    const streamId: string
    var processed: bool
    var readingsNum: nat

    constructor (streamId: string)
      ensures this.streamId == streamId && !processed
    {
      this.streamId := streamId;
      processed := false;
      readingsNum := 0;
    }

    function State(): StreamState
      reads this
    {
      if processed then SensorStats(readingsNum) else NotProcessed
    }

    /** `process_batch`: counts the readings of this batch, starting from zero. */
    method ProcessBatch(batch: seq<string>)
      modifies this
      ensures processed && readingsNum == |batch|
      ensures State() == AfterBatch(SensorKind, batch)
    {
      processed := true;
      readingsNum := 0;
      for i := 0 to |batch|
        invariant processed && readingsNum == i
      {
        readingsNum := readingsNum + 1;
      }
    }

    method FilterData(batch: seq<string>, criteria: Option<string>) returns (filtered: seq<string>)
      ensures filtered == Keep(batch, TagSelects(criteria))
    {
      filtered := FilterByTag(batch, criteria);
    }

    /** `get_stats`: the reading count, or None where the counters do not exist yet. */
    function GetStats(): (stats: Option<map<string, int>>)
      reads this
      ensures stats.Some? <==> processed
      ensures stats.Some? ==> stats.value.Keys == {"readings"} && stats.value["readings"] == readingsNum
    {
      if processed then Some(map["readings" := readingsNum]) else None
    }
  }

  class TransactionStream {
    const streamId: string
    var processed: bool
    var operations: nat
    var netFlow: int

    constructor (streamId: string)
      ensures this.streamId == streamId && !processed
    {
      this.streamId := streamId;
      processed := false;
      operations, netFlow := 0, 0;
    }

    function State(): StreamState
      reads this
    {
      if processed then TransactionStats(operations, netFlow) else NotProcessed
    }

    /** `process_batch`: counts the operations and totals buys minus sells, starting from zero. */
    method ProcessBatch(batch: seq<string>)
      modifies this
      ensures processed && operations == |batch| && netFlow == NetFlow(batch)
      ensures State() == AfterBatch(TransactionKind, batch)
    {
      processed := true;
      operations := 0;
      netFlow := 0;
      for i := 0 to |batch|
        invariant processed && operations == i && netFlow == NetFlow(batch[..i])
      {
        assert batch[..i + 1][..i] == batch[..i];
        operations := operations + 1;
        var parts := Split(batch[i], ':');
        var transactionType := parts[0];
        var amount := 0;
        if |parts| >= 2 {
          match ParseInt(parts[1])
          case Some(n) => amount := n;
          case None => amount := 0;
        }
        if transactionType == "buy" {
          netFlow := netFlow + amount;
        } else if transactionType == "sell" {
          netFlow := netFlow - amount;
        }
      }
      assert batch[..|batch|] == batch;
    }

    method FilterData(batch: seq<string>, criteria: Option<string>) returns (filtered: seq<string>)
      ensures filtered == Keep(batch, TagSelects(criteria))
    {
      filtered := FilterByTag(batch, criteria);
    }

    /** `get_stats`: operations and net flow, or None where the counters do not exist yet. */
    function GetStats(): (stats: Option<map<string, int>>)
      reads this
      ensures stats.Some? <==> processed
      ensures stats.Some? ==> stats.value.Keys == {"operations", "net flow"}
      ensures stats.Some? ==> stats.value["operations"] == operations && stats.value["net flow"] == netFlow
    {
      if processed then Some(map["operations" := operations, "net flow" := netFlow]) else None
    }
  }

  class EventStream {
    const streamId: string
    var processed: bool
    var eventsCount: nat
    var errorsCount: nat

    constructor (streamId: string)
      ensures this.streamId == streamId && !processed
    {
      this.streamId := streamId;
      processed := false;
      eventsCount, errorsCount := 0, 0;
    }

    function State(): StreamState
      reads this
    {
      if processed then EventStats(eventsCount, errorsCount) else NotProcessed
    }

    /** `process_batch`: counts the events and the "error" events of this batch, starting from zero. */
    method ProcessBatch(batch: seq<string>)
      modifies this
      ensures processed && eventsCount == |batch| && errorsCount == multiset(batch)["error"]
      ensures errorsCount <= eventsCount
      ensures State() == AfterBatch(EventKind, batch)
    {
      processed := true;
      eventsCount := 0;
      errorsCount := 0;
      for i := 0 to |batch|
        invariant processed && eventsCount == i
        invariant errorsCount == |Keep(batch[..i], EqualSelects(Some("error")))|
      {
        assert batch[..i + 1] == batch[..i] + [batch[i]];
        KeepSnoc(batch[..i], batch[i], EqualSelects(Some("error")));
        eventsCount := eventsCount + 1;
        if batch[i] == "error" {
          errorsCount := errorsCount + 1;
        }
      }
      assert batch[..|batch|] == batch;
      ErrorCountIsOccurrences(batch);
    }

    method FilterData(batch: seq<string>, criteria: Option<string>) returns (filtered: seq<string>)
      ensures filtered == Keep(batch, EqualSelects(criteria))
    {
      filtered := FilterByValue(batch, criteria);
    }

    /** `get_stats`: events and errors, or None where the counters do not exist yet. */
    function GetStats(): (stats: Option<map<string, int>>)
      reads this
      ensures stats.Some? <==> processed
      ensures stats.Some? ==> stats.value.Keys == {"events", "error"}
      ensures stats.Some? ==> stats.value["events"] == eventsCount && stats.value["error"] == errorsCount
    {
      if processed then Some(map["events" := eventsCount, "error" := errorsCount]) else None
    }
  }

  /** Any of the three streams, as the processor holds them. */
  datatype Stream =
    | Sensor(sensor: SensorStream)
    | Transaction(transaction: TransactionStream)
    | Event(event: EventStream)
  {
    function Id(): string {
      match this
      case Sensor(s) => s.streamId
      case Transaction(t) => t.streamId
      case Event(e) => e.streamId
    }

    function Kind(): Kind {
      match this
      case Sensor(_) => SensorKind
      case Transaction(_) => TransactionKind
      case Event(_) => EventKind
    }

    function Obj(): object {
      match this
      case Sensor(s) => s
      case Transaction(t) => t
      case Event(e) => e
    }

    function State(): StreamState
      reads Obj()
    {
      match this
      case Sensor(s) => s.State()
      case Transaction(t) => t.State()
      case Event(e) => e.State()
    }

    method ProcessBatch(batch: seq<string>)
      modifies Obj()
      ensures State() == AfterBatch(Kind(), batch)
    {
      match this
      case Sensor(s) => s.ProcessBatch(batch);
      case Transaction(t) => t.ProcessBatch(batch);
      case Event(e) => e.ProcessBatch(batch);
    }
  }

  /** Two entries that refer to the same object are the same entry. */
  lemma SameObjectSameStream(a: Stream, b: Stream)
    requires a.Obj() == b.Obj()
    ensures a == b
  {
  }

  /** The StreamProcessor: an ordered list of streams and the batch router over it. */
  class StreamProcessor {
    var streams: seq<Stream>

    constructor ()
      ensures streams == []
    {
      streams := [];
    }

    function Objects(): set<object>
      reads this
    {
      set k | 0 <= k < |streams| :: streams[k].Obj()
    }

    /** `add_stream`: the stream goes after those already added. */
    method AddStream(stream: Stream)
      modifies this
      ensures streams == old(streams) + [stream]
    {
      streams := streams + [stream];
    }

    /**
     * `process_all`: every stream whose id is a key of `batches` processes its batch;
     * every other stream keeps its counters.
     */
    method ProcessAll(batches: map<string, seq<string>>)
      modifies Objects()
      ensures streams == old(streams)
      ensures forall k :: 0 <= k < |streams| ==>
        streams[k].State() == if streams[k].Id() in batches
                              then AfterBatch(streams[k].Kind(), batches[streams[k].Id()])
                              else old(streams[k].State())
    {
      for i := 0 to |streams|
        invariant forall k :: 0 <= k < |streams| ==>
          streams[k].State() == if streams[k] in streams[..i] && streams[k].Id() in batches
                                then AfterBatch(streams[k].Kind(), batches[streams[k].Id()])
                                else old(streams[k].State())
      {
        var stream := streams[i];
        assert streams[..i + 1] == streams[..i] + [stream];
        if stream.Id() in batches {
          stream.ProcessBatch(batches[stream.Id()]);
          forall k | 0 <= k < |streams| && streams[k] != stream
            ensures streams[k].Obj() != stream.Obj()
          {
            if streams[k].Obj() == stream.Obj() {
              SameObjectSameStream(streams[k], stream);
            }
          }
        }
      }
      forall k | 0 <= k < |streams| ensures streams[k] in streams[..|streams|] {
        assert streams[..|streams|] == streams;
      }
    }
  }
}
