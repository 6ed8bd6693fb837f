/** The price-feed-update handler as a pure function: one event, its
    transaction and the static configuration in, the ordered list of metric
    updates and the analytics event out. */
module PriceUpdate {
  import HexId
  import Symbols
  import Fees

  const TotalPriceUpdates: string := "total_price_updates"
  const SponsoredPriceUpdates: string := "sponsored_price_updates"
  const NonSponsoredPriceUpdates: string := "non_sponsored_price_updates"
  const TotalTransactionFee: string := "total_transaction_fee"

  /** The name of the analytics event. */
  const PriceUpdateEvent: string := "Price Update"

  const MetricNames: set<string> :=
    {TotalPriceUpdates, SponsoredPriceUpdates, NonSponsoredPriceUpdates, TotalTransactionFee}

  /** The decoded on-chain event: the feed's identifier bytes and the sender. */
  datatype PriceFeedUpdateEvent = PriceFeedUpdateEvent(priceIdentifier: seq<int>, sender: string)

  /** The static tables the handler reads: symbol per price id, sponsored price ids. */
  datatype Config = Config(priceMap: map<string, string>, sponsoredFeeds: set<string>)

  /** `Counter.add` or `Gauge.record`. */
  datatype MetricKind = CounterAdd | GaugeRecord

  /** One side effect of the handler. */
  datatype Effect =
    | Metric(kind: MetricKind, name: string, value: int, labels: map<string, string>)
    | Log(eventName: string, distinctId: string, symbol: string, assetType: string, message: string)

  /** The labels `{ priceId, symbol, assetType }`. */
  function PriceLabels(priceId: string, symbol: string, assetType: string): map<string, string>
  {
    map["priceId" := priceId, "symbol" := symbol, "assetType" := assetType]
  }

  /** The labels `{ sender }`. */
  function SenderLabels(sender: string): map<string, string>
  {
    map["sender" := sender]
  }

  /** The template literal `Price update for ${symbol}`. */
  function Message(symbol: string): string
  {
    "Price update for " + symbol
  }

  /** The metric updates among `effects` that go to the metric `name`, in order. */
  function Updates(effects: seq<Effect>, name: string): (r: seq<Effect>)
    ensures forall k :: 0 <= k < |r| ==> r[k].Metric? && r[k].name == name
    ensures |r| <= |effects|
  {
    if |effects| == 0 then []
    else
      (if effects[0].Metric? && effects[0].name == name then [effects[0]] else [])
      + Updates(effects[1..], name)
  }

  /** The analytics events among `effects`, in order. */
  function Logs(effects: seq<Effect>): (r: seq<Effect>)
    ensures forall k :: 0 <= k < |r| ==> r[k].Log?
    ensures |r| <= |effects|
  {
    if |effects| == 0 then []
    else (if effects[0].Log? then [effects[0]] else []) + Logs(effects[1..])
  }

  /** The sum of the values of the metric updates in `effects`. */
  function Total(effects: seq<Effect>): int
  {
    if |effects| == 0 then 0
    else (if effects[0].Metric? then effects[0].value else 0) + Total(effects[1..])
  }

  lemma {:induction false} UpdatesAppend(a: seq<Effect>, b: seq<Effect>, name: string)
    ensures Updates(a + b, name) == Updates(a, name) + Updates(b, name)
    decreases |a|
  {
    if |a| > 0 {
      assert (a + b)[1..] == a[1..] + b;
      UpdatesAppend(a[1..], b, name);
    } else {
      assert a + b == b;
    }
  }

  lemma {:induction false} LogsAppend(a: seq<Effect>, b: seq<Effect>)
    ensures Logs(a + b) == Logs(a) + Logs(b)
    decreases |a|
  {
    if |a| > 0 {
      assert (a + b)[1..] == a[1..] + b;
      LogsAppend(a[1..], b);
    } else {
      assert a + b == b;
    }
  }

  lemma {:induction false} TotalAppend(a: seq<Effect>, b: seq<Effect>)
    ensures Total(a + b) == Total(a) + Total(b)
    decreases |a|
  {
    if |a| > 0 {
      assert (a + b)[1..] == a[1..] + b;
      TotalAppend(a[1..], b);
    } else {
      assert a + b == b;
    }
  }

  /** The price id: the hex encoding of the event's identifier bytes. */
  function PriceId(evt: PriceFeedUpdateEvent): string
    requires HexId.ValidBytes(evt.priceIdentifier)
  {
    HexId.DecodeBytesArray(evt.priceIdentifier)
  }

  /** The symbol the handler reports for an event. */
  function SymbolOf(evt: PriceFeedUpdateEvent, cfg: Config): string
    requires HexId.ValidBytes(evt.priceIdentifier)
  {
    Symbols.LookupSymbol(cfg.priceMap, PriceId(evt))
  }

  /** The labels of the price-update counter and of the sponsorship gauge. */
  function LabelsOf(evt: PriceFeedUpdateEvent, cfg: Config): map<string, string>
    requires HexId.ValidBytes(evt.priceIdentifier)
  {
    var symbol := SymbolOf(evt, cfg);
    PriceLabels(PriceId(evt), symbol, Symbols.ClassifyAsset(symbol))
  }

  /** The handler body: the metric updates and the analytics event, in the order issued. */
  function Handle(evt: PriceFeedUpdateEvent, tx: Fees.Transaction, cfg: Config): (effects: seq<Effect>)
    requires HexId.ValidBytes(evt.priceIdentifier)
    ensures forall k :: 0 <= k < |effects| ==> effects[k].Log? || effects[k].name in MetricNames
  {
    var priceId := HexId.DecodeBytesArray(evt.priceIdentifier);
    var symbol := Symbols.LookupSymbol(cfg.priceMap, priceId);
    var assetType := Symbols.ClassifyAsset(symbol);
    var labels := PriceLabels(priceId, symbol, assetType);
    var gauge := if priceId in cfg.sponsoredFeeds then SponsoredPriceUpdates else NonSponsoredPriceUpdates;
    [ Metric(CounterAdd, TotalPriceUpdates, 1, labels),
      Metric(GaugeRecord, gauge, 1, labels),
      Metric(CounterAdd, TotalTransactionFee, Fees.NetFee(tx), SenderLabels(evt.sender)),
      Log(PriceUpdateEvent, evt.sender, symbol, assetType, Message(symbol)) ]
  }

  /** Per metric, exactly the updates the handler promises and nothing else:
      one price-update count, one gauge chosen by sponsorship, one fee, one log. */
  lemma HandleEffects(evt: PriceFeedUpdateEvent, tx: Fees.Transaction, cfg: Config)
    requires HexId.ValidBytes(evt.priceIdentifier)
    ensures var effects := Handle(evt, tx, cfg);
            var labels := LabelsOf(evt, cfg);
            var sponsored := PriceId(evt) in cfg.sponsoredFeeds;
            && Updates(effects, TotalPriceUpdates) == [Metric(CounterAdd, TotalPriceUpdates, 1, labels)]
            && Updates(effects, SponsoredPriceUpdates)
               == (if sponsored then [Metric(GaugeRecord, SponsoredPriceUpdates, 1, labels)] else [])
            && Updates(effects, NonSponsoredPriceUpdates)
               == (if sponsored then [] else [Metric(GaugeRecord, NonSponsoredPriceUpdates, 1, labels)])
            && Updates(effects, TotalTransactionFee)
               == [Metric(CounterAdd, TotalTransactionFee, Fees.NetFee(tx), SenderLabels(evt.sender))]
            && Logs(effects) == [Log(PriceUpdateEvent, evt.sender, SymbolOf(evt, cfg),
                                     Symbols.ClassifyAsset(SymbolOf(evt, cfg)), Message(SymbolOf(evt, cfg)))]
  {
    var priceId := PriceId(evt);
    var symbol := SymbolOf(evt, cfg);
    var labels := LabelsOf(evt, cfg);
    var gauge := if priceId in cfg.sponsoredFeeds then SponsoredPriceUpdates else NonSponsoredPriceUpdates;
    var a := Metric(CounterAdd, TotalPriceUpdates, 1, labels);
    var b := Metric(GaugeRecord, gauge, 1, labels);
    var c := Metric(CounterAdd, TotalTransactionFee, Fees.NetFee(tx), SenderLabels(evt.sender));
    var d := Log(PriceUpdateEvent, evt.sender, symbol, Symbols.ClassifyAsset(symbol), Message(symbol));
    assert Handle(evt, tx, cfg) == [a, b, c, d];
    UpdatesOfFour(a, b, c, d, TotalPriceUpdates);
    UpdatesOfFour(a, b, c, d, SponsoredPriceUpdates);
    UpdatesOfFour(a, b, c, d, NonSponsoredPriceUpdates);
    UpdatesOfFour(a, b, c, d, TotalTransactionFee);
    LogsOfFour(a, b, c, d);
  }

  lemma UpdatesOfFour(a: Effect, b: Effect, c: Effect, d: Effect, name: string)
    ensures Updates([a, b, c, d], name)
            == Updates([a], name) + Updates([b], name) + Updates([c], name) + Updates([d], name)
  {
    assert [a, b, c, d] == [a] + [b] + [c] + [d];
    UpdatesAppend([a] + [b] + [c], [d], name);
    UpdatesAppend([a] + [b], [c], name);
    UpdatesAppend([a], [b], name);
  }

  lemma LogsOfFour(a: Effect, b: Effect, c: Effect, d: Effect)
    ensures Logs([a, b, c, d]) == Logs([a]) + Logs([b]) + Logs([c]) + Logs([d])
  {
    assert [a, b, c, d] == [a] + [b] + [c] + [d];
    LogsAppend([a] + [b] + [c], [d]);
    LogsAppend([a] + [b], [c]);
    LogsAppend([a], [b]);
  }

  /** Sponsorship is exclusive and exhaustive: exactly one gauge is recorded,
      with value 1 and the same labels as the price-update counter. */
  lemma SponsorshipExclusive(evt: PriceFeedUpdateEvent, tx: Fees.Transaction, cfg: Config)
    requires HexId.ValidBytes(evt.priceIdentifier)
    ensures var effects := Handle(evt, tx, cfg);
            && |Updates(effects, SponsoredPriceUpdates)| + |Updates(effects, NonSponsoredPriceUpdates)| == 1
            && (|Updates(effects, SponsoredPriceUpdates)| == 1 <==> PriceId(evt) in cfg.sponsoredFeeds)
            && Total(Updates(effects, SponsoredPriceUpdates) + Updates(effects, NonSponsoredPriceUpdates)) == 1
  {
    HandleEffects(evt, tx, cfg);
  }

  /** The label sets: `{ priceId, symbol, assetType }` on the price metrics,
      `{ sender }` alone on the fee. */
  lemma HandleLabels(evt: PriceFeedUpdateEvent, tx: Fees.Transaction, cfg: Config)
    requires HexId.ValidBytes(evt.priceIdentifier)
    ensures forall k :: 0 <= k < |Handle(evt, tx, cfg)| && Handle(evt, tx, cfg)[k].Metric? ==>
      var e := Handle(evt, tx, cfg)[k];
      if e.name == TotalTransactionFee then e.labels.Keys == {"sender"} && e.labels["sender"] == evt.sender
      else e.labels.Keys == {"priceId", "symbol", "assetType"}
           && e.labels["priceId"] == PriceId(evt)
           && e.labels["symbol"] == SymbolOf(evt, cfg)
           && e.labels["assetType"] == Symbols.ClassifyAsset(SymbolOf(evt, cfg))
  {
    var labels := LabelsOf(evt, cfg);
    assert labels.Keys == {"priceId", "symbol", "assetType"};
    assert SenderLabels(evt.sender).Keys == {"sender"};
    var effects := Handle(evt, tx, cfg);
    assert effects[0].labels == labels && effects[1].labels == labels;
    assert effects[2].labels == SenderLabels(evt.sender);
  }

  /** The worked example: bytes AB CD, mapped to a crypto symbol and sponsored. */
  lemma SponsoredCryptoExample(tx: Fees.Transaction, sender: string)
    ensures var cfg := Config(map["0xabcd" := "Crypto.BTC/USD"], {"0xabcd"});
            var evt := PriceFeedUpdateEvent([0xAB, 0xCD], sender);
            var labels := PriceLabels("0xabcd", "Crypto.BTC/USD", "Crypto");
            && Updates(Handle(evt, tx, cfg), SponsoredPriceUpdates) == [Metric(GaugeRecord, SponsoredPriceUpdates, 1, labels)]
            && Updates(Handle(evt, tx, cfg), NonSponsoredPriceUpdates) == []
  {
    var cfg := Config(map["0xabcd" := "Crypto.BTC/USD"], {"0xabcd"});
    var evt := PriceFeedUpdateEvent([0xAB, 0xCD], sender);
    HexId.DecodeExamples();
    Symbols.ClassifyAnyMatch("Crypto.BTC/USD", 1);
    HandleEffects(evt, tx, cfg);
  }

  /** The per-event counts that `HandleAllTotals` adds up. */
  lemma HandleCounts(evt: PriceFeedUpdateEvent, tx: Fees.Transaction, cfg: Config)
    requires HexId.ValidBytes(evt.priceIdentifier)
    ensures var effects := Handle(evt, tx, cfg);
            var sponsored := PriceId(evt) in cfg.sponsoredFeeds;
            && |Updates(effects, TotalPriceUpdates)| == 1
            && Total(Updates(effects, TotalPriceUpdates)) == 1
            && |Updates(effects, SponsoredPriceUpdates)| == (if sponsored then 1 else 0)
            && |Updates(effects, NonSponsoredPriceUpdates)| == (if sponsored then 0 else 1)
            && Total(Updates(effects, TotalTransactionFee)) == Fees.NetFee(tx)
            && |Logs(effects)| == 1
  {
    HandleEffects(evt, tx, cfg);
  }

  /** One invocation of the handler: the event and its enclosing transaction. */
  datatype Delivery = Delivery(evt: PriceFeedUpdateEvent, tx: Fees.Transaction)

  predicate ValidDeliveries(ds: seq<Delivery>)
  {
    forall i :: 0 <= i < |ds| ==> HexId.ValidBytes(ds[i].evt.priceIdentifier)
  }

  /** The handler invoked once per delivered event; no state is carried between calls. */
  function HandleAll(ds: seq<Delivery>, cfg: Config): seq<Effect>
    requires ValidDeliveries(ds)
  {
    if |ds| == 0 then []
    else Handle(ds[0].evt, ds[0].tx, cfg) + HandleAll(ds[1..], cfg)
  }

  /** How many of the deliveries carry a sponsored price id. */
  function SponsoredCount(ds: seq<Delivery>, cfg: Config): nat
    requires ValidDeliveries(ds)
  {
    if |ds| == 0 then 0
    else (if PriceId(ds[0].evt) in cfg.sponsoredFeeds then 1 else 0) + SponsoredCount(ds[1..], cfg)
  }

  /** The sum of the net fees of the deliveries' transactions. */
  function FeeSum(ds: seq<Delivery>): int
  {
    if |ds| == 0 then 0 else Fees.NetFee(ds[0].tx) + FeeSum(ds[1..])
  }

  /** Over any run of events: the price-update counter grows by one per event,
      the two gauges are recorded once per event between them, split by
      sponsorship, the fee counter grows by the sum of the net fees, and there
      is one analytics event per event. */
  lemma {:induction false} HandleAllTotals(ds: seq<Delivery>, cfg: Config)
    requires ValidDeliveries(ds)
    ensures var effects := HandleAll(ds, cfg);
            && |Updates(effects, TotalPriceUpdates)| == |ds|
            && Total(Updates(effects, TotalPriceUpdates)) == |ds|
            && |Updates(effects, SponsoredPriceUpdates)| == SponsoredCount(ds, cfg)
            && |Updates(effects, NonSponsoredPriceUpdates)| == |ds| - SponsoredCount(ds, cfg)
            && Total(Updates(effects, TotalTransactionFee)) == FeeSum(ds)
            && |Logs(effects)| == |ds|
    decreases |ds|
  {
    if |ds| > 0 {
      var head := Handle(ds[0].evt, ds[0].tx, cfg);
      var rest := HandleAll(ds[1..], cfg);
      assert HandleAll(ds, cfg) == head + rest;
      HandleAllTotals(ds[1..], cfg);
      HandleCounts(ds[0].evt, ds[0].tx, cfg);
      UpdatesAppend(head, rest, TotalPriceUpdates);
      UpdatesAppend(head, rest, SponsoredPriceUpdates);
      UpdatesAppend(head, rest, NonSponsoredPriceUpdates);
      UpdatesAppend(head, rest, TotalTransactionFee);
      LogsAppend(head, rest);
      TotalAppend(Updates(head, TotalPriceUpdates), Updates(rest, TotalPriceUpdates));
      TotalAppend(Updates(head, TotalTransactionFee), Updates(rest, TotalTransactionFee));
    }
  }
}
