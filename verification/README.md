# Pyth price-update observer, modelled in Dafny

The repository is an indexer processor for the Pyth price oracle on Sui. For
every `PriceFeedUpdateEvent` it decodes the feed's identifier bytes into a
`0x…` hex price id, looks the id up in a symbol table (falling back to
`"Unknown"`), buckets the symbol into an asset class by its dotted prefix,
counts the update as sponsored or non-sponsored, computes the transaction's
net gas fee, and records all of this as counter and gauge updates plus one
`"Price Update"` analytics event.

The model reframes the callback as a pure function
`PriceUpdate.Handle(event, transaction, config)` that returns the ordered list
of side effects the callback would issue (`Effect.Metric` for `Counter.add` /
`Gauge.record`, `Effect.Log` for `eventLogger.emit`). The static tables
`PRICE_MAP` and `SPONSORED_PRICE_FEEDS` are the `Config` parameter.

Modules, one per concern of `src/processor.ts`:

- `Wrappers` (wrappers.dfy): `Option` and a map lookup that reports a missing key.
- `HexId` (hex.dfy): `decodeBytesArray`, lower-case Base16 (section 8 of
  RFC 4648) behind a `"0x"` prefix, with a parser as its inverse.
- `Symbols` (symbols.dfy): the symbol lookup with its `||` fallback and the
  six-prefix asset classifier.
- `Fees` (fees.dfy): the net fee over `effects?.gasUsed?` with missing figures as 0.
- `PriceUpdate` (handler.dfy): the handler, per-metric views of its effects
  (`Updates`, `Logs`, `Total`), and `HandleAll`, the handler run once per event
  over a sequence of deliveries, which is how counters accumulate.

Two points where the code is more precise than a plain reading of its intent:

- `PRICE_MAP.get(priceId) || 'Unknown'` yields `"Unknown"` not only for a
  missing id but also for an id mapped to the empty string, since `""` is falsy.
  The model follows the code (`Symbols.OrElse`).
- The fee is not clamped: a rebate larger than the costs gives a negative
  amount added to `total_transaction_fee`. The model keeps that.

## Model

| member | source | states |
|---|---|---|
| HexId.HexOf | src/processor.ts:87 | two lower-case hex digits per byte, high nibble first, bytes in input order; length is twice the input |
| HexId.DecodeBytesArray | src/processor.ts:86-88 | the id is `"0x"` then the digits of byte i at positions 2i+2 and 2i+3; length is 2·n+2; every character after the prefix is a lower-case hex digit |
| HexId.ParseHexOf | src/processor.ts:87 | parsing the hex digits of any byte sequence gives the bytes back |
| HexId.HexOfParse | src/processor.ts:87 | any string that parses is the encoding of the bytes it parses to (the encoding is canonical) |
| HexId.RoundTrip | src/processor.ts:86-88 | dropping `"0x"` and parsing the id recovers the original bytes |
| HexId.ParseIdExact | src/processor.ts:86-88 | a string parses to some bytes if and only if it is exactly their encoded id |
| HexId.DecodeInjective | src/processor.ts:86-88 | different identifier byte sequences never share a price id |
| HexId.DecodeExamples | src/processor.ts:86-88 | the empty sequence gives `"0x"`; bytes AB CD give `"0xabcd"` |
| Symbols.LookupSymbol | src/processor.ts:18 | the symbol is the mapped value when the id is mapped to a non-empty string, otherwise `"Unknown"`; it is never empty and always a map value or `"Unknown"` |
| Symbols.ClassifyAsset | src/processor.ts:21-34 | the asset type is always one of the six bucket names or `"Unknown"` |
| Symbols.ClassifyFirstMatch | src/processor.ts:21-34 | the if/else chain agrees with the prefix table: the first matching prefix, without its dot, is the asset type, and `"Unknown"` comes back exactly when no prefix matches |
| Symbols.PrefixesExclusive | src/processor.ts:22-33 | no symbol starts with two of the six prefixes |
| Symbols.ClassifyAnyMatch | src/processor.ts:21-34 | any matching prefix decides the bucket, so the priority order cannot change the result |
| Symbols.UnmappedIsUnknown | src/processor.ts:18-34 | an id without a usable table entry gets symbol `"Unknown"` and asset type `"Unknown"` |
| Fees.NetFee | src/processor.ts:48-54 | fee plus rebate equals computation plus storage cost; negative exactly when the rebate exceeds the costs; bounded by minus the rebate and the costs; 0 with no gas summary |
| Fees.NetFeeOfSummary | src/processor.ts:48-54 | with a gas summary present, each absent figure counts as 0, so all absent gives 0 |
| Fees.NetFeeExamples | src/processor.ts:48-54 | no effects gives 0; (1000, 500, 300) gives 1200; a lone rebate of 5 gives -5 |
| PriceUpdate.Handle | src/processor.ts:14-64 | every effect is either the analytics event or an update of one of the four registered metrics |
| PriceUpdate.HandleEffects | src/processor.ts:36-63 | per metric, exactly one `total_price_updates` add of 1; a `sponsored_price_updates` record of 1 if the id is sponsored and none otherwise; the reverse for `non_sponsored_price_updates`; one fee add labelled `{sender}`; exactly one `"Price Update"` event with the sender as distinct id, the symbol, the asset type and `"Price update for "` + symbol |
| PriceUpdate.SponsorshipExclusive | src/processor.ts:40-45 | exactly one of the two gauges is recorded, the sponsored one if and only if the id is in the sponsored set, with value 1 |
| PriceUpdate.HandleLabels | src/processor.ts:36-56 | the price metrics carry exactly the labels priceId, symbol and assetType, with the computed values; the fee metric carries the sender label alone |
| PriceUpdate.SponsoredCryptoExample | src/processor.ts:15-45 | bytes AB CD mapped to `Crypto.BTC/USD` and sponsored record the sponsored gauge with labels `0xabcd`, `Crypto.BTC/USD`, `Crypto`, and no non-sponsored gauge |
| PriceUpdate.HandleCounts | src/processor.ts:38-63 | one event adds 1 to the price-update count, records the sponsored gauge once exactly when the id is sponsored and the other gauge otherwise, adds its net fee to the fee counter and emits one analytics event |
| PriceUpdate.HandleAllTotals | src/processor.ts:38-63 | over any sequence of events the price-update counter grows by exactly one per event, the sponsored gauge is recorded once per sponsored event and the other once per remaining event, the fee counter grows by the sum of the net fees, and there is one analytics event per event |

## Left out

- Platform registration: `Counter.register`, `Gauge.register`, `event.bind` with its start checkpoint and the `resourceChanges` option, and `SuiContext`. Metric and log calls are returned as data instead of being sent to a backend.
- The contents of `PRICE_MAP` and `SPONSORED_PRICE_FEEDS`: `./pyth.js` is not part of this model; both are the `Config` parameter.
- `BigDecimal`: gas figures are integers, so the fee is computed on mathematical integers.
- Parsing of the gas figures: the model takes them as natural numbers already, with `None` for a missing or falsy value (both read as 0 by `|| 0`).
- `Buffer.from` truncation of numbers outside 0..255: the encoder requires byte values instead.
- The commented-out contract-address counter after the handler: it is dead code.
- Asynchronous execution and concurrency across events: the handler shares no mutable state between events, and `HandleAll` runs it once per event in sequence.
- Gauge semantics on the backend (a gauge keeps its latest value): the model counts gauge records rather than interpreting them.
