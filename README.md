# Honor TV View: quote store and commodity pricing

This project models the two pieces of logic in the Honor TV screen, a React
display of gold and silver spot prices in AED.

- **Quote store** (`TvScreen`, file `tv_screen.dfy`). The page keeps
  `marketData`, a map from symbol to the latest quote. Each `market-data`
  socket message goes through the handler. A message without a symbol is
  dropped. Otherwise the tick is merged field by field onto the stored
  entry, and the `bidChanged` flag ("up", "down" or null) is recomputed from
  the tick's bid and the stored bid. The component state is the class
  `MarketDataStore`, with a `map<string, Quote>` field. Its handler
  `OnMarketData` is proved against the pure update `NextMarketData`.
- **Commodity pricing** (`CommodityTable`, file `commodity_table.dfy`). Each
  configured line item is priced as follows:
  - it takes the gold or silver bid and ask, or 0 for any other metal;
  - its premiums are added;
  - USD per troy ounce is converted to AED per gram (`/ 31.103 * 3.64`);
  - the result is scaled by the weight-unit multiplier, the unit count and
    the purity fraction;
  - a flat charge is added;
  - the result is rounded to hundredths for `GM` and to a whole number
    for any other unit.

  All of this is pure functions on `real`, `int` and `string`.

`wrappers.dfy` holds `Option`. `Some` is a JavaScript value that is
present. `None` is one that is `undefined`, or that `parseFloat` turns into
NaN. The gold and silver quote records come from a context provider that is
not part of this model, so they are inputs (`SpotQuote`).

## Model

| member | source | states |
|---|---|---|
| `TvScreen.WellFormed` | src/pages/tvscreenView.jsx:120 | a message is handled exactly when it exists and carries a symbol string of length at least one; anything else is dropped |
| `TvScreen.Lookup` | src/pages/tvscreenView.jsx:124-127 | `prevData[data.symbol]` is the stored entry when the symbol has one and undefined otherwise |
| `TvScreen.Overwrite` | src/pages/tvscreenView.jsx:124-125 | one property of `{...prior, ...data}`: the sent value when the tick has one, the stored value otherwise |
| `TvScreen.BidDirection` | src/pages/tvscreenView.jsx:126-131 | "up" exactly when an entry exists, both bids are numbers and the sent bid is greater; "down" exactly when an entry exists and either both bids are numbers with the sent one smaller, or exactly one bid is missing; null exactly when there is no entry or the sent bid equals the stored one |
| `TvScreen.BidDirectionMatchesCompare` | src/pages/tvscreenView.jsx:127-131 | when the stored and the sent bid are both numbers, the flag is "up" for a strictly greater bid, "down" for a strictly smaller one and null for an equal one |
| `TvScreen.BidDirectionMissingBid` | src/pages/tvscreenView.jsx:127-130 | with a stored entry, if exactly one of the two bids is missing the flag is "down", because a comparison with `undefined` is false |
| `TvScreen.MergeQuote` | src/pages/tvscreenView.jsx:123-131 | the new entry is filed under the tick's symbol; every field the tick sends replaces the stored one; every field it omits keeps the stored value, or is absent on a first tick; the flag is the computed direction |
| `TvScreen.NextMarketData` | src/pages/tvscreenView.jsx:120-135 | a missing message or one without a non-empty symbol leaves the store unchanged; otherwise the key set grows by exactly that symbol, its entry is the merge, and every other symbol's entry is unchanged |
| `TvScreen.NextMarketDataConsistent` | src/pages/tvscreenView.jsx:121-125 | each update keeps every entry filed under its own symbol |
| `TvScreen.TickMergesFields` | src/pages/tvscreenView.jsx:123-125 | for a known symbol, bid, ask, low and high are each the tick's value if it sends one and the stored value otherwise |
| `TvScreen.FirstTickNoChange` | src/pages/tvscreenView.jsx:127-131 | the first tick for a symbol stores a null flag |
| `TvScreen.TickDirection` | src/pages/tvscreenView.jsx:127-131 | against a stored numeric bid, a numeric tick bid stores the three-way comparison: up, down or null |
| `TvScreen.OwnFlagIgnored` | src/pages/tvscreenView.jsx:125-131 | a `bidChanged` value carried by the tick has no effect: the computed flag is written after the spread |
| `TvScreen.SameTickTwice` | src/pages/tvscreenView.jsx:124-131 | the second of two identical ticks stores a null flag exactly when the tick carries a bid or the stored bid is still absent |
| `TvScreen.UpThenDown` | src/pages/tvscreenView.jsx:127-130 | a rising bid and then a falling bid for one symbol store "up" and then "down" |
| `TvScreen.Replay` | src/pages/tvscreenView.jsx:119-137 | messages applied in arrival order leave exactly the starting symbols plus the symbols of the well-formed messages |
| `TvScreen.ReplayKeepsSymbols` | src/pages/tvscreenView.jsx:119-133 | over any stream of messages, no symbol is ever removed, every well-formed message's symbol is present afterwards, and the store stays consistent |
| `TvScreen.MarketDataStore.constructor` | src/pages/tvscreenView.jsx:24 | the store starts empty |
| `TvScreen.MarketDataStore.OnMarketData` | src/pages/tvscreenView.jsx:119-137 | the state becomes `NextMarketData` of the old state and the message; it reports a drop exactly for a malformed message; the store stays consistent |
| `CommodityTable.Lower` | src/components/CommodityTable.jsx:150 | `toLowerCase` keeps the length and lower-cases every character |
| `CommodityTable.NumOrZero` | src/components/CommodityTable.jsx:172-177 | a parsed number is kept, a missing or unparsable value reads as 0 |
| `CommodityTable.GetBidAskValues` | src/components/CommodityTable.jsx:20-37 | "gold", "gold kilobar" and "gold ten tola" take the gold bid/ask; "silver" takes the silver bid/ask; any other metal gets 0/0; a non-numeric quote value counts as 0 |
| `CommodityTable.Pow10` | src/components/CommodityTable.jsx:56 | `Math.pow(10, k)` is at least 1, and a multiple of ten for k >= 1 |
| `CommodityTable.Digits` | src/components/CommodityTable.jsx:56 | the digit count d of a positive integer n satisfies 10^(d-1) <= n < 10^d |
| `CommodityTable.DecimalLength` | src/components/CommodityTable.jsx:56 | `toString().length` of a non-zero integer: for a positive n of length L, 10^(L-1) <= n < 10^L; for a negative n the length is one more than its digit count, because the '-' is counted |
| `CommodityTable.PurityPower` | src/components/CommodityTable.jsx:54-57 | 1 for a missing, NaN or zero purity; in [0.1, 1) for a positive code; in (-0.1, -0.01] for a negative code, whose '-' counts in the length |
| `CommodityTable.PurityPowerIsFraction` | src/components/CommodityTable.jsx:56 | a positive code p with d digits gives exactly p / 10^d |
| `CommodityTable.PurityExamples` | src/components/CommodityTable.jsx:56 | 9999 gives 0.9999, 916 gives 0.916, 750 gives 0.75 and 22 gives 0.22 |
| `CommodityTable.UnitMultiplier` | src/components/CommodityTable.jsx:162-169 | the table value for GM, KG, TTB, TOLA and OZ, and 1 for any other weight code; never below 1 |
| `CommodityTable.RoundHundredths` | src/components/CommodityTable.jsx:61 | `toFixed(2)` yields the nearest hundredth; a tie goes away from zero (up for a non-negative value, down for a negative one) |
| `CommodityTable.RoundHundredthsSymmetric` | src/components/CommodityTable.jsx:61 | `toFixed(2)` rounds the magnitude: negating the value negates the hundredths |
| `CommodityTable.RoundHundredthsTies` | src/components/CommodityTable.jsx:61 | 0.125 shows as 0.13 and -0.125 as -0.13 |
| `CommodityTable.RoundWhole` | src/components/CommodityTable.jsx:61 | `Math.round` yields the nearest integer, with a tie going toward +infinity, for negative values too |
| `CommodityTable.FormatValue` | src/components/CommodityTable.jsx:60-62 | two decimals exactly when the weight is "GM", otherwise a whole number; the shown value is within half a unit of the price, and on a tie the hundredths round away from zero while whole numbers round up |
| `CommodityTable.FormatValueMonotone` | src/components/CommodityTable.jsx:60-62 | rounding keeps order: a larger price never shows smaller |
| `CommodityTable.GetMetalName` | src/components/CommodityTable.jsx:65-76 | the three gold names, in any case, map to "GOLD", "KILO BAR" and "TEN TOLA BAR"; any other name keeps its length and its tail, and has its first character upper-cased |
| `CommodityTable.GetMetalNameIdempotent` | src/components/CommodityTable.jsx:65-76 | a display name is its own display name |
| `CommodityTable.PerGramAed` | src/components/CommodityTable.jsx:181-182 | converting USD per troy ounce to AED per gram is undone by dividing by 3.64 and multiplying by 31.103, and it keeps the sign |
| `CommodityTable.SidePrice` | src/components/CommodityTable.jsx:179-190 | one side prices at just the charge when there are no grams or the quote plus premium is zero, and never below the charge when both are non-negative |
| `CommodityTable.SidePriceMonotone` | src/components/CommodityTable.jsx:179-190 | a price never falls when the quote plus premium or the charge rises, provided the priced grams are not negative |
| `CommodityTable.ParsedPurityPower` | src/components/CommodityTable.jsx:172-173 | `calculatePurityPower(parseFloat(purity) or 0)` equals the purity power of the code itself: the fallback to 0 maps to 1 just as a missing code does |
| `CommodityTable.GramsOf` | src/components/CommodityTable.jsx:186 | `unitMultiplier * unit * purityPower` is the full weight for a purity power of 1 and 0 when any factor is 0 |
| `CommodityTable.GramsOfNonNegative` | src/components/CommodityTable.jsx:186 | non-negative factors give non-negative grams |
| `CommodityTable.PricedGrams` | src/components/CommodityTable.jsx:162-173 | with a missing, unparsable or zero purity the whole weight is priced: unit multiplier × count |
| `CommodityTable.PricedGramsNonNegative` | src/components/CommodityTable.jsx:162-173 | with a non-negative count and purity, unit multiplier × count × purity fraction is not negative |
| `CommodityTable.RawPrices` | src/components/CommodityTable.jsx:179-190 | an item that prices no grams costs exactly its buy and sell charges (0 when missing) |
| `CommodityTable.RawBidFormula` | src/components/CommodityTable.jsx:150-187 | the buy price is (bid of the lower-cased metal + buy premium) / 31.103 × 3.64 × unit multiplier × unit × purity power of the code + buy charge, each missing premium or charge read as 0 |
| `CommodityTable.RawAskFormula` | src/components/CommodityTable.jsx:150-190 | the sell price is (ask of the lower-cased metal + sell premium) / 31.103 × 3.64 × unit multiplier × unit × purity power of the code + sell charge, each missing premium or charge read as 0 |
| `CommodityTable.PriceRow` | src/components/CommodityTable.jsx:149-190 | a row shows the display name; both prices are in hundredths exactly when the weight is "GM"; each shown price is within 0.005 (for "GM") or 0.5 (otherwise) of the unrounded formula price |
| `CommodityTable.PriceAll` | src/components/CommodityTable.jsx:149-273 | one row per configured item, in order; no item is skipped |
| `CommodityTable.UnknownMetalPricesAtCharge` | src/components/CommodityTable.jsx:179-190 | an unrecognised metal with zero premiums prices at its buy and sell charges |
| `CommodityTable.SellNotBelowBuy` | src/components/CommodityTable.jsx:179-190 | if the ask plus sell premium is at least the bid plus buy premium, the sell charge is at least the buy charge, and count and purity are not negative, then the shown sell price is at least the shown buy price |
| `CommodityTable.EndToEndExample` | src/components/CommodityTable.jsx:149-190 | one gram of 9999 gold at bid 1900 / ask 1905, premiums 5 / 3 and charges 2 / 1 shows 224.92 / 224.27; per kilogram the buy price shows as 222923 |

## Behaviour of the code worth knowing

- A missing bid reads as "down" when an entry exists and exactly one of
  the two bids is `undefined` (`BidDirectionMissingBid`).
- A repeated tick stores a null flag only if it carries a bid or the stored
  bid is absent. A bid-less tick against a stored bid gives "down"
  (`SameTickTwice` states both directions).
- The only check on a message is that it and its symbol are truthy. A
  non-numeric bid or ask is stored as sent (`WellFormed`).
- There is no lookup with an "unknown" result. A missing quote shows up in
  pricing as a metal name that is not recognised, or as a NaN field, and
  both price as 0 (`GetBidAskValues`).
- Purity codes: a positive integer code gives a fraction in [0.1, 1); only
  a missing or zero code gives 1; a negative code gives a negative
  fraction (`PurityPower`).
- One gram of 9999 gold at bid 1900 with buy premium 5 and buy charge 2
  shows 224.92 (`EndToEndExample`).
- Category spreads are applied inside the spot-rate context, before
  `goldData` and `silverData` reach the table. That context is not part
  of this model.

## Left out

- The socket.io connection, the `request-data` subscription, and the
  connect, disconnect and error handlers (src/pages/tvscreenView.jsx:102-149)
  are network I/O. Reconnection is done by the library, so the model has
  no connection state machine.
- The HTTP wrappers in src/api/api.js, the `fetchData` and
  `fetchTVScreenData` effects, and the 403 limit-modal gating
  (src/pages/tvscreenView.jsx:45-99) are thin network calls.
- `fetchCurrencyData` and `qatarRate` (src/components/CommodityTable.jsx:39-51)
  are network I/O, and their result is never used in the price.
- The one-second clock and the date and time formatting
  (src/pages/tvscreenView.jsx:151-187) use timers and locale-dependent
  `Date` APIs.
- `updateMarketData` and the spot-rate context are not part of this model.
  `goldData` and `silverData` are inputs.
- src/components/SpotRate.jsx, src/components/News.jsx, the table markup,
  and the purity cell that is blanked for "Gold Ten TOLA"
  (src/components/CommodityTable.jsx:222) are rendering only.
- Floating point. Prices are exact `real` values. On exact values,
  `toFixed(2)` is modelled as rounding a tie away from zero and
  `Math.round` as rounding a tie toward +infinity. `toFixed` returns a
  string; the model returns the hundredths.
  No bit-exact agreement with JavaScript doubles is claimed, and NaN and
  infinities are not modelled.
- Tick fields set to `null` are not modelled, and neither are fields
  other than symbol, bid, ask, low, high and `bidChanged`. `None` means
  absent (`undefined`). A `null` bid compares as 0 in JavaScript.
- String parsing. `parseFloat` of a string is abstracted to its result:
  `Some(number)` or `None` for NaN. `unit` is taken as a number.
- Purity codes that are not integers, where `toString().length` counts
  the '.', are not modelled. Neither are integers of 10^21 and above,
  which print in exponent form.
- Case mapping covers ASCII letters only. JavaScript's `toLowerCase` and
  `toUpperCase` follow full Unicode. For example, the Kelvin sign
  lower-cases to 'k', and 'ß' upper-cases to "SS".
- Weight codes that name inherited object properties, such as
  "constructor", are not modelled. JavaScript would return a function for
  them, not the default 1.
- FirstTickNoChange: holds only for symbols that are not names of inherited
  object properties. For "toString", "constructor" or "__proto__",
  `prevData[symbol]` is an inherited value even before any tick, so the
  first tick that carries a bid stores "down". The model's store is a
  plain map, where such a symbol is absent and the flag is null.
- `weightValue` (src/components/CommodityTable.jsx:171) is computed but
  never used.
- React batches and serialises state updates, so no concurrency is
  modelled.
