/** The live quote store of the TV screen: the `market-data` socket handler
    folds each inbound tick into a map from symbol to the latest quote,
    merging field by field and recomputing the `bidChanged` highlight flag. */
module TvScreen {
  import opened Wrappers

  /** The highlight flag `bidChanged`: "up", "down", or null (`NoChange`). */
  datatype BidChange = Up | Down | NoChange

  /** One `market-data` message as the handler reads it. Every field may be
      absent (`None`); `bidChanged` is whatever the sender put under that key. */
  datatype Tick = Tick(
    symbol: Option<string>,
    bid: Option<real>,
    ask: Option<real>,
    low: Option<real>,
    high: Option<real>,
    bidChanged: Option<string>)

  /** The stored entry for one symbol. Absent fields were never sent. */
  datatype Quote = Quote(
    symbol: string,
    bid: Option<real>,
    ask: Option<real>,
    low: Option<real>,
    high: Option<real>,
    bidChanged: BidChange)

  /** `data && data.symbol`: the message exists and its symbol is a
      non-empty string (the empty string is falsy). */
  predicate WellFormed(data: Option<Tick>): (ok: bool)
    ensures ok <==> data.Some? && data.value.symbol.Some? && |data.value.symbol.value| > 0
  {
    data.Some? && data.value.symbol.Some? && data.value.symbol.value != ""
  }

  /** `prevData[symbol]`, undefined when no tick for `symbol` was seen yet. */
  function Lookup(store: map<string, Quote>, symbol: string): (r: Option<Quote>)
    ensures r.Some? <==> symbol in store
    ensures r.Some? ==> r.value == store[symbol]
  {
    if symbol in store then Some(store[symbol]) else None
  }

  /** One property after `{...stored, ...data}`: the sent value wins. */
  function Overwrite(kept: Option<real>, sent: Option<real>): (r: Option<real>)
    ensures sent.Some? ==> r == sent
    ensures sent.None? ==> r == kept
  {
    if sent.Some? then sent else kept
  }

  /** The reducer's nested ternary:
      `prior && sent !== prior.bid ? (sent > prior.bid ? "up" : "down") : null`.
      A comparison with `undefined` on either side is false, hence "down". */
  function BidDirection(prior: Option<Quote>, sent: Option<real>): (d: BidChange)
    ensures d == Up <==>
      prior.Some? && sent.Some? && prior.value.bid.Some? && sent.value > prior.value.bid.value
    ensures d == Down <==>
      prior.Some? &&
      ((sent.Some? && prior.value.bid.Some? && sent.value < prior.value.bid.value) ||
       sent.Some? != prior.value.bid.Some?)
    ensures d == NoChange <==> prior.None? || sent == prior.value.bid
  {
    if prior.Some? && sent != prior.value.bid then
      if sent.Some? && prior.value.bid.Some? && sent.value > prior.value.bid.value
      then Up
      else Down
    else NoChange
  }

  /** Reference direction of a numeric bid move: up when strictly greater,
      down when strictly smaller, no change when equal. */
  function Compare(before: real, after: real): BidChange {
    if after > before then Up else if after < before then Down else NoChange
  }

  /** When both bids are numbers, the ternary agrees with the three-way
      comparison. */
  lemma BidDirectionMatchesCompare(prior: Quote, sent: real)
    requires prior.bid.Some?
    ensures BidDirection(Some(prior), Some(sent)) == Compare(prior.bid.value, sent)
  {
    if sent == prior.bid.value {
      assert Some(sent) == prior.bid;
    }
  }

  /** When exactly one of the two bids is missing the flag is "down",
      whichever of the two is missing. */
  lemma BidDirectionMissingBid(prior: Quote, sent: Option<real>)
    requires sent.Some? != prior.bid.Some?
    ensures BidDirection(Some(prior), sent) == Down
  {
  }

  /** The new entry `{...prior, ...tick, bidChanged}` for `symbol`. */
  function MergeQuote(prior: Option<Quote>, symbol: string, t: Tick): (q: Quote)
    ensures q.symbol == symbol
    ensures t.bid.Some? ==> q.bid == t.bid
    ensures t.ask.Some? ==> q.ask == t.ask
    ensures t.low.Some? ==> q.low == t.low
    ensures t.high.Some? ==> q.high == t.high
    ensures prior.Some? && t.bid.None? ==> q.bid == prior.value.bid
    ensures prior.Some? && t.ask.None? ==> q.ask == prior.value.ask
    ensures prior.Some? && t.low.None? ==> q.low == prior.value.low
    ensures prior.Some? && t.high.None? ==> q.high == prior.value.high
    ensures prior.None? ==> q.bid == t.bid && q.ask == t.ask && q.low == t.low && q.high == t.high
    ensures q.bidChanged == BidDirection(prior, t.bid)
  {
    var base := prior.GetOr(Quote(symbol, None, None, None, None, NoChange));
    Quote(symbol,
          Overwrite(base.bid, t.bid),
          Overwrite(base.ask, t.ask),
          Overwrite(base.low, t.low),
          Overwrite(base.high, t.high),
          BidDirection(prior, t.bid))
  }

  /** The state update `setMarketData(prevData => ...)` for one message. */
  function NextMarketData(prev: map<string, Quote>, data: Option<Tick>): (next: map<string, Quote>)
    ensures !WellFormed(data) ==> next == prev
    ensures WellFormed(data) ==>
      var s := data.value.symbol.value;
      next.Keys == prev.Keys + {s} && next[s] == MergeQuote(Lookup(prev, s), s, data.value)
    ensures forall k :: k in prev && !(WellFormed(data) && k == data.value.symbol.value) ==>
      k in next && next[k] == prev[k]
  {
    if WellFormed(data) then
      var s := data.value.symbol.value;
      prev[s := MergeQuote(Lookup(prev, s), s, data.value)]
    else
      prev
  }

  /** Store invariant: every entry is filed under its own symbol. Nothing
      in the handler depends on it; it is a sanity property of the map. */
  ghost predicate Consistent(store: map<string, Quote>) {
    forall k :: k in store ==> store[k].symbol == k
  }

  lemma NextMarketDataConsistent(prev: map<string, Quote>, data: Option<Tick>)
    requires Consistent(prev)
    ensures Consistent(NextMarketData(prev, data))
  {
  }

  /** The entry a well-formed tick produces, field by field: sent fields
      replace stored ones, unsent fields keep their stored values. */
  lemma TickMergesFields(prev: map<string, Quote>, t: Tick)
    requires WellFormed(Some(t))
    requires t.symbol.value in prev
    ensures var q, p := NextMarketData(prev, Some(t))[t.symbol.value], prev[t.symbol.value];
      && q.bid == (if t.bid.Some? then t.bid else p.bid)
      && q.ask == (if t.ask.Some? then t.ask else p.ask)
      && q.low == (if t.low.Some? then t.low else p.low)
      && q.high == (if t.high.Some? then t.high else p.high)
  {
  }

  /** The first tick ever seen for a symbol is never highlighted. */
  lemma FirstTickNoChange(prev: map<string, Quote>, t: Tick)
    requires WellFormed(Some(t))
    requires t.symbol.value !in prev
    ensures NextMarketData(prev, Some(t))[t.symbol.value].bidChanged == NoChange
  {
  }

  /** With a stored numeric bid, a strictly greater bid gives "up", a
      strictly smaller one "down", an equal one null. */
  lemma TickDirection(prev: map<string, Quote>, t: Tick)
    requires WellFormed(Some(t))
    requires t.symbol.value in prev && prev[t.symbol.value].bid.Some? && t.bid.Some?
    ensures var before, after := prev[t.symbol.value].bid.value, t.bid.value;
      NextMarketData(prev, Some(t))[t.symbol.value].bidChanged == Compare(before, after)
  {
    BidDirectionMatchesCompare(prev[t.symbol.value], t.bid.value);
  }

  /** The flag a tick carries itself is always overwritten: two ticks that
      differ only in it leave the same store. */
  lemma OwnFlagIgnored(prev: map<string, Quote>, t: Tick, flag: Option<string>)
    ensures NextMarketData(prev, Some(t)) == NextMarketData(prev, Some(t.(bidChanged := flag)))
  {
  }

  /** Applying the same tick twice in a row: the second time the flag is
      null exactly when the tick carries a bid or the stored bid is still
      absent. A tick without a bid against a stored bid reads as "down". */
  lemma SameTickTwice(prev: map<string, Quote>, t: Tick)
    requires WellFormed(Some(t))
    ensures var once := NextMarketData(prev, Some(t));
      var s := t.symbol.value;
      (NextMarketData(once, Some(t))[s].bidChanged == NoChange <==> (t.bid.Some? || once[s].bid.None?))
  {
    var s := t.symbol.value;
    var once := NextMarketData(prev, Some(t));
    var q := once[s];
    assert Lookup(once, s) == Some(q);
    if t.bid.None? && q.bid.Some? {
      BidDirectionMissingBid(q, t.bid);
    }
  }

  /** A rising bid then a falling bid for the same symbol read "up" then
      "down". */
  lemma UpThenDown(prev: map<string, Quote>, t: Tick, b0: real, b1: real, b2: real)
    requires WellFormed(Some(t))
    requires t.symbol.value in prev && prev[t.symbol.value].bid == Some(b0)
    requires b0 < b1 && b2 < b1
    ensures var s := t.symbol.value;
      var first := NextMarketData(prev, Some(t.(bid := Some(b1))));
      var second := NextMarketData(first, Some(t.(bid := Some(b2))));
      first[s].bidChanged == Up && second[s].bidChanged == Down
  {
    var s := t.symbol.value;
    var first := NextMarketData(prev, Some(t.(bid := Some(b1))));
    TickDirection(prev, t.(bid := Some(b1)));
    TickDirection(first, t.(bid := Some(b2)));
  }

  /** The symbols the well-formed messages of a stream carry. */
  ghost function SentSymbols(msgs: seq<Option<Tick>>): set<string> {
    set i | 0 <= i < |msgs| && WellFormed(msgs[i]) :: msgs[i].value.symbol.value
  }

  /** The store after a stream of messages, applied in arrival order. Its
      symbols are exactly the starting ones plus those of the well-formed
      messages. */
  function Replay(store: map<string, Quote>, msgs: seq<Option<Tick>>): (r: map<string, Quote>)
    ensures r.Keys == store.Keys + SentSymbols(msgs)
    decreases |msgs|
  {
    if msgs == [] then store
    else
      SentSymbolsCons(msgs);
      Replay(NextMarketData(store, msgs[0]), msgs[1..])
  }

  lemma SentSymbolsCons(msgs: seq<Option<Tick>>)
    requires msgs != []
    ensures SentSymbols(msgs) == NextMarketData(map[], msgs[0]).Keys + SentSymbols(msgs[1..])
  {
    forall x | x in SentSymbols(msgs)
      ensures x in NextMarketData(map[], msgs[0]).Keys + SentSymbols(msgs[1..])
    {
      var i :| 0 <= i < |msgs| && WellFormed(msgs[i]) && msgs[i].value.symbol.value == x;
      if i > 0 {
        assert msgs[1..][i - 1] == msgs[i];
      }
    }
    forall x | x in SentSymbols(msgs[1..])
      ensures x in SentSymbols(msgs)
    {
      var i :| 0 <= i < |msgs[1..]| && WellFormed(msgs[1..][i]) && msgs[1..][i].value.symbol.value == x;
      assert msgs[i + 1] == msgs[1..][i];
    }
  }

  /** Over a session no symbol is ever removed, every well-formed message
      adds its symbol, and the store stays consistent. */
  lemma {:induction false} ReplayKeepsSymbols(store: map<string, Quote>, msgs: seq<Option<Tick>>)
    requires Consistent(store)
    ensures store.Keys <= Replay(store, msgs).Keys
    ensures forall i :: 0 <= i < |msgs| && WellFormed(msgs[i]) ==>
      msgs[i].value.symbol.value in Replay(store, msgs)
    ensures Consistent(Replay(store, msgs))
    decreases |msgs|
  {
    if msgs != [] {
      var next := NextMarketData(store, msgs[0]);
      NextMarketDataConsistent(store, msgs[0]);
      ReplayKeepsSymbols(next, msgs[1..]);
      forall i | 0 <= i < |msgs| && WellFormed(msgs[i])
        ensures msgs[i].value.symbol.value in Replay(store, msgs)
      {
        if i > 0 {
          assert msgs[1..][i - 1] == msgs[i];
        }
      }
    }
  }

  /** The component's `marketData` state and its socket handler. */
  class MarketDataStore {
    var marketData: map<string, Quote>

    /** Sanity invariant: every entry sits under its own symbol. The handler
        does not rely on it; it is kept to show no update can break it. */
    ghost predicate Valid()
      reads this
    {
      Consistent(marketData)
    }

    /** `useState({})`. */
    constructor ()
      ensures Valid() && marketData == map[]
    {
      marketData := map[];
    }

    /** The `market-data` handler. Returns whether the message was dropped
        as malformed (the `console.warn` branch). */
    method OnMarketData(data: Option<Tick>) returns (dropped: bool)
      requires Valid()
      modifies this
      ensures Valid()
      ensures marketData == NextMarketData(old(marketData), data)
      ensures dropped <==> !WellFormed(data)
    {
      dropped := !WellFormed(data);
      if !dropped {
        var s := data.value.symbol.value;
        marketData := marketData[s := MergeQuote(Lookup(marketData, s), s, data.value)];
      }
      NextMarketDataConsistent(old(marketData), data);
    }
  }
}
