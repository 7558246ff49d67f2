/**
 * `ibapi_mcp_server/ibapi_functions.py`: the `IBGatewayClient` accumulator
 * with market data, and the result tails of `check_gateway_connection`,
 * `get_mid_price` and `get_portfolio`.
 */
module McpIbapiFunctions {

  import opened Wrappers
  import opened Events
  import opened Accumulation
  import opened Reports

  const BidTick: int := 1
  const AskTick: int := 2
  /** The request id `get_mid_price` subscribes under. */
  const MarketDataReqId: int := 1001
  const ConnectFailedText: string := "Connection timed out or failed"
  const NoMarketDataText: string := "Failed to receive market data"

  /** One `market_data[reqId]` dictionary: `bid`, `ask` and `mid`, each possibly absent. */
  datatype Quote = Quote(bid: Option<real>, ask: Option<real>, mid: Option<real>)

  const EmptyQuote: Quote := Quote(None, None, None)

  /** Both complementary prices have been seen. */
  predicate Complete(q: Quote) {
    q.bid.Some? && q.ask.Some?
  }

  /** `mid` is present exactly when both prices are, and is then their average. */
  predicate QuoteWellFormed(q: Quote) {
    (q.mid.Some? <==> Complete(q)) &&
    (Complete(q) ==> q.mid.value == (q.bid.value + q.ask.value) / 2.0)
  }

  predicate QuotesWellFormed(m: map<int, Quote>) {
    forall r :: r in m ==> QuoteWellFormed(m[r])
  }

  /** Some request holds a complete pair. */
  predicate AnyComplete(m: map<int, Quote>) {
    exists r :: r in m && Complete(m[r])
  }

  function EntryOf(m: map<int, Quote>, reqId: int): Quote
  {
    if reqId in m then m[reqId] else EmptyQuote
  }

  /** The price a tick of type `tickType` writes: `bid` for 1, `ask` for 2. */
  function PriceOf(q: Quote, tickType: int): Option<real>
    requires tickType == BidTick || tickType == AskTick
  {
    if tickType == BidTick then q.bid else q.ask
  }

  /** One quote after one tick: the price goes to its side, and the mid is set once both sides are known. */
  function TickEntry(q: Quote, tickType: int, price: real): Quote
  {
    var q1 :=
      if tickType == BidTick then q.(bid := Some(price))
      else if tickType == AskTick then q.(ask := Some(price))
      else q;
    if Complete(q1) then q1.(mid := Some((q1.bid.value + q1.ask.value) / 2.0)) else q1
  }

  /**
   * `tickPrice` on `market_data`: ensure an entry for `reqId`, store a bid or
   * an ask price, and recompute `mid` once both are present.
   */
  function TickUpdate(m: map<int, Quote>, reqId: int, tickType: int, price: real): (r: map<int, Quote>)
    ensures r.Keys == m.Keys + {reqId}
    ensures forall other :: other in m && other != reqId ==> r[other] == m[other]
    ensures r[reqId].bid == if tickType == BidTick then Some(price) else EntryOf(m, reqId).bid
    ensures r[reqId].ask == if tickType == AskTick then Some(price) else EntryOf(m, reqId).ask
    ensures Complete(r[reqId]) ==> r[reqId].mid == Some((r[reqId].bid.value + r[reqId].ask.value) / 2.0)
    ensures !Complete(r[reqId]) ==> r[reqId].mid == EntryOf(m, reqId).mid
  {
    m[reqId := TickEntry(EntryOf(m, reqId), tickType, price)]
  }

  /** A tick keeps the quotes well formed, and completes a pair exactly when it completes its own entry. */
  lemma TickUpdateKeepsQuotes(m: map<int, Quote>, reqId: int, tickType: int, price: real)
    ensures QuotesWellFormed(m) ==> QuotesWellFormed(TickUpdate(m, reqId, tickType, price))
    ensures AnyComplete(TickUpdate(m, reqId, tickType, price)) <==> AnyComplete(m) || Complete(TickUpdate(m, reqId, tickType, price)[reqId])
  {
    var r := TickUpdate(m, reqId, tickType, price);
    assert AnyComplete(r) ==> AnyComplete(m) || Complete(r[reqId]) by {
      if AnyComplete(r) && !Complete(r[reqId]) {
        var x :| x in r && Complete(r[x]);
        assert x != reqId && r[x] == m[x];
      }
    }
    assert AnyComplete(m) ==> AnyComplete(r) by {
      if AnyComplete(m) {
        var x :| x in m && Complete(m[x]);
        assert x in r && Complete(r[x]);
      }
    }
  }

  /** The fields of `IBGatewayClient` as one value. */
  datatype ClientState = ClientState(
    accountSummary: Summary,
    positions: seq<PositionRecord>,
    accountSummaryDone: bool,
    positionsDone: bool,
    connected: bool,
    error: Option<ErrorInfo>,
    marketData: map<int, Quote>,
    marketDataDone: bool)

  /** What `__init__` sets up: empty containers, no error, every flag unset. */
  const InitialState: ClientState := ClientState(map[], [], false, false, false, None, map[], false)

  /** The client's invariant: quotes well formed, and the market-data flag set exactly when some pair is complete. */
  predicate Inv(s: ClientState) {
    QuotesWellFormed(s.marketData) && (s.marketDataDone <==> AnyComplete(s.marketData))
  }

  /** No completion flag is lowered going from `s` to `t`. */
  predicate FlagsKept(s: ClientState, t: ClientState) {
    (s.connected ==> t.connected) &&
    (s.accountSummaryDone ==> t.accountSummaryDone) &&
    (s.positionsDone ==> t.positionsDone) &&
    (s.marketDataDone ==> t.marketDataDone)
  }

  function QuoteStep(m: map<int, Quote>, e: Event): map<int, Quote>
  {
    if e.TickPrice? then TickUpdate(m, e.reqId, e.tickType, e.price) else m
  }

  /** `market_data` after the events were delivered, in order, starting from `m`. */
  function QuotesAfter(m: map<int, Quote>, evs: seq<Event>): map<int, Quote>
  {
    if evs == [] then m else QuoteStep(QuotesAfter(m, evs[..|evs| - 1]), evs[|evs| - 1])
  }

  /** What one callback does to the client's fields. */
  function Step(s: ClientState, e: Event): (r: ClientState)
    ensures FlagsKept(s, r)
    ensures Inv(s) ==> Inv(r)
    ensures e.Error? ==> r.error == Some(ErrorInfo(e.reqId, e.code, e.msg))
    ensures e.Error? ==>
      r.connected == s.connected && r.marketDataDone == s.marketDataDone &&
      r.accountSummaryDone == (s.accountSummaryDone || IsConnectionLoss(e.code)) &&
      r.positionsDone == (s.positionsDone || IsConnectionLoss(e.code))
  {
    match e
    case NextValidId(_) => s.(connected := true)
    case Error(reqId, code, msg) =>
      s.(error := Some(ErrorInfo(reqId, code, msg)),
         accountSummaryDone := s.accountSummaryDone || IsConnectionLoss(code),
         positionsDone := s.positionsDone || IsConnectionLoss(code))
    case AccountSummary(_, account, tag, value, _) =>
      s.(accountSummary := MergeSummary(s.accountSummary, account, tag, value))
    case AccountSummaryEnd(_) => s.(accountSummaryDone := true)
    case Position(account, contract, pos, avgCost) =>
      s.(positions := s.positions + [PositionRecord(account, contract, pos, avgCost)])
    case PositionEnd => s.(positionsDone := true)
    case TickPrice(reqId, tickType, price) => TickState(s, reqId, tickType, price)
  }

  /** The fields after `tickPrice(reqId, tickType, price)`; it keeps the invariant. */
  function TickState(s: ClientState, reqId: int, tickType: int, price: real): (r: ClientState)
    ensures Inv(s) ==> Inv(r)
  {
    var m := TickUpdate(s.marketData, reqId, tickType, price);
    TickUpdateKeepsQuotes(s.marketData, reqId, tickType, price);
    s.(marketData := m, marketDataDone := s.marketDataDone || Complete(m[reqId]))
  }

  /** The client's fields after the reader loop delivered `evs` in order, starting from `s`. */
  function Fold(s: ClientState, evs: seq<Event>): (r: ClientState)
    ensures FlagsKept(s, r)
    ensures Inv(s) ==> Inv(r)
  {
    if evs == [] then s else Step(Fold(s, evs[..|evs| - 1]), evs[|evs| - 1])
  }

  /** One event touches each field exactly as that field's own handler does. */
  lemma StepFields(s: ClientState, e: Event)
    ensures Step(s, e).accountSummary == SummaryStep(s.accountSummary, e)
    ensures Step(s, e).positions == s.positions + PositionsOf([e])
    ensures Step(s, e).error == ErrorAfter(s.error, [e])
    ensures Step(s, e).connected == (s.connected || e.NextValidId?)
    ensures Step(s, e).accountSummaryDone == (s.accountSummaryDone || EndsSummary(e))
    ensures Step(s, e).positionsDone == (s.positionsDone || EndsPositions(e))
    ensures Step(s, e).marketData == QuoteStep(s.marketData, e)
    ensures Step(s, e).marketDataDone == (s.marketDataDone || (e.TickPrice? && Complete(QuoteStep(s.marketData, e)[e.reqId])))
  {
    assert [e][..0] == [];
  }

  lemma {:induction false} FoldSummary(s: ClientState, evs: seq<Event>)
    ensures Fold(s, evs).accountSummary == SummaryAfter(s.accountSummary, evs)
  {
    if evs != [] {
      FoldSummary(s, evs[..|evs| - 1]);
      StepFields(Fold(s, evs[..|evs| - 1]), evs[|evs| - 1]);
    }
  }

  lemma {:induction false} FoldPositions(s: ClientState, evs: seq<Event>)
    ensures Fold(s, evs).positions == s.positions + PositionsOf(evs)
  {
    if evs != [] {
      var init, last := evs[..|evs| - 1], evs[|evs| - 1];
      FoldPositions(s, init);
      StepFields(Fold(s, init), last);
      PositionsOfAppend(init, [last]);
      assert init + [last] == evs;
    }
  }

  lemma {:induction false} FoldError(s: ClientState, evs: seq<Event>)
    ensures Fold(s, evs).error == ErrorAfter(s.error, evs)
  {
    if evs != [] {
      FoldError(s, evs[..|evs| - 1]);
      StepFields(Fold(s, evs[..|evs| - 1]), evs[|evs| - 1]);
    }
  }

  lemma {:induction false} FoldFlags(s: ClientState, evs: seq<Event>)
    ensures Fold(s, evs).connected == (s.connected || Connects(evs))
    ensures Fold(s, evs).accountSummaryDone == (s.accountSummaryDone || SummaryEnded(evs))
    ensures Fold(s, evs).positionsDone == (s.positionsDone || PositionsEnded(evs))
  {
    if evs != [] {
      FoldFlags(s, evs[..|evs| - 1]);
      StepFields(Fold(s, evs[..|evs| - 1]), evs[|evs| - 1]);
      FlagsSplitLast(evs);
    }
  }

  lemma {:induction false} FoldQuotes(s: ClientState, evs: seq<Event>)
    ensures Fold(s, evs).marketData == QuotesAfter(s.marketData, evs)
  {
    if evs != [] {
      FoldQuotes(s, evs[..|evs| - 1]);
      StepFields(Fold(s, evs[..|evs| - 1]), evs[|evs| - 1]);
    }
  }

  /** Each field after a run of events is the fold of that field's own handler over the events. */
  lemma FoldFields(s: ClientState, evs: seq<Event>)
    ensures Fold(s, evs).accountSummary == SummaryAfter(s.accountSummary, evs)
    ensures Fold(s, evs).positions == s.positions + PositionsOf(evs)
    ensures Fold(s, evs).error == ErrorAfter(s.error, evs)
    ensures Fold(s, evs).connected == (s.connected || Connects(evs))
    ensures Fold(s, evs).accountSummaryDone == (s.accountSummaryDone || SummaryEnded(evs))
    ensures Fold(s, evs).positionsDone == (s.positionsDone || PositionsEnded(evs))
    ensures Fold(s, evs).marketData == QuotesAfter(s.marketData, evs)
  {
    FoldSummary(s, evs);
    FoldPositions(s, evs);
    FoldError(s, evs);
    FoldFlags(s, evs);
    FoldQuotes(s, evs);
  }

  /** A tick of type `tickType` for `reqId`. */
  predicate IsTickFor(e: Event, reqId: int, tickType: int) {
    e.TickPrice? && e.reqId == reqId && e.tickType == tickType
  }

  /** The bid (or ask) of a request is the price of the last bid (or ask) tick for it. */
  lemma {:induction false} QuotesLatestTick(m: map<int, Quote>, evs: seq<Event>, reqId: int, tickType: int, i: nat)
    requires tickType == BidTick || tickType == AskTick
    requires i < |evs| && IsTickFor(evs[i], reqId, tickType)
    requires forall j :: i < j < |evs| ==> !IsTickFor(evs[j], reqId, tickType)
    ensures reqId in QuotesAfter(m, evs)
    ensures PriceOf(QuotesAfter(m, evs)[reqId], tickType) == Some(evs[i].price)
  {
    if i < |evs| - 1 {
      QuotesLatestTick(m, evs[..|evs| - 1], reqId, tickType, i);
    }
  }

  /** Without ticks of that type for the request, its price of that type stays as it was. */
  lemma {:induction false} QuotesUntouched(m: map<int, Quote>, evs: seq<Event>, reqId: int, tickType: int)
    requires tickType == BidTick || tickType == AskTick
    requires forall j :: 0 <= j < |evs| ==> !IsTickFor(evs[j], reqId, tickType)
    ensures PriceOf(EntryOf(QuotesAfter(m, evs), reqId), tickType) == PriceOf(EntryOf(m, reqId), tickType)
  {
    if evs != [] {
      QuotesUntouched(m, evs[..|evs| - 1], reqId, tickType);
    }
  }

  /**
   * A bid and an ask for the same request, in either order: the market-data
   * flag is raised by the second of the two and not by the first, and `mid`
   * is their average.
   */
  lemma QuotePairCompletes(s: ClientState, reqId: int, bid: real, ask: real, bidFirst: bool)
    requires Inv(s) && !s.marketDataDone && reqId !in s.marketData
    ensures
      var first := if bidFirst then TickPrice(reqId, BidTick, bid) else TickPrice(reqId, AskTick, ask);
      var second := if bidFirst then TickPrice(reqId, AskTick, ask) else TickPrice(reqId, BidTick, bid);
      !Step(s, first).marketDataDone &&
      Step(Step(s, first), second).marketDataDone &&
      Step(Step(s, first), second).marketData[reqId] == Quote(Some(bid), Some(ask), Some((bid + ask) / 2.0))
  {
  }

  /** The dictionary `get_mid_price` returns. */
  datatype MidPriceReply =
    | MidPrice(symbol: string, midPrice: Option<real>, bid: Option<real>, ask: Option<real>)
    | MidPriceError(symbol: string, error: string)

  /**
   * `get_mid_price` once the connect wait and the market-data wait have
   * outcomes: the entry for request 1001 if the data wait succeeded and the
   * entry exists, an error otherwise.
   */
  function MidPriceReplyOf(symbol: string, connected: bool, marketDataReceived: bool, marketData: map<int, Quote>): (r: MidPriceReply)
    ensures r.symbol == symbol
    ensures !connected ==> r == MidPriceError(symbol, ConnectFailedText)
    ensures r.MidPrice? <==> connected && marketDataReceived && MarketDataReqId in marketData
    ensures connected && r.MidPriceError? ==> r.error == NoMarketDataText
    ensures r.MidPrice? ==>
      r.bid == marketData[MarketDataReqId].bid && r.ask == marketData[MarketDataReqId].ask &&
      r.midPrice == marketData[MarketDataReqId].mid
    ensures QuotesWellFormed(marketData) && r.MidPrice? ==>
      (r.midPrice.Some? <==> r.bid.Some? && r.ask.Some?) &&
      (r.midPrice.Some? ==> r.midPrice.value == (r.bid.value + r.ask.value) / 2.0)
  {
    if !connected then MidPriceError(symbol, ConnectFailedText)
    else if marketDataReceived && MarketDataReqId in marketData then
      var data := marketData[MarketDataReqId];
      MidPrice(symbol, data.mid, data.bid, data.ask)
    else MidPriceError(symbol, NoMarketDataText)
  }

  /** With a bid tick and an ask tick for a request among the events, its entry holds the last of each and their average. */
  lemma QuotesAfterPair(evs: seq<Event>, reqId: int, i: nat, j: nat)
    requires i < |evs| && IsTickFor(evs[i], reqId, BidTick)
    requires forall k :: i < k < |evs| ==> !IsTickFor(evs[k], reqId, BidTick)
    requires j < |evs| && IsTickFor(evs[j], reqId, AskTick)
    requires forall k :: j < k < |evs| ==> !IsTickFor(evs[k], reqId, AskTick)
    ensures
      var m := QuotesAfter(map[], evs);
      reqId in m && m[reqId] == Quote(Some(evs[i].price), Some(evs[j].price), Some((evs[i].price + evs[j].price) / 2.0))
  {
    QuotesLatestTick(map[], evs, reqId, BidTick, i);
    QuotesLatestTick(map[], evs, reqId, AskTick, j);
    QuotesAfterWellFormed(map[], evs);
  }

  lemma {:induction false} QuotesAfterWellFormed(m: map<int, Quote>, evs: seq<Event>)
    requires QuotesWellFormed(m)
    ensures QuotesWellFormed(QuotesAfter(m, evs))
  {
    if evs != [] {
      QuotesAfterWellFormed(m, evs[..|evs| - 1]);
    }
  }

  /**
   * After the reader loop delivered `evs` to a fresh client, with a last bid
   * tick at `i` and a last ask tick at `j` for request 1001, the market-data
   * flag is set and a successful data wait reports exactly those prices and
   * their average.
   */
  lemma MidPriceAfterTicks(symbol: string, evs: seq<Event>, i: nat, j: nat)
    requires i < |evs| && IsTickFor(evs[i], MarketDataReqId, BidTick)
    requires forall k :: i < k < |evs| ==> !IsTickFor(evs[k], MarketDataReqId, BidTick)
    requires j < |evs| && IsTickFor(evs[j], MarketDataReqId, AskTick)
    requires forall k :: j < k < |evs| ==> !IsTickFor(evs[k], MarketDataReqId, AskTick)
    ensures
      var s := Fold(InitialState, evs);
      s.marketDataDone &&
      MidPriceReplyOf(symbol, true, true, s.marketData) ==
        MidPrice(symbol, Some((evs[i].price + evs[j].price) / 2.0), Some(evs[i].price), Some(evs[j].price))
  {
    var s := Fold(InitialState, evs);
    FoldQuotes(InitialState, evs);
    QuotesAfterPair(evs, MarketDataReqId, i, j);
    assert Inv(InitialState);
    assert Complete(s.marketData[MarketDataReqId]);
    assert AnyComplete(s.marketData);
  }

  /**
   * A bid alone does not raise the market-data flag, so the data wait times
   * out and the reply is the error, without the bid that did arrive.
   */
  lemma BidOnlyGivesError(symbol: string, orderId: int, bid: real)
    ensures
      var s := Fold(InitialState, [NextValidId(orderId), TickPrice(MarketDataReqId, BidTick, bid)]);
      s.connected && !s.marketDataDone && s.marketData[MarketDataReqId].bid == Some(bid) &&
      MidPriceReplyOf(symbol, true, s.marketDataDone, s.marketData) == MidPriceError(symbol, NoMarketDataText)
  {
    var evs := [NextValidId(orderId), TickPrice(MarketDataReqId, BidTick, bid)];
    assert evs[..1] == [NextValidId(orderId)];
    assert evs[..1][..0] == [];
    var s1 := Step(InitialState, NextValidId(orderId));
    assert Fold(InitialState, evs[..1]) == s1;
    assert Fold(InitialState, evs) == Step(s1, TickPrice(MarketDataReqId, BidTick, bid));
    var m := TickUpdate(s1.marketData, MarketDataReqId, BidTick, bid);
    assert !Complete(m[MarketDataReqId]);
    assert !AnyComplete(m);
  }

  /**
   * Without any ask tick, for any request, no pair is ever complete: the
   * market-data flag stays unset and a connected `get_mid_price` replies with
   * the market-data error, whatever bids arrived.
   */
  lemma NoAskGivesError(symbol: string, evs: seq<Event>)
    requires forall k :: 0 <= k < |evs| ==> !(evs[k].TickPrice? && evs[k].tickType == AskTick)
    ensures
      var s := Fold(InitialState, evs);
      !s.marketDataDone &&
      MidPriceReplyOf(symbol, true, s.marketDataDone, s.marketData) == MidPriceError(symbol, NoMarketDataText)
  {
    var m := QuotesAfter(map[], evs);
    FoldQuotes(InitialState, evs);
    forall r | r in m
      ensures !Complete(m[r])
    {
      QuotesUntouched(map[], evs, r, AskTick);
    }
    assert Inv(InitialState);
  }

  /**
   * `get_portfolio` after a successful connect wait returns the summary and
   * positions accumulated from the events, whatever the other two waits did.
   */
  lemma PortfolioAfterEvents(evs: seq<Event>, summaryDone: bool, positionsDone: bool)
    ensures
      var s := Fold(InitialState, evs);
      PortfolioReply(true, summaryDone, positionsDone, s.accountSummary, s.positions) ==
        (SummaryAfter(map[], evs), PositionsOf(evs))
  {
    FoldSummary(InitialState, evs);
    FoldPositions(InitialState, evs);
    assert InitialState.positions + PositionsOf(evs) == PositionsOf(evs);
  }

  /**
   * `check_gateway_connection` after a failed connect wait: the error text
   * carries the message and code of the last error delivered, or is the
   * timeout text when no error was delivered.
   */
  lemma CheckConnectionAfterEvents(evs: seq<Event>, host: string, port: int)
    ensures
      var r := CheckConnectionReply(false, Fold(InitialState, evs).error, host, port);
      !r.connected && r.error.Some? &&
      ((forall k :: 0 <= k < |evs| ==> !evs[k].Error?) ==> r.error == Some(TimedOutText)) &&
      (forall i :: 0 <= i < |evs| && evs[i].Error? && (forall k :: i < k < |evs| ==> !evs[k].Error?) ==>
         ParseErrorText(r.error.value) == Some((evs[i].msg, evs[i].code)))
  {
    FoldFields(InitialState, evs);
    if forall k :: 0 <= k < |evs| ==> !evs[k].Error? {
      ErrorAfterNone(None, evs);
    }
    forall i | 0 <= i < |evs| && evs[i].Error? && (forall k :: i < k < |evs| ==> !evs[k].Error?)
      ensures ParseErrorText(CheckConnectionReply(false, Fold(InitialState, evs).error, host, port).error.value) == Some((evs[i].msg, evs[i].code))
    {
      ErrorAfterLatest(None, evs, i);
    }
  }

  /** The callback side of `IBGatewayClient` in the market-data copy. */
  class IBGatewayClient {
    var accountSummary: Summary
    var positions: seq<PositionRecord>
    var accountSummaryDone: bool
    var positionsDone: bool
    var connected: bool
    var error: Option<ErrorInfo>
    var marketData: map<int, Quote>
    var marketDataDone: bool

    function State(): ClientState
      reads this
    {
      ClientState(accountSummary, positions, accountSummaryDone, positionsDone, connected, error, marketData, marketDataDone)
    }

    ghost predicate Valid()
      reads this
    {
      Inv(State())
    }

    constructor ()
      ensures Valid() && State() == InitialState
    {
      accountSummary := map[];
      positions := [];
      accountSummaryDone := false;
      positionsDone := false;
      connected := false;
      error := None;
      marketData := map[];
      marketDataDone := false;
    }

    method NextValidId(orderId: int)
      modifies this
      ensures old(Valid()) ==> Valid()
      ensures State() == old(State()).(connected := true)
    {
      connected := true;
    }

    method Error(reqId: int, errorCode: int, errorString: string)
      modifies this
      ensures old(Valid()) ==> Valid()
      ensures State() == old(State()).(
        error := Some(ErrorInfo(reqId, errorCode, errorString)),
        accountSummaryDone := old(accountSummaryDone) || IsConnectionLoss(errorCode),
        positionsDone := old(positionsDone) || IsConnectionLoss(errorCode))
    {
      error := Some(ErrorInfo(reqId, errorCode, errorString));
      if errorCode == 1100 || errorCode == 1101 || errorCode == 1102 {
        accountSummaryDone := true;
        positionsDone := true;
      }
    }

    method AccountSummary(reqId: int, account: string, tag: string, value: string, currency: string)
      modifies this
      ensures old(Valid()) ==> Valid()
      ensures State() == old(State()).(accountSummary := MergeSummary(old(accountSummary), account, tag, value))
    {
      ghost var inner := if account in accountSummary then accountSummary[account] else map[];
      if account !in accountSummary {
        accountSummary := accountSummary[account := map[]];
      }
      assert accountSummary[account] == inner;
      accountSummary := accountSummary[account := accountSummary[account][tag := value]];
      assert accountSummary == old(accountSummary)[account := inner[tag := value]];
    }

    method AccountSummaryEnd(reqId: int)
      modifies this
      ensures old(Valid()) ==> Valid()
      ensures State() == old(State()).(accountSummaryDone := true)
    {
      accountSummaryDone := true;
    }

    method Position(account: string, contract: Contract, pos: real, avgCost: real)
      modifies this
      ensures old(Valid()) ==> Valid()
      ensures State() == old(State()).(positions := old(positions) + [PositionRecord(account, contract, pos, avgCost)])
    {
      positions := positions + [PositionRecord(account, contract, pos, avgCost)];
    }

    method PositionEnd()
      modifies this
      ensures old(Valid()) ==> Valid()
      ensures State() == old(State()).(positionsDone := true)
    {
      positionsDone := true;
    }

    method TickPrice(reqId: int, tickType: int, price: real)
      modifies this
      ensures old(Valid()) ==> Valid()
      ensures State() == TickState(old(State()), reqId, tickType, price)
    {
      if reqId !in marketData {
        marketData := marketData[reqId := EmptyQuote];
      }
      var entry := marketData[reqId];
      assert entry == EntryOf(old(marketData), reqId);
      entry :=
        if tickType == BidTick then entry.(bid := Some(price))
        else if tickType == AskTick then entry.(ask := Some(price))
        else entry;
      if entry.bid.Some? && entry.ask.Some? {
        entry := entry.(mid := Some((entry.bid.value + entry.ask.value) / 2.0));
        marketDataDone := true;
      }
      assert entry == TickEntry(EntryOf(old(marketData), reqId), tickType, price);
      marketData := marketData[reqId := entry];
      assert marketData == TickUpdate(old(marketData), reqId, tickType, price);
    }

    /** The reader loop's dispatch of one event to its callback. */
    method Apply(e: Event)
      modifies this
      ensures State() == Step(old(State()), e)
    {
      match e
      case NextValidId(orderId) => this.NextValidId(orderId);
      case Error(reqId, code, msg) => this.Error(reqId, code, msg);
      case AccountSummary(reqId, account, tag, value, currency) => this.AccountSummary(reqId, account, tag, value, currency);
      case AccountSummaryEnd(reqId) => this.AccountSummaryEnd(reqId);
      case Position(account, contract, pos, avgCost) => this.Position(account, contract, pos, avgCost);
      case PositionEnd => this.PositionEnd();
      case TickPrice(reqId, tickType, price) => this.TickPrice(reqId, tickType, price);
    }

    /** The reader loop: deliver the events one at a time, in order. */
    method Run(events: seq<Event>)
      modifies this
      ensures State() == Fold(old(State()), events)
      ensures old(Valid()) ==> Valid()
    {
      var i := 0;
      while i < |events|
        invariant 0 <= i <= |events|
        invariant State() == Fold(old(State()), events[..i])
      {
        assert events[..i + 1][..i] == events[..i];
        Apply(events[i]);
        i := i + 1;
      }
      assert events[..i] == events;
    }
  }
}
