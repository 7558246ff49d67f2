/**
 * The values that the Interactive Brokers reader loop hands to the
 * `IBGatewayClient` callbacks, one decoded callback invocation per `Event`.
 */
module Events {

  /** The twelve attributes of the vendor `Contract` that a position record copies. */
  datatype Contract = Contract(
    conId: int,
    symbol: string,
    secType: string,
    lastTradeDateOrContractMonth: string,
    strike: real,
    right: string,
    multiplier: string,
    exchange: string,
    primaryExchange: string,
    currency: string,
    localSymbol: string,
    tradingClass: string)

  /** One entry of the `positions` list: account, copied contract fields, size and average cost. */
  datatype PositionRecord = PositionRecord(account: string, contract: Contract, pos: real, avgCost: real)

  /** The `_error` slot's triple `(reqId, errorCode, errorString)`. */
  datatype ErrorInfo = ErrorInfo(reqId: int, code: int, msg: string)

  /** One callback invocation, with the arguments the handler receives. */
  datatype Event =
    | NextValidId(orderId: int)
    | Error(reqId: int, code: int, msg: string)
    | AccountSummary(reqId: int, account: string, tag: string, value: string, currency: string)
    | AccountSummaryEnd(reqId: int)
    | Position(account: string, contract: Contract, pos: real, avgCost: real)
    | PositionEnd
    | TickPrice(reqId: int, tickType: int, price: real)
}
