# IBGatewayClient accumulator, modelled in Dafny

This project models the core of a small bridge to the Interactive Brokers
gateway. The gateway's reader loop calls the `IBGatewayClient` callbacks one
at a time. Each callback folds one event into the client's fields:

- a nested account-summary dictionary;
- a list of position records;
- a per-request bid/ask/mid dictionary;
- a "last error" slot;
- four one-shot completion flags.

The orchestration functions wait on those flags, then build their return
value from the flags and the accumulated data.

The repository ships two copies of the class:

- `ibapi_mcp_server/ibapi_functions.py` has market data;
- `ibapi_functions.py` is the older copy, without market data.

Each copy is one Dafny module holding a `class IBGatewayClient`:

- `McpIbapiFunctions` for the copy with market data;
- `IbapiFunctions` for the older copy.

The class's fields mirror `__init__`. There is one method per callback. Each
method's postcondition gives the whole new state as an update of the old one.
`Apply` dispatches one event to its callback. `Run` is the reader loop: it
applies a sequence of events in order, and it is proved to leave the state
equal to the pure fold `Fold` of `Step` over those events.

About the pure side:

- Lemmas take `Fold` apart field by field (`FoldFields`).
- The per-field folds, shared by both copies, are in `Accumulation`. The
  lemmas about them state last-write-wins, the order of the position records,
  which error is the latest, and when each flag is set.
- The older copy is proved to behave exactly like the newer one with the
  market data dropped (`IbapiFunctions.FoldAsNewer`).

The result tails of `check_gateway_connection` and `get_portfolio` are the same
in both copies. They are pure functions in `Reports`. `get_mid_price`'s tail is
in `McpIbapiFunctions`. Every wait (`threading.Event.wait(timeout=…)`) becomes
a boolean input: true means the flag was set before the timeout.

The error text `"Error: <msg> (Code: <code>)"` is built with a decimal
rendering of the code (`Decimal`). `Reports.ErrorTextRoundTrip` proves that
this text can be parsed back into exactly the message and the code.

Files: `wrappers.dfy` (Option), `events.dfy` (Contract, PositionRecord,
ErrorInfo, Event), `decimal.dfy`, `accumulation.dfy`, `reports.dfy`,
`mcp_ibapi_functions.dfy` and `ibapi_functions.dfy`.

Where the code differs from a request-scoped design of this bridge, the model
follows the code:

- There is no table of accumulators keyed by request id. `accountSummary`
  merges rows whatever their `reqId`. `accountSummaryEnd` sets the one
  summary flag for any `reqId`.
- An error with a request id does not complete anything. It only overwrites
  `_error`. Only the codes 1100, 1101 and 1102 set flags: the summary flag
  and the positions flag, never the connected or market-data flag.
- Suppose only a bid arrives before the market-data wait times out. Then
  `get_mid_price` returns the error `"Failed to receive market data"` and the
  bid is dropped (`McpIbapiFunctions.BidOnlyGivesError`). It does not return
  a partial quote.
- The market-data flag is shared by all request ids. A complete bid/ask pair
  on any request raises it, and nothing lowers it.

## Model

| member | source | states |
|---|---|---|
| `Decimal.IntToDecimal` | ibapi_mcp_server/ibapi_functions.py:157 | rendering an `int` the way the f-string does: non-negative values give only digits, negative values give a minus sign followed by digits. The digits denote the value (the magnitude, for a negative value), and there is no leading zero: the text starts with `0` only when it is `"0"`, and a minus sign is never followed by `0` |
| `Decimal.NatToDecimalRoundTrip` | ibapi_mcp_server/ibapi_functions.py:157 | reading the rendered digits back gives the number that was rendered |
| `Accumulation.MergeSummary` | ibapi_mcp_server/ibapi_functions.py:42-47 | `accountSummary`: the account is added if it was missing and no account is removed; the pair (account, tag) then holds the value; only the inner map of a new account is created fresh; every other (account, tag) pair keeps its value |
| `Accumulation.SummaryLastWriteWins` | ibapi_mcp_server/ibapi_functions.py:42-47 | after any run of events, a pair holds the value of the last summary row that named it |
| `Accumulation.SummaryUntouched` | ibapi_mcp_server/ibapi_functions.py:42-47 | a pair that no row names keeps whatever it held before |
| `Accumulation.SummaryAccounts` | ibapi_mcp_server/ibapi_functions.py:45-46 | no account is ever removed, and the only accounts added are those named by rows |
| `Accumulation.PositionsOfAppend` | ibapi_mcp_server/ibapi_functions.py:58-79 | records are appended in delivery order: two batches give the records of the first batch followed by those of the second |
| `Accumulation.PositionsOfRows` | ibapi_mcp_server/ibapi_functions.py:61-79 | for a run of position rows, there is one record per row, in the same order, copying the account, the twelve contract fields, `pos` and `avgCost` |
| `Accumulation.PositionsOfSkips` | ibapi_mcp_server/ibapi_functions.py:58-61 | an event that is not a position row adds no record, wherever it comes |
| `Accumulation.ErrorAfterLatest` | ibapi_mcp_server/ibapi_functions.py:34 | the `_error` slot holds the triple of the last error delivered |
| `Accumulation.ErrorAfterNone` | ibapi_mcp_server/ibapi_functions.py:19 | without error events the slot keeps its earlier content (`None` after `__init__`) |
| `Reports.ErrorText` | ibapi_mcp_server/ibapi_functions.py:157 | the failure text starts with `"Error: "`, ends with `)`, and parses back into exactly the message and the code; the code part is `IntToDecimal` of the code, so the text is the canonical one (identical in ibapi_functions.py:128) |
| `Reports.ErrorTextRoundTrip` | ibapi_mcp_server/ibapi_functions.py:157 | the failure text `"Error: <msg> (Code: <code>)"` parses back into exactly the message and the code |
| `Reports.TimedOutIsNotErrorText` | ibapi_mcp_server/ibapi_functions.py:157 | `"Connection timed out"` does not parse as an error text, so the two kinds of failure stay distinct |
| `Reports.CheckConnectionReply` | ibapi_mcp_server/ibapi_functions.py:149-164 | a successful wait gives `connected: True` with the success message and no error. A failed wait gives `connected: False` with the failure message, and then exactly `ErrorText` of the recorded message and code (which decodes back to both), or `"Connection timed out"` if no error was recorded. Host and port are passed through. The older copy at ibapi_functions.py:120-135 is identical |
| `Reports.PortfolioReply` | ibapi_mcp_server/ibapi_functions.py:289-323 | a failed connect wait gives `({}, [])`; otherwise the accumulated containers as they stand, whatever the summary and positions waits returned (identical in ibapi_functions.py:171-205) |
| `McpIbapiFunctions.TickUpdate` | ibapi_mcp_server/ibapi_functions.py:91-103 | an entry for `reqId` exists afterwards. Type 1 writes only `bid` and type 2 only `ask`; other types change no price. Other requests are unchanged. Once both prices are present, `mid` is their average; until then `mid` keeps its old value |
| `McpIbapiFunctions.TickUpdateKeepsQuotes` | ibapi_mcp_server/ibapi_functions.py:91-103 | well-formed quotes stay well formed (`mid` present exactly when both prices are, and then their average). Some entry is complete afterwards exactly when one was before or this entry now is |
| `McpIbapiFunctions.TickState` | ibapi_mcp_server/ibapi_functions.py:88-104 | one tick keeps the client invariant: the market-data flag is set exactly when some request holds both prices |
| `McpIbapiFunctions.Step` | ibapi_mcp_server/ibapi_functions.py:24-104 | no callback lowers a flag, and each callback preserves the invariant that the market-data flag is set exactly when some request holds both prices. An error stores its triple; it sets the summary and positions flags only for codes 1100 to 1102, and never the connected or market-data flag |
| `McpIbapiFunctions.Fold` | ibapi_mcp_server/ibapi_functions.py:24-104 | over any run of events, flags only rise and the client invariant is kept |
| `McpIbapiFunctions.StepFields` | ibapi_mcp_server/ibapi_functions.py:24-104 | one event changes each field exactly as that field's own handler does |
| `McpIbapiFunctions.FoldFields` | ibapi_mcp_server/ibapi_functions.py:24-104 | after a run of events, each field is: the last-write-wins summary; the old positions followed by the records of the position rows; the latest error; and the per-request quotes. `_connected` is set exactly when it was set before or some `nextValidId` arrived. The summary flag is set exactly when it was set before or an `accountSummaryEnd` or connection-loss error arrived, and likewise the positions flag with `positionEnd` |
| `McpIbapiFunctions.QuotesLatestTick` | ibapi_mcp_server/ibapi_functions.py:96-99 | the bid (or the ask) of a request is the price of the last bid (or ask) tick for that request |
| `McpIbapiFunctions.QuotesUntouched` | ibapi_mcp_server/ibapi_functions.py:91-99 | without a bid (or ask) tick for a request, its bid (or ask) stays as it was |
| `McpIbapiFunctions.QuotePairCompletes` | ibapi_mcp_server/ibapi_functions.py:101-104 | a bid and an ask for a new request, in either order: the first tick does not raise the market-data flag; the second raises it and leaves `mid == (bid + ask) / 2` |
| `McpIbapiFunctions.MidPriceReplyOf` | ibapi_mcp_server/ibapi_functions.py:210-249 | a failed connect wait gives the error `"Connection timed out or failed"`. If the data wait succeeded and request 1001 has an entry, the reply carries that entry's `mid`, `bid` and `ask`, and `mid` is present exactly when both prices are and is their average. Anything else gives `"Failed to receive market data"`. The symbol is always echoed |
| `McpIbapiFunctions.MidPriceAfterTicks` | ibapi_mcp_server/ibapi_functions.py:224-249 | after a run of events containing bid and ask ticks for 1001, the flag is set and the reply carries the last bid, the last ask and their average |
| `McpIbapiFunctions.BidOnlyGivesError` | ibapi_mcp_server/ibapi_functions.py:228-249 | a bid alone leaves the flag unset, so the reply is the market-data error and the bid is not returned |
| `McpIbapiFunctions.NoAskGivesError` | ibapi_mcp_server/ibapi_functions.py:101-104 | for any run of events without an ask tick, the market-data flag stays unset and a connected `get_mid_price` replies with the market-data error, whatever bids arrived |
| `McpIbapiFunctions.PortfolioAfterEvents` | ibapi_mcp_server/ibapi_functions.py:308-323 | after a successful connect wait, `get_portfolio` returns the last-write-wins summary and the records of the position rows from the events, whatever the other waits returned |
| `McpIbapiFunctions.CheckConnectionAfterEvents` | ibapi_mcp_server/ibapi_functions.py:140-164 | after a failed connect wait, the error text decodes to the last error delivered, or is `"Connection timed out"` when no error was delivered |
| `McpIbapiFunctions.IBGatewayClient.constructor` | ibapi_mcp_server/ibapi_functions.py:12-22 | empty containers, no error, all four flags unset |
| `McpIbapiFunctions.IBGatewayClient.NextValidId` | ibapi_mcp_server/ibapi_functions.py:24-28 | sets `_connected`; nothing else changes; a client that satisfied the invariant still does |
| `McpIbapiFunctions.IBGatewayClient.Error` | ibapi_mcp_server/ibapi_functions.py:30-38 | overwrites `_error` with the triple; codes 1100 to 1102 set the summary and positions flags; nothing else changes; a client that satisfied the invariant still does |
| `McpIbapiFunctions.IBGatewayClient.AccountSummary` | ibapi_mcp_server/ibapi_functions.py:42-47 | the summary becomes `MergeSummary` of the old one; nothing else changes; a client that satisfied the invariant still does |
| `McpIbapiFunctions.IBGatewayClient.AccountSummaryEnd` | ibapi_mcp_server/ibapi_functions.py:50-54 | sets the summary flag; nothing else changes; a client that satisfied the invariant still does |
| `McpIbapiFunctions.IBGatewayClient.Position` | ibapi_mcp_server/ibapi_functions.py:58-79 | appends exactly one record copying account, contract, `pos` and `avgCost`; nothing else changes; a client that satisfied the invariant still does |
| `McpIbapiFunctions.IBGatewayClient.PositionEnd` | ibapi_mcp_server/ibapi_functions.py:82-86 | sets the positions flag; nothing else changes; a client that satisfied the invariant still does |
| `McpIbapiFunctions.IBGatewayClient.TickPrice` | ibapi_mcp_server/ibapi_functions.py:88-104 | the fields become `TickState` of the old ones: market data becomes `TickUpdate` of the old map, and the market-data flag rises if the entry is now complete; nothing else changes; a client that satisfied the invariant still does |
| `McpIbapiFunctions.IBGatewayClient.Apply` | ibapi_mcp_server/ibapi_functions.py:24-104 | dispatching one event leaves the state at `Step` of the old state |
| `McpIbapiFunctions.IBGatewayClient.Run` | ibapi_mcp_server/ibapi_functions.py:136-137 | the reader loop delivering events in order leaves the state at `Fold` of the old state over them; a client that satisfied the invariant still does |
| `IbapiFunctions.Step` | ibapi_functions.py:20-82 | no callback lowers a flag. A price tick changes nothing, because the class has no `tickPrice`. An error stores its triple and sets the two done flags only for codes 1100 to 1102 |
| `IbapiFunctions.Fold` | ibapi_functions.py:20-82 | the older client's fields after the reader loop delivered a run of events; no flag is lowered over the run |
| `IbapiFunctions.StepAsNewer` | ibapi_functions.py:20-82 | each callback of the older class does what the newer class's does to the fields they share |
| `IbapiFunctions.FoldAsNewer` | ibapi_functions.py:20-82 | over any run of events, the older client's state is the newer client's state with the market data dropped |
| `IbapiFunctions.FoldFields` | ibapi_functions.py:20-82 | after a run of events: the last-write-wins summary, old positions followed by the row records, the latest error, and each flag set exactly when it was before or an event that sets it arrived |
| `IbapiFunctions.PortfolioAfterEvents` | ibapi_functions.py:171-205 | `get_portfolio` returns `({}, [])` after a failed connect wait. Otherwise it returns the summary and position records accumulated from the events, whatever the other waits returned; the result is always a (dict, list) pair |
| `IbapiFunctions.CheckConnectionAfterEvents` | ibapi_functions.py:111-135 | after a failed connect wait, the error text decodes to the last error delivered, or is `"Connection timed out"` |
| `IbapiFunctions.IBGatewayClient.constructor` | ibapi_functions.py:11-18 | empty containers, no error, all three flags unset |
| `IbapiFunctions.IBGatewayClient.NextValidId` | ibapi_functions.py:20-24 | sets `_connected`; nothing else changes |
| `IbapiFunctions.IBGatewayClient.Error` | ibapi_functions.py:26-34 | overwrites `_error`; codes 1100 to 1102 set both done flags; nothing else changes |
| `IbapiFunctions.IBGatewayClient.AccountSummary` | ibapi_functions.py:38-43 | the summary becomes `MergeSummary` of the old one; nothing else changes |
| `IbapiFunctions.IBGatewayClient.AccountSummaryEnd` | ibapi_functions.py:46-50 | sets `_account_summary_done`; nothing else changes |
| `IbapiFunctions.IBGatewayClient.Position` | ibapi_functions.py:54-75 | appends exactly one record with the fields copied verbatim; nothing else changes |
| `IbapiFunctions.IBGatewayClient.PositionEnd` | ibapi_functions.py:78-82 | sets `_positions_done`; nothing else changes |
| `IbapiFunctions.IBGatewayClient.Apply` | ibapi_functions.py:20-82 | dispatching one event leaves the state at `Step` of the old state; a price tick is a no-op |
| `IbapiFunctions.IBGatewayClient.Run` | ibapi_functions.py:106-108 | the reader loop delivering events in order leaves the state at `Fold` of the old state over them |

## Left out

- Threads, `Event.wait(timeout=…)`, `join` and wall-clock time. Each wait is a boolean input of the result functions, and the reader loop is modelled as one sequential `Run`. Races between a timed-out wait and later callbacks are not modelled.
- The vendor `ibapi` library: `EClient.connect`, `run`, `disconnect`, `reqAccountSummary`, `reqPositions`, `reqMktData`, `cancelMktData` and the `super()` callbacks into `EWrapper`. Outgoing requests are not modelled.
- The older `get_portfolio` calls `reqPositions(positions_req_id)` (ibapi_functions.py:182-183), while the newer copy calls it with no argument. Whether the vendor method accepts that argument is outside the model, which assumes the call returns.
- The vendor `Contract` has more attributes than the twelve a position record copies. The model's `Contract` holds only those twelve, so it does not show that the others are dropped.
- Prices, `pos` and `avgCost` are `real`. IEEE float rounding of `(bid + ask) / 2` and the vendor's `Decimal` position size are not modelled.
- The `attrib` argument of `tickPrice` is dropped: neither the `TickPrice` event nor the `TickPrice` method has it, because the handler never reads it.
- The optional `advancedOrderDetails` argument of `error` (ibapi_mcp_server/ibapi_functions.py:30, ibapi_functions.py:26) is dropped: the handler never reads it.
- The `currency` and `reqId` of `accountSummary` and the `orderId` of `nextValidId` are carried by the events. The handlers ignore them, as the source does.
- The insertion order of the `account_summary` dictionaries, which a caller sees when iterating over them (test_ib_gateaway.py:14-16), is not modelled: a Dafny `map` has no order. The model gives the keys and the values only.
- `os.getenv` fallbacks for host, port and client id, and every `print`, are environment and console I/O.
- The `except Exception` branches of `check_gateway_connection` and `get_mid_price`: they only re-wrap exceptions raised by foreign calls.
- `server.py`, `ib_client.py`, `config.py` and the two test scripts: HTTP forwarding, JWT handling, constants, and scripts that need a live gateway.
- `Reports.PortfolioReply`: the (dict, list) shape the integration test asserts is given by the result type rather than stated in an `ensures`.
