/**
 * `ibapi_functions.py`: the earlier `IBGatewayClient` without market data,
 * and the result tails of its `check_gateway_connection` and `get_portfolio`.
 */
module IbapiFunctions {

  import opened Wrappers
  import opened Events
  import opened Accumulation
  import opened Reports
  import Newer = McpIbapiFunctions

  /** The fields of the earlier `IBGatewayClient` as one value. */
  datatype ClientState = ClientState(
    accountSummary: Summary,
    positions: seq<PositionRecord>,
    accountSummaryDone: bool,
    positionsDone: bool,
    connected: bool,
    error: Option<ErrorInfo>)

  /** What `__init__` sets up: empty containers, no error, every flag unset. */
  const InitialState: ClientState := ClientState(map[], [], false, false, false, None)

  /** The earlier client's fields inside the market-data client's. */
  function Project(s: Newer.ClientState): ClientState
  {
    ClientState(s.accountSummary, s.positions, s.accountSummaryDone, s.positionsDone, s.connected, s.error)
  }

  /** The market-data client's state with these fields and no market data. */
  function Widen(t: ClientState): (s: Newer.ClientState)
    ensures Project(s) == t && Newer.Inv(s)
  {
    Newer.ClientState(t.accountSummary, t.positions, t.accountSummaryDone, t.positionsDone, t.connected, t.error, map[], false)
  }

  /**
   * What one callback does to the fields. The class overrides no `tickPrice`,
   * so a price tick reaches the vendor's default handler and changes nothing.
   */
  function Step(s: ClientState, e: Event): (r: ClientState)
    ensures (s.connected ==> r.connected) && (s.accountSummaryDone ==> r.accountSummaryDone) &&
            (s.positionsDone ==> r.positionsDone)
    ensures e.TickPrice? ==> r == s
    ensures e.Error? ==>
      r.error == Some(ErrorInfo(e.reqId, e.code, e.msg)) && r.connected == s.connected &&
      r.accountSummaryDone == (s.accountSummaryDone || IsConnectionLoss(e.code)) &&
      r.positionsDone == (s.positionsDone || IsConnectionLoss(e.code))
  {
    match e
    case NextValidId(_) => s.(connected := true)
    case Error(reqId, code, msg) =>
      s.(error := Some(ErrorInfo(reqId, code, msg)),
         accountSummaryDone := s.accountSummaryDone || IsConnectionLoss(code),
         positionsDone := s.positionsDone || IsConnectionLoss(code))
    case AccountSummary(_, account, tag, value, _) =>
      s.(accountSummary := MergeSummary(s.accountSummary, account, tag, value))
    case AccountSummaryEnd(_) => s.(accountSummaryDone := true)
    case Position(account, contract, pos, avgCost) =>
      s.(positions := s.positions + [PositionRecord(account, contract, pos, avgCost)])
    case PositionEnd => s.(positionsDone := true)
    case TickPrice(_, _, _) => s
  }

  /** The fields after the reader loop delivered `evs` in order, starting from `s`. */
  function Fold(s: ClientState, evs: seq<Event>): (r: ClientState)
    ensures (s.connected ==> r.connected) && (s.accountSummaryDone ==> r.accountSummaryDone) &&
      (s.positionsDone ==> r.positionsDone)
  {
    if evs == [] then s else Step(Fold(s, evs[..|evs| - 1]), evs[|evs| - 1])
  }

  /** One callback of the earlier client does what the market-data client's does, outside the market data. */
  lemma StepAsNewer(s: Newer.ClientState, e: Event)
    ensures Step(Project(s), e) == Project(Newer.Step(s, e))
  {
    match e
    case TickPrice(_, _, _) =>
    case _ =>
  }

  /** The earlier client is the market-data client with its market data dropped. */
  lemma {:induction false} FoldAsNewer(s: Newer.ClientState, evs: seq<Event>)
    ensures Fold(Project(s), evs) == Project(Newer.Fold(s, evs))
  {
    if evs != [] {
      FoldAsNewer(s, evs[..|evs| - 1]);
      StepAsNewer(Newer.Fold(s, evs[..|evs| - 1]), evs[|evs| - 1]);
    }
  }

  /** Each field after a run of events is the fold of that field's own handler over the events. */
  lemma FoldFields(t: ClientState, evs: seq<Event>)
    ensures Fold(t, evs).accountSummary == SummaryAfter(t.accountSummary, evs)
    ensures Fold(t, evs).positions == t.positions + PositionsOf(evs)
    ensures Fold(t, evs).error == ErrorAfter(t.error, evs)
    ensures Fold(t, evs).connected == (t.connected || Connects(evs))
    ensures Fold(t, evs).accountSummaryDone == (t.accountSummaryDone || SummaryEnded(evs))
    ensures Fold(t, evs).positionsDone == (t.positionsDone || PositionsEnded(evs))
  {
    FoldAsNewer(Widen(t), evs);
    Newer.FoldFields(Widen(t), evs);
  }

  /**
   * `get_portfolio` after a successful connect wait returns the summary and
   * positions accumulated from the events, whatever the other two waits did;
   * after a failed one, an empty dictionary and an empty list.
   */
  lemma PortfolioAfterEvents(evs: seq<Event>, connected: bool, summaryDone: bool, positionsDone: bool)
    ensures
      var s := Fold(InitialState, evs);
      PortfolioReply(connected, summaryDone, positionsDone, s.accountSummary, s.positions) ==
        if connected then (SummaryAfter(map[], evs), PositionsOf(evs)) else (map[], [])
  {
    FoldFields(InitialState, evs);
    assert InitialState.positions + PositionsOf(evs) == PositionsOf(evs);
  }

  /**
   * `check_gateway_connection` after a failed connect wait: the error text
   * carries the message and code of the last error delivered, or is the
   * timeout text when no error was delivered.
   */
  lemma CheckConnectionAfterEvents(evs: seq<Event>, host: string, port: int)
    ensures
      var r := CheckConnectionReply(false, Fold(InitialState, evs).error, host, port);
      !r.connected && r.error.Some? &&
      ((forall k :: 0 <= k < |evs| ==> !evs[k].Error?) ==> r.error == Some(TimedOutText)) &&
      (forall i :: 0 <= i < |evs| && evs[i].Error? && (forall k :: i < k < |evs| ==> !evs[k].Error?) ==>
         ParseErrorText(r.error.value) == Some((evs[i].msg, evs[i].code)))
  {
    FoldFields(InitialState, evs);
    if forall k :: 0 <= k < |evs| ==> !evs[k].Error? {
      ErrorAfterNone(None, evs);
    }
    forall i | 0 <= i < |evs| && evs[i].Error? && (forall k :: i < k < |evs| ==> !evs[k].Error?)
      ensures ParseErrorText(CheckConnectionReply(false, Fold(InitialState, evs).error, host, port).error.value) == Some((evs[i].msg, evs[i].code))
    {
      ErrorAfterLatest(None, evs, i);
    }
  }

  /** The callback side of the earlier `IBGatewayClient`. */
  class IBGatewayClient {
    var accountSummary: Summary
    var positions: seq<PositionRecord>
    var accountSummaryDone: bool
    var positionsDone: bool
    var connected: bool
    var error: Option<ErrorInfo>

    function State(): ClientState
      reads this
    {
      ClientState(accountSummary, positions, accountSummaryDone, positionsDone, connected, error)
    }

    constructor ()
      ensures State() == InitialState
    {
      accountSummary := map[];
      positions := [];
      accountSummaryDone := false;
      positionsDone := false;
      connected := false;
      error := None;
    }

    method NextValidId(orderId: int)
      modifies this
      ensures State() == old(State()).(connected := true)
    {
      connected := true;
    }

    method Error(reqId: int, errorCode: int, errorString: string)
      modifies this
      ensures State() == old(State()).(
        error := Some(ErrorInfo(reqId, errorCode, errorString)),
        accountSummaryDone := old(accountSummaryDone) || IsConnectionLoss(errorCode),
        positionsDone := old(positionsDone) || IsConnectionLoss(errorCode))
    {
      error := Some(ErrorInfo(reqId, errorCode, errorString));
      if errorCode == 1100 || errorCode == 1101 || errorCode == 1102 {
        accountSummaryDone := true;
        positionsDone := true;
      }
    }

    method AccountSummary(reqId: int, account: string, tag: string, value: string, currency: string)
      modifies this
      ensures State() == old(State()).(accountSummary := MergeSummary(old(accountSummary), account, tag, value))
    {
      ghost var inner := if account in accountSummary then accountSummary[account] else map[];
      if account !in accountSummary {
        accountSummary := accountSummary[account := map[]];
      }
      assert accountSummary[account] == inner;
      accountSummary := accountSummary[account := accountSummary[account][tag := value]];
      assert accountSummary == old(accountSummary)[account := inner[tag := value]];
    }

    method AccountSummaryEnd(reqId: int)
      modifies this
      ensures State() == old(State()).(accountSummaryDone := true)
    {
      accountSummaryDone := true;
    }

    method Position(account: string, contract: Contract, pos: real, avgCost: real)
      modifies this
      ensures State() == old(State()).(positions := old(positions) + [PositionRecord(account, contract, pos, avgCost)])
    {
      positions := positions + [PositionRecord(account, contract, pos, avgCost)];
    }

    method PositionEnd()
      modifies this
      ensures State() == old(State()).(positionsDone := true)
    {
      positionsDone := true;
    }

    /** The reader loop's dispatch of one event; a price tick hits the vendor's no-op default. */
    method Apply(e: Event)
      modifies this
      ensures State() == Step(old(State()), e)
    {
      match e
      case NextValidId(orderId) => this.NextValidId(orderId);
      case Error(reqId, code, msg) => this.Error(reqId, code, msg);
      case AccountSummary(reqId, account, tag, value, currency) => this.AccountSummary(reqId, account, tag, value, currency);
      case AccountSummaryEnd(reqId) => this.AccountSummaryEnd(reqId);
      case Position(account, contract, pos, avgCost) => this.Position(account, contract, pos, avgCost);
      case PositionEnd => this.PositionEnd();
      case TickPrice(_, _, _) =>
    }

    /** The reader loop: deliver the events one at a time, in order. */
    method Run(events: seq<Event>)
      modifies this
      ensures State() == Fold(old(State()), events)
    {
      var i := 0;
      while i < |events|
        invariant 0 <= i <= |events|
        invariant State() == Fold(old(State()), events[..i])
      {
        assert events[..i + 1][..i] == events[..i];
        Apply(events[i]);
        i := i + 1;
      }
      assert events[..i] == events;
    }
  }
}
