/**
 * The request-independent tails of `check_gateway_connection` and
 * `get_portfolio`, identical in both copies of the functions: what they return
 * given the outcome of each wait (a boolean: the event was set before its
 * timeout) and the client's accumulated state.
 */
module Reports {

  import opened Wrappers
  import opened Events
  import opened Decimal

  const ErrorPrefix: string := "Error: "
  const CodeOpen: string := " (Code: "
  const TimedOutText: string := "Connection timed out"
  const ConnectedMessage: string := "Successfully connected to IB Gateway/TWS"
  const FailedMessage: string := "Failed to connect to IB Gateway/TWS"

  /**
   * The failure text: the prefix, the message, then the code in parentheses,
   * written as `IntToDecimal` writes it. It can be read back.
   */
  function ErrorText(msg: string, code: int): (r: string)
    ensures |r| > |ErrorPrefix| && r[..|ErrorPrefix|] == ErrorPrefix && r[|r| - 1] == ')'
    ensures ParseErrorText(r) == Some((msg, code))
  {
    var r := ErrorPrefix + CodedText(msg, code) + ")";
    assert r[..|ErrorPrefix|] == ErrorPrefix;
    ErrorTextRoundTrip(msg, code);
    r
  }

  /** The part of the error text between the prefix and the closing parenthesis. */
  function CodedText(msg: string, code: int): string
  {
    msg + CodeOpen + IntToDecimal(code)
  }

  /**
   * Regrouping a concatenation. Dafny knows this, but stating it as a lemma
   * and calling it where needed keeps the solver from searching for it.
   */
  lemma Associative(a: string, b: string, c: string)
    ensures (a + b) + c == a + (b + c)
  {
  }

  /** Splits `s` into what precedes its trailing run of digits, and that run. */
  function SplitDigits(s: string): (r: (string, string))
    ensures AllDigits(r.1)
  {
    if s == [] || !IsDigit(s[|s| - 1]) then (s, [])
    else
      var split := SplitDigits(s[..|s| - 1]);
      var d := split.1 + [s[|s| - 1]];
      assert d[..|d| - 1] == split.1;
      (split.0, d)
  }

  /**
   * Reads an error text back into its message and code, from the right: the
   * closing parenthesis, the digits, an optional minus sign, " (Code: ".
   */
  function ParseErrorText(s: string): Option<(string, int)>
  {
    if |s| < |ErrorPrefix| + 1 || s[..|ErrorPrefix|] != ErrorPrefix || s[|s| - 1] != ')' then None
    else
      var c := ReadCode(s[|ErrorPrefix|..|s| - 1]);
      if c.None? then None else SplitCodeOpen(c.value.0, c.value.1)
  }

  /** Splits off the integer at the end of `body`: its digits and an optional minus sign. */
  function ReadCode(body: string): Option<(string, int)>
  {
    var split := SplitDigits(body);
    var rest, digits := split.0, split.1;
    if digits == [] then None
    else
      var magnitude: int := DecimalValue(digits);
      if rest != [] && rest[|rest| - 1] == '-' then Some((rest[..|rest| - 1], -magnitude))
      else Some((rest, magnitude))
  }

  /** Removes " (Code: " from the end of the message part. */
  function SplitCodeOpen(head: string, code: int): Option<(string, int)>
  {
    if |head| >= |CodeOpen| && head[|head| - |CodeOpen|..] == CodeOpen then Some((head[..|head| - |CodeOpen|], code))
    else None
  }

  lemma {:induction false} SplitDigitsOf(x: string, y: string)
    requires AllDigits(y)
    requires x == [] || !IsDigit(x[|x| - 1])
    ensures SplitDigits(x + y) == (x, y)
  {
    if y == [] {
      assert x + y == x;
    } else {
      var init := y[..|y| - 1];
      assert (x + y)[..|x + y| - 1] == x + init;
      SplitDigitsOf(x, init);
      assert init + [y[|y| - 1]] == y;
    }
  }

  lemma SplitCodeOpenOf(msg: string, code: int)
    ensures SplitCodeOpen(msg + CodeOpen, code) == Some((msg, code))
  {
    var head := msg + CodeOpen;
    assert head[|head| - |CodeOpen|..] == CodeOpen;
    assert head[..|head| - |CodeOpen|] == msg;
  }

  /** Reading `head + digits`, when `head` ends in neither a digit nor a minus sign. */
  lemma ReadCodeNonNegative(body: string, head: string, digits: string, code: int)
    requires AllDigits(digits) && digits != [] && body == head + digits
    requires head != [] && !IsDigit(head[|head| - 1]) && head[|head| - 1] != '-'
    requires code == DecimalValue(digits)
    ensures ReadCode(body) == Some((head, code))
  {
    SplitDigitsOf(head, digits);
  }

  /** Reading `head + "-" + digits`. */
  lemma ReadCodeNegative(body: string, head: string, digits: string, code: int)
    requires AllDigits(digits) && digits != [] && body == (head + "-") + digits
    requires code == -(DecimalValue(digits) as int)
    ensures ReadCode(body) == Some((head, code))
  {
    var x := head + "-";
    SplitDigitsOf(x, digits);
    assert x[..|x| - 1] == head;
  }

  /** Reading back the part after the prefix gives the message followed by " (Code: ", and the code. */
  lemma ReadCodeOf(msg: string, code: int)
    ensures ReadCode(CodedText(msg, code)) == Some((msg + CodeOpen, code))
  {
    var head := msg + CodeOpen;
    assert head[|head| - 1] == ' ';
    if code < 0 {
      ReadNegativeCodeOf(msg, head, code);
    } else {
      ReadNonNegativeCodeOf(msg, head, code);
    }
  }

  lemma ReadNegativeCodeOf(msg: string, head: string, code: int)
    requires code < 0 && head == msg + CodeOpen
    ensures ReadCode(CodedText(msg, code)) == Some((head, code))
  {
    NegativeCodedText(msg, head, code);
    ReadCodeNegative(CodedText(msg, code), head, NatToDecimal(-code), code);
  }

  lemma ReadNonNegativeCodeOf(msg: string, head: string, code: int)
    requires code >= 0 && head == msg + CodeOpen && head[|head| - 1] == ' '
    ensures ReadCode(CodedText(msg, code)) == Some((head, code))
  {
    NonNegativeCodedText(msg, head, code);
    ReadCodeNonNegative(CodedText(msg, code), head, NatToDecimal(code), code);
  }

  /** A negative code is written as a minus sign and the digits of its magnitude. */
  lemma NegativeCodedText(msg: string, head: string, code: int)
    requires code < 0 && head == msg + CodeOpen
    ensures CodedText(msg, code) == (head + "-") + NatToDecimal(-code)
    ensures DecimalValue(NatToDecimal(-code)) == -code
  {
    var magnitude: nat := -code;
    var digits := NatToDecimal(magnitude);
    assert IntToDecimal(code) == "-" + digits;
    Associative(head, "-", digits);
    NatToDecimalRoundTrip(magnitude);
  }

  /** A non-negative code is written as its digits. */
  lemma NonNegativeCodedText(msg: string, head: string, code: int)
    requires code >= 0 && head == msg + CodeOpen
    ensures CodedText(msg, code) == head + NatToDecimal(code)
    ensures DecimalValue(NatToDecimal(code)) == code
  {
    NatToDecimalRoundTrip(code);
  }

  /** The frame around the coded part: ParseErrorText looks inside it. */
  lemma ParseFramed(body: string)
    ensures var c := ReadCode(body);
      ParseErrorText(ErrorPrefix + body + ")") == if c.None? then None else SplitCodeOpen(c.value.0, c.value.1)
  {
    var s := ErrorPrefix + body + ")";
    assert |s| == |ErrorPrefix| + |body| + 1;
    assert s[..|ErrorPrefix|] == ErrorPrefix;
    assert s[|s| - 1] == ')';
    assert s[|ErrorPrefix|..|s| - 1] == body;
  }

  /** The error text loses neither the message nor the code. */
  lemma ErrorTextRoundTrip(msg: string, code: int)
    ensures ParseErrorText(ErrorPrefix + CodedText(msg, code) + ")") == Some((msg, code))
  {
    ParseFramed(CodedText(msg, code));
    ReadCodeOf(msg, code);
    SplitCodeOpenOf(msg, code);
  }

  /** The timeout text is not an error text, so the two failures stay apart. */
  lemma TimedOutIsNotErrorText()
    ensures ParseErrorText(TimedOutText) == None
  {
    assert TimedOutText[..|ErrorPrefix|] != ErrorPrefix by {
      assert TimedOutText[0] != ErrorPrefix[0];
    }
  }

  /** The dictionary `check_gateway_connection` returns; `error` is present only on failure. */
  datatype ConnectionReport = ConnectionReport(
    connected: bool, message: string, error: Option<string>, host: string, port: int)

  /**
   * `check_gateway_connection` once the connect wait has an outcome and the
   * error slot has been read.
   */
  function CheckConnectionReply(connectionSuccessful: bool, errorInfo: Option<ErrorInfo>, host: string, port: int): (r: ConnectionReport)
    ensures r.connected == connectionSuccessful && r.host == host && r.port == port
    ensures r.message == if connectionSuccessful then ConnectedMessage else FailedMessage
    ensures r.error.None? <==> connectionSuccessful
    ensures !connectionSuccessful && errorInfo.Some? ==>
      r.error == Some(ErrorText(errorInfo.value.msg, errorInfo.value.code)) &&
      ParseErrorText(r.error.value) == Some((errorInfo.value.msg, errorInfo.value.code))
    ensures !connectionSuccessful && errorInfo.None? ==> r.error == Some(TimedOutText)
  {
    if connectionSuccessful then
      ConnectionReport(true, ConnectedMessage, None, host, port)
    else
      var errorMsg :=
        if errorInfo.Some? then ErrorText(errorInfo.value.msg, errorInfo.value.code)
        else TimedOutText;
      ConnectionReport(false, FailedMessage, Some(errorMsg), host, port)
  }

  /**
   * `get_portfolio` once the waits have outcomes: empty containers when the
   * connect wait failed, otherwise the containers as accumulated, whether or
   * not the summary and positions waits timed out.
   */
  function PortfolioReply(
    connected: bool, summaryDone: bool, positionsDone: bool,
    summary: map<string, map<string, string>>, positions: seq<PositionRecord>
  ): (r: (map<string, map<string, string>>, seq<PositionRecord>))
    ensures !connected ==> r.0 == map[] && r.1 == []
    ensures connected ==> r.0 == summary && r.1 == positions
  {
    if !connected then (map[], []) else (summary, positions)
  }
}
