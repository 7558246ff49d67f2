/**
 * What the `IBGatewayClient` callbacks do to the accumulated data, shared by
 * both copies of the class: the account-summary merge, the position record,
 * the error slot and the completion flags, each first for one event and then
 * folded over a sequence of events delivered in order by the reader loop.
 */
module Accumulation {

  import opened Wrappers
  import opened Events

  /** `account_summary`: account -> (tag -> value). */
  type Summary = map<string, map<string, string>>

  /** The value stored for `(account, tag)`, if any. */
  function Lookup(m: Summary, account: string, tag: string): Option<string>
  {
    if account in m && tag in m[account] then Some(m[account][tag]) else None
  }

  /**
   * `accountSummary`: create the inner map for a new account, then store the
   * value under the tag, overwriting an earlier value for the same pair.
   */
  function MergeSummary(m: Summary, account: string, tag: string, value: string): (r: Summary)
    ensures r.Keys == m.Keys + {account}
    ensures Lookup(r, account, tag) == Some(value)
    ensures account in m ==> r[account].Keys == m[account].Keys + {tag}
    ensures account !in m ==> r[account].Keys == {tag}
    ensures forall a, t :: a != account || t != tag ==> Lookup(r, a, t) == Lookup(m, a, t)
  {
    var inner := if account in m then m[account] else map[];
    m[account := inner[tag := value]]
  }

  /** The three error codes the client treats as a lost connection. */
  predicate IsConnectionLoss(code: int) {
    code == 1100 || code == 1101 || code == 1102
  }

  /** A summary row for the pair `(account, tag)`. */
  predicate IsRowFor(e: Event, account: string, tag: string) {
    e.AccountSummary? && e.account == account && e.tag == tag
  }

  function SummaryStep(m: Summary, e: Event): Summary
  {
    if e.AccountSummary? then MergeSummary(m, e.account, e.tag, e.value) else m
  }

  /** The summary after the events were delivered, in order, starting from `m`. */
  function SummaryAfter(m: Summary, evs: seq<Event>): Summary
  {
    if evs == [] then m else SummaryStep(SummaryAfter(m, evs[..|evs| - 1]), evs[|evs| - 1])
  }

  /** The accounts that some summary row names. */
  function AccountsOf(evs: seq<Event>): set<string>
  {
    set i | 0 <= i < |evs| && evs[i].AccountSummary? :: evs[i].account
  }

  /** Last write wins: the value for a pair is the one from the last row for that pair. */
  lemma {:induction false} SummaryLastWriteWins(m: Summary, evs: seq<Event>, account: string, tag: string, i: nat)
    requires i < |evs| && IsRowFor(evs[i], account, tag)
    requires forall j :: i < j < |evs| ==> !IsRowFor(evs[j], account, tag)
    ensures Lookup(SummaryAfter(m, evs), account, tag) == Some(evs[i].value)
  {
    var init := evs[..|evs| - 1];
    if i < |evs| - 1 {
      SummaryLastWriteWins(m, init, account, tag, i);
    }
  }

  /** A pair that no row names keeps whatever it held before. */
  lemma {:induction false} SummaryUntouched(m: Summary, evs: seq<Event>, account: string, tag: string)
    requires forall j :: 0 <= j < |evs| ==> !IsRowFor(evs[j], account, tag)
    ensures Lookup(SummaryAfter(m, evs), account, tag) == Lookup(m, account, tag)
  {
    if evs != [] {
      SummaryUntouched(m, evs[..|evs| - 1], account, tag);
    }
  }

  /** No account is ever removed, and exactly the accounts named by rows are added. */
  lemma {:induction false} SummaryAccounts(m: Summary, evs: seq<Event>)
    ensures SummaryAfter(m, evs).Keys == m.Keys + AccountsOf(evs)
  {
    if evs != [] {
      var init, last := evs[..|evs| - 1], evs[|evs| - 1];
      SummaryAccounts(m, init);
      assert AccountsOf(evs) == AccountsOf(init) + (if last.AccountSummary? then {last.account} else {}) by {
        forall x | x in AccountsOf(evs) ensures x in AccountsOf(init) || (last.AccountSummary? && x == last.account) {
          var i :| 0 <= i < |evs| && evs[i].AccountSummary? && evs[i].account == x;
          if i < |evs| - 1 {
            assert init[i] == evs[i];
          }
        }
        forall x | x in AccountsOf(init) ensures x in AccountsOf(evs) {
          var i :| 0 <= i < |init| && init[i].AccountSummary? && init[i].account == x;
          assert evs[i] == init[i];
        }
      }
    }
  }

  /** The record `position` appends for a position row. */
  function RecordOf(e: Event): PositionRecord
    requires e.Position?
  {
    PositionRecord(e.account, e.contract, e.pos, e.avgCost)
  }

  /** The records appended for the position rows among the events, in delivery order. */
  function PositionsOf(evs: seq<Event>): seq<PositionRecord>
  {
    if evs == [] then []
    else
      var last := evs[|evs| - 1];
      PositionsOf(evs[..|evs| - 1]) + (if last.Position? then [RecordOf(last)] else [])
  }

  /** Delivering two batches one after the other appends their records one after the other. */
  lemma {:induction false} PositionsOfAppend(a: seq<Event>, b: seq<Event>)
    ensures PositionsOf(a + b) == PositionsOf(a) + PositionsOf(b)
  {
    if b == [] {
      assert a + b == a;
    } else {
      var init := b[..|b| - 1];
      PositionsOfAppend(a, init);
      assert (a + b)[..|a + b| - 1] == a + init;
    }
  }

  /** Rows only: one record per row, in the same order, copying every field. */
  lemma {:induction false} PositionsOfRows(evs: seq<Event>)
    requires forall k :: 0 <= k < |evs| ==> evs[k].Position?
    ensures |PositionsOf(evs)| == |evs|
    ensures forall k :: 0 <= k < |evs| ==> PositionsOf(evs)[k] == RecordOf(evs[k])
  {
    if evs != [] {
      PositionsOfRows(evs[..|evs| - 1]);
    }
  }

  /** An event that is not a position row appends nothing, wherever it comes. */
  lemma PositionsOfSkips(a: seq<Event>, e: Event, b: seq<Event>)
    requires !e.Position?
    ensures PositionsOf(a + [e] + b) == PositionsOf(a + b)
  {
    PositionsOfAppend(a + [e], b);
    PositionsOfAppend(a, [e]);
    PositionsOfAppend(a, b);
    assert [e][..0] == [];
  }

  /** The `_error` slot after the events: the triple of the last error delivered. */
  function ErrorAfter(err: Option<ErrorInfo>, evs: seq<Event>): Option<ErrorInfo>
  {
    if evs == [] then err
    else
      var last := evs[|evs| - 1];
      if last.Error? then Some(ErrorInfo(last.reqId, last.code, last.msg))
      else ErrorAfter(err, evs[..|evs| - 1])
  }

  /** The slot holds the latest error: the one at index `i` when no error follows it. */
  lemma {:induction false} ErrorAfterLatest(err: Option<ErrorInfo>, evs: seq<Event>, i: nat)
    requires i < |evs| && evs[i].Error?
    requires forall j :: i < j < |evs| ==> !evs[j].Error?
    ensures ErrorAfter(err, evs) == Some(ErrorInfo(evs[i].reqId, evs[i].code, evs[i].msg))
  {
    if i < |evs| - 1 {
      ErrorAfterLatest(err, evs[..|evs| - 1], i);
    }
  }

  /** Without error events the slot keeps its earlier content. */
  lemma {:induction false} ErrorAfterNone(err: Option<ErrorInfo>, evs: seq<Event>)
    requires forall j :: 0 <= j < |evs| ==> !evs[j].Error?
    ensures ErrorAfter(err, evs) == err
  {
    if evs != [] {
      ErrorAfterNone(err, evs[..|evs| - 1]);
    }
  }

  /** An event that sets `_account_summary_done`. */
  predicate EndsSummary(e: Event) {
    e.AccountSummaryEnd? || (e.Error? && IsConnectionLoss(e.code))
  }

  /** An event that sets `_positions_done`. */
  predicate EndsPositions(e: Event) {
    e.PositionEnd? || (e.Error? && IsConnectionLoss(e.code))
  }

  predicate Connects(evs: seq<Event>) {
    exists i :: 0 <= i < |evs| && evs[i].NextValidId?
  }

  predicate SummaryEnded(evs: seq<Event>) {
    exists i :: 0 <= i < |evs| && EndsSummary(evs[i])
  }

  predicate PositionsEnded(evs: seq<Event>) {
    exists i :: 0 <= i < |evs| && EndsPositions(evs[i])
  }

  /** Splitting off the last event of a nonempty sequence, for the three flag predicates. */
  lemma FlagsSplitLast(evs: seq<Event>)
    requires evs != []
    ensures Connects(evs) == (Connects(evs[..|evs| - 1]) || evs[|evs| - 1].NextValidId?)
    ensures SummaryEnded(evs) == (SummaryEnded(evs[..|evs| - 1]) || EndsSummary(evs[|evs| - 1]))
    ensures PositionsEnded(evs) == (PositionsEnded(evs[..|evs| - 1]) || EndsPositions(evs[|evs| - 1]))
  {
    var init := evs[..|evs| - 1];
    if Connects(evs) && !evs[|evs| - 1].NextValidId? {
      var i :| 0 <= i < |evs| && evs[i].NextValidId?;
      assert init[i] == evs[i];
    }
    if SummaryEnded(evs) && !EndsSummary(evs[|evs| - 1]) {
      var i :| 0 <= i < |evs| && EndsSummary(evs[i]);
      assert init[i] == evs[i];
    }
    if PositionsEnded(evs) && !EndsPositions(evs[|evs| - 1]) {
      var i :| 0 <= i < |evs| && EndsPositions(evs[i]);
      assert init[i] == evs[i];
    }
    if Connects(init) {
      var i :| 0 <= i < |init| && init[i].NextValidId?;
      assert evs[i] == init[i];
    }
    if SummaryEnded(init) {
      var i :| 0 <= i < |init| && EndsSummary(init[i]);
      assert evs[i] == init[i];
    }
    if PositionsEnded(init) {
      var i :| 0 <= i < |init| && EndsPositions(init[i]);
      assert evs[i] == init[i];
    }
  }
}
