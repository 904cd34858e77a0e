/**
 * The execution-report handler of the private stream
 * (`BybitExecutionHandler` in src/exchanges/bybit/websockets/handlers/execution.py): for each
 * execution of the configured symbol it schedules a FILL event for a trade and a REJECTION
 * event for a rejection, and ignores every other execution.
 */
module Execution {
  import opened Maybe
  import opened Events

  /** One execution record of the stream; `rejectReason` is `None` when the key is absent. */
  datatype Execution = Execution(
    symbol: string,
    orderId: string,
    execType: string,
    side: string,
    execPrice: string,
    execQty: string,
    rejectReason: Option<string>)

  /** The reason a rejection is logged with when the record carries none. */
  const UnknownReason: string := "Unknown"

  /** The event one execution produces, if any. */
  function ExecutionEvent(symbol: string, x: Execution): (e: Option<Event>)
    ensures x.symbol != symbol ==> e == None
    ensures x.symbol == symbol && x.execType == "Trade" ==>
      e == Some(Event(Fill, FillReport(x.orderId, x.side, x.execPrice, x.execQty)))
    ensures x.symbol == symbol && x.execType == "Rejected" ==>
      e == Some(Event(Rejection, RejectionReport(x.orderId, x.rejectReason.GetOr(UnknownReason))))
    ensures x.execType != "Trade" && x.execType != "Rejected" ==> e == None
  {
    if x.symbol != symbol then None
    else if x.execType == "Trade" then Some(Event(Fill, FillReport(x.orderId, x.side, x.execPrice, x.execQty)))
    else if x.execType == "Rejected" then Some(Event(Rejection, RejectionReport(x.orderId, x.rejectReason.GetOr(UnknownReason))))
    else None
  }

  function EventOf(symbol: string, x: Execution): seq<Event>
  {
    match ExecutionEvent(symbol, x)
    case Some(e) => [e]
    case None => []
  }

  /** The events of a batch of executions, in input order. */
  function ExecutionEvents(symbol: string, data: seq<Execution>): seq<Event>
    decreases |data|
  {
    if data == [] then [] else EventOf(symbol, data[0]) + ExecutionEvents(symbol, data[1..])
  }

  /** Handling two batches one after the other emits what handling them as one does. */
  lemma {:induction false} ExecutionEventsAppend(symbol: string, a: seq<Execution>, b: seq<Execution>)
    ensures ExecutionEvents(symbol, a + b) == ExecutionEvents(symbol, a) + ExecutionEvents(symbol, b)
    decreases |a|
  {
    if a == [] {
      assert a + b == b;
    } else {
      assert (a + b)[0] == a[0];
      assert (a + b)[1..] == a[1..] + b;
      ExecutionEventsAppend(symbol, a[1..], b);
    }
  }

  /** The number of executions of `symbol` that are trades or rejections. */
  function Reportable(symbol: string, data: seq<Execution>): nat
    decreases |data|
  {
    if data == [] then 0
    else (if ExecutionEvent(symbol, data[0]).Some? then 1 else 0) + Reportable(symbol, data[1..])
  }

  /**
   * At most one event per execution: exactly one for each trade or rejection of the
   * symbol, so never more events than executions.
   */
  lemma {:induction false} ExecutionEventsCount(symbol: string, data: seq<Execution>)
    ensures |ExecutionEvents(symbol, data)| == Reportable(symbol, data) <= |data|
    decreases |data|
  {
    if data != [] {
      ExecutionEventsCount(symbol, data[1..]);
    }
  }

  /** An event is emitted exactly when some execution of the batch produces it. */
  lemma {:induction false} ExecutionEventsMembers(symbol: string, data: seq<Execution>, e: Event)
    ensures e in ExecutionEvents(symbol, data) <==>
      exists i :: 0 <= i < |data| && ExecutionEvent(symbol, data[i]) == Some(e)
    decreases |data|
  {
    if data != [] {
      ExecutionEventsMembers(symbol, data[1..], e);
      if e in ExecutionEvents(symbol, data[1..]) {
        var i :| 0 <= i < |data[1..]| && ExecutionEvent(symbol, data[1..][i]) == Some(e);
        assert data[i + 1] == data[1..][i];
      }
      if exists i :: 0 <= i < |data| && ExecutionEvent(symbol, data[i]) == Some(e) {
        var i :| 0 <= i < |data| && ExecutionEvent(symbol, data[i]) == Some(e);
        if i > 0 {
          assert data[1..][i - 1] == data[i];
        }
      }
    }
  }

  /** Executions of other symbols change nothing: dropping them leaves the events as they were. */
  lemma {:induction false} OtherSymbolsIgnored(symbol: string, a: seq<Execution>, x: Execution, b: seq<Execution>)
    requires x.symbol != symbol
    ensures ExecutionEvents(symbol, a + [x] + b) == ExecutionEvents(symbol, a + b)
  {
    ExecutionEventsAppend(symbol, a + [x], b);
    ExecutionEventsAppend(symbol, a, [x]);
    ExecutionEventsAppend(symbol, a, b);
    assert ExecutionEvents(symbol, [x]) == [] by {
      assert [x][1..] == [];
    }
  }

  class ExecutionHandler {
    /** `ss.bybit_symbol`, captured when the handler is built. */
    const symbol: string
    const log: EventLog

    constructor (symbol: string, log: EventLog)
      ensures this.symbol == symbol && this.log == log
    {
      this.symbol := symbol;
      this.log := log;
    }

    /** `process`: schedule the event of every execution, in order; nothing else changes. */
    method Process(data: seq<Execution>)
      modifies log
      ensures log.pending == old(log.pending) + ExecutionEvents(symbol, data)
    {
      var i := 0;
      while i < |data|
        invariant i <= |data|
        invariant log.pending == old(log.pending) + ExecutionEvents(symbol, data[..i])
      {
        var x := data[i];
        ExecutionEventsAppend(symbol, data[..i], [x]);
        assert data[..i + 1] == data[..i] + [x];
        assert ExecutionEvents(symbol, [x]) == EventOf(symbol, x) by {
          assert [x][1..] == [];
        }
        if x.symbol != symbol {
          i := i + 1;
          continue;
        }
        if x.execType == "Trade" {
          log.Schedule(Event(Fill, FillReport(x.orderId, x.side, x.execPrice, x.execQty)));
        } else if x.execType == "Rejected" {
          log.Schedule(Event(Rejection, RejectionReport(x.orderId, x.rejectReason.GetOr(UnknownReason))));
        }
        i := i + 1;
      }
      assert data[..i] == data;
    }
  }
}
