/**
 * The order gateway (`Order` in src/exchanges/bybit/post/order.py): five single-order calls
 * that classify their outcome and log failures, and three batch calls that split their input
 * into chunks of ten, submit one `{category: "linear", request: [...]}` payload per chunk and,
 * for amends and cancels, log every failed chunk. The signing client is replaced by the
 * outcome each submission has, given as a parameter.
 */
module Gateway {
  import opened Maybe
  import opened Formats
  import opened Seqs
  import opened Chunking
  import opened Events

  /** The class attribute `category`, sent with every batch. */
  const Category: string := "linear"

  datatype MarketOrder = MarketOrder(side: Scalar, qty: Scalar)
  datatype LimitOrder = LimitOrder(side: Scalar, price: Scalar, qty: Scalar)
  datatype AmendOrder = AmendOrder(orderId: Scalar, price: Scalar, qty: Scalar)

  /** `_order_to_str_`: every element of the order tuple through `str`, in order. */
  function OrderToStr(order: seq<Scalar>): (r: seq<string>)
    ensures |r| == |order|
    ensures forall j :: 0 <= j < |order| ==> r[j] == Show(order[j])
  {
    MapSeq(order, Show)
  }

  /** No numeric field is altered by stringifying: each reads back as the number it was. */
  lemma OrderToStrKeepsNumbers(order: seq<Scalar>, j: nat)
    requires j < |order| && order[j].Number?
    ensures ParseInteger(OrderToStr(order)[j]) == Some(order[j].n)
  {
    ShowNumberRoundTrip(order[j].n);
  }

  function MarketPayload(symbol: string, o: MarketOrder): Payload
  {
    var f := OrderToStr([o.side, o.qty]);
    Market(symbol, f[0], f[1])
  }

  function LimitPayload(symbol: string, o: LimitOrder): Payload
  {
    var f := OrderToStr([o.side, o.price, o.qty]);
    Limit(symbol, f[0], f[1], f[2])
  }

  function AmendPayload(symbol: string, o: AmendOrder): Payload
  {
    var f := OrderToStr([o.orderId, o.price, o.qty]);
    Amend(symbol, f[0], f[1], f[2])
  }

  function LimitRequests(symbol: string): LimitOrder -> Payload
  {
    (o: LimitOrder) => LimitPayload(symbol, o)
  }

  function AmendRequests(symbol: string): AmendOrder -> Payload
  {
    (o: AmendOrder) => AmendPayload(symbol, o)
  }

  function CancelRequests(symbol: string): string -> Payload
  {
    (id: string) => Cancel(symbol, id)
  }

  // ---------------------------------------------------------------------------------------
  // Single-order calls

  /**
   * The log events of one single-order call: exactly one when the call raised (a runtime
   * error) or returned a reply the venue rejected (an API error), none for a `None` reply or
   * an accepted one.
   */
  function CallEvents(call: Call, payload: Payload, s: Submission): (evs: seq<Event>)
    ensures |evs| == (if IsFailure(s) then 1 else 0)
    ensures s.Raised? ==> evs == [Event(RuntimeError, CallRaised(call, s.reason, payload))]
    ensures s.Returned? && IsFailure(s) ==> evs == [Event(ApiError, CallRejected(call, payload, s.reply.value))]
  {
    match s
    case Raised(e) => [Event(RuntimeError, CallRaised(call, e, payload))]
    case Returned(reply) =>
      if reply.Some? && IsVenueRejection(reply.value) then [Event(ApiError, CallRejected(call, payload, reply.value))]
      else []
  }

  /** What a single-order call returns: the reply unchanged, or `None` when the call raised. */
  function CallResult(s: Submission): (r: Option<Response>)
    ensures s.Returned? ==> r == s.reply
    ensures s.Raised? ==> r == None
  {
    if s.Raised? then None else s.reply
  }

  // ---------------------------------------------------------------------------------------
  // Batches

  /** The dict one loop iteration builds for a chunk. */
  function BatchPayload<T>(chunk: seq<T>, request: T -> Payload): Payload
  {
    Batch(Category, MapSeq(chunk, request))
  }

  /** The payloads of `items`, one per chunk of ten, in chunk order. */
  function BatchPayloads<T>(items: seq<T>, request: T -> Payload): (ps: seq<Payload>)
    ensures |ps| == ChunkCount(|items|)
  {
    MapSeq(Chunks(items), (c: seq<T>) => BatchPayload(c, request))
  }

  function Requests(endpoint: Endpoint, payloads: seq<Payload>): seq<Request>
  {
    MapSeq(payloads, (p: Payload) => Request(endpoint, p))
  }

  lemma RequestsSnoc(endpoint: Endpoint, payloads: seq<Payload>, p: Payload)
    ensures Requests(endpoint, payloads + [p]) == Requests(endpoint, payloads) + [Request(endpoint, p)]
  {
  }

  /**
   * Every batch payload has category "linear" and at most ten entries; payload k carries one
   * entry per item of chunk k, in order; and the entries of all payloads, in order, are one
   * entry per item in the input order.
   */
  lemma BatchPayloadsShape<T>(items: seq<T>, request: T -> Payload)
    ensures forall k :: 0 <= k < |BatchPayloads(items, request)| ==>
      var p := BatchPayloads(items, request)[k];
      p.Batch? && p.category == "linear" && |p.request| <= BatchSize &&
      p.request == MapSeq(Chunks(items)[k], request)
    ensures Flatten(MapSeq(BatchPayloads(items, request), (p: Payload) => if p.Batch? then p.request else []))
      == MapSeq(items, request)
  {
    var ps := BatchPayloads(items, request);
    var cs := Chunks(items);
    var entries := (p: Payload) => if p.Batch? then p.request else [];
    var g := (c: seq<T>) => MapSeq(c, request);
    assert MapSeq(ps, entries) == MapSeq(cs, g);
    FlattenMapChunks(cs, request);
  }

  /** Outcome of `asyncio.gather(*tasks)` without `return_exceptions`. */
  datatype Gathered = Propagated(reason: string) | AllReturned(replies: seq<Option<Response>>)

  /**
   * Without `return_exceptions`, gather raises as soon as one task raises; taken in chunk
   * order, it is the first exception. Otherwise it returns every reply, one per chunk, in order.
   */
  function GatherStrict(outcomes: seq<Submission>): (g: Gathered)
    ensures g.Propagated? <==> exists k :: 0 <= k < |outcomes| && outcomes[k].Raised?
    ensures g.Propagated? ==> exists k :: 0 <= k < |outcomes| && outcomes[k] == Raised(g.reason) &&
                                          (forall j :: 0 <= j < k ==> !outcomes[j].Raised?)
    ensures g.AllReturned? ==> (|g.replies| == |outcomes| &&
                                forall k :: 0 <= k < |outcomes| ==> g.replies[k] == outcomes[k].reply)
    decreases |outcomes|
  {
    if outcomes == [] then AllReturned([])
    else if outcomes[0].Raised? then Propagated(outcomes[0].reason)
    else
      var rest := GatherStrict(outcomes[1..]);
      if rest.Propagated? then
        assert forall k :: 0 < k < |outcomes| ==> outcomes[k] == outcomes[1..][k - 1];
        rest
      else AllReturned([outcomes[0].reply] + rest.replies)
  }

  /**
   * The order ids a rejected cancel batch result should quote: for result `i`, the ids of
   * chunk `i`, `order_ids[10*i : 10*i+10]`.
   */
  function QuotedIds(ids: seq<string>, i: nat): seq<string>
  {
    Slice(ids, BatchSize * i, BatchSize * i + BatchSize)
  }

  /** The ids cancel_batch quotes as written, `order_ids[i:i+10]`, with the result index `i`. */
  function QuotedIdsAsWritten(ids: seq<string>, i: nat): seq<string>
  {
    Slice(ids, i, i + BatchSize)
  }

  /** Result `i` of a cancel batch is the reply to chunk `i`, and the corrected message quotes exactly that chunk. */
  lemma QuotedIdsAreChunk(ids: seq<string>, i: nat)
    requires i < |Chunks(ids)|
    ensures QuotedIds(ids, i) == Chunks(ids)[i]
  {
    ChunkAt(ids, i);
  }

  /** As written, result 1 of a cancel of eleven ids quotes ids 1..10 instead of its own chunk, id 10 alone. */
  lemma QuotedIdsAsWrittenMisquotes()
    ensures var ids := ["a", "b", "c", "d", "e", "f", "g", "h", "i", "j", "k"];
      |Chunks(ids)| == 2 && Chunks(ids)[1] == ["k"] &&
      QuotedIdsAsWritten(ids, 1) == ids[1..] && QuotedIdsAsWritten(ids, 1) != Chunks(ids)[1]
  {
    var ids := ["a", "b", "c", "d", "e", "f", "g", "h", "i", "j", "k"];
    QuotedIdsAreChunk(ids, 1);
    assert QuotedIds(ids, 1) == ["k"];
  }

  /** With distinct ids, the as-written quote is wrong for every result after the first. */
  lemma QuotedIdsAsWrittenDiffers(ids: seq<string>, i: nat)
    requires forall a, b :: 0 <= a < b < |ids| ==> ids[a] != ids[b]
    requires 1 <= i < |Chunks(ids)|
    ensures QuotedIdsAsWritten(ids, i) != QuotedIds(ids, i)
  {
    ChunkAt(ids, i);
    assert QuotedIdsAsWritten(ids, i)[0] == ids[i];
    assert QuotedIds(ids, i)[0] == ids[BatchSize * i];
  }

  /** As written and corrected agree on the first result. */
  lemma QuotedIdsAsWrittenAgreesOnFirst(ids: seq<string>)
    ensures QuotedIdsAsWritten(ids, 0) == QuotedIds(ids, 0)
  {
  }

  /** The log events for result `i` of an amend or cancel batch (`ids` is `Some` for a cancel batch). */
  function ResultEvents(call: Call, i: nat, s: Submission, ids: Option<seq<string>>): seq<Event>
  {
    match s
    case Raised(e) => [Event(ApiError, TaskRaised(call, i, e))]
    case Returned(reply) =>
      if reply.Some? && IsVenueRejection(reply.value) then
        var quoted := if ids.Some? then Some(QuotedIds(ids.value, i)) else None;
        [Event(ApiError, TaskRejected(call, i, reply.value, quoted))]
      else []
  }

  /**
   * One result gives one API error when it raised (quoting the exception) or its reply was
   * rejected (quoting the reply and, for a cancel batch, the chunk's ids), and none otherwise.
   */
  lemma ResultEventsCases(call: Call, i: nat, s: Submission, ids: Option<seq<string>>)
    ensures |ResultEvents(call, i, s, ids)| == (if IsFailure(s) then 1 else 0)
    ensures s.Raised? ==> ResultEvents(call, i, s, ids) == [Event(ApiError, TaskRaised(call, i, s.reason))]
    ensures s.Returned? && IsFailure(s) ==>
      ResultEvents(call, i, s, ids) ==
      [Event(ApiError, TaskRejected(call, i, s.reply.value, if ids.Some? then Some(QuotedIds(ids.value, i)) else None))]
  {
  }

  /** The log events for the first `n` gathered results, in result order. */
  function BatchEvents(call: Call, results: seq<Submission>, ids: Option<seq<string>>, n: nat): (evs: seq<Event>)
    requires n <= |results|
    decreases n
  {
    if n == 0 then [] else BatchEvents(call, results, ids, n - 1) + ResultEvents(call, n - 1, results[n - 1], ids)
  }

  /**
   * The events follow result order: those of the first `m` results come first, and result
   * `m`'s own events come right after them, before those of any later result.
   */
  lemma {:induction false} BatchEventsInResultOrder(call: Call, results: seq<Submission>, ids: Option<seq<string>>, m: nat, n: nat)
    requires m <= n <= |results|
    ensures BatchEvents(call, results, ids, m) <= BatchEvents(call, results, ids, n)
    ensures m < n ==> BatchEvents(call, results, ids, m) + ResultEvents(call, m, results[m], ids) <= BatchEvents(call, results, ids, n)
    decreases n
  {
    if m < n {
      var before := BatchEvents(call, results, ids, n - 1);
      assert BatchEvents(call, results, ids, n) == before + ResultEvents(call, n - 1, results[n - 1], ids);
      BatchEventsInResultOrder(call, results, ids, m, n - 1);
      if m < n - 1 {
        var head := BatchEvents(call, results, ids, m) + ResultEvents(call, m, results[m], ids);
        assert head <= before;
        assert head == before[..|head|];
      }
    }
  }

  /** The number of failed results among the first `n`. */
  function Failures(results: seq<Submission>, n: nat): nat
    requires n <= |results|
    decreases n
  {
    if n == 0 then 0 else Failures(results, n - 1) + (if IsFailure(results[n - 1]) then 1 else 0)
  }

  /**
   * Batch classification emits exactly one API_ERROR per failed result and nothing else:
   * the events are as many as the failures, every event is an API error about some failed
   * result, and every failed result has its event.
   */
  lemma {:induction false} BatchEventsClassify(call: Call, results: seq<Submission>, ids: Option<seq<string>>, n: nat)
    requires n <= |results|
    ensures |BatchEvents(call, results, ids, n)| == Failures(results, n)
    ensures forall e :: e in BatchEvents(call, results, ids, n) ==>
      e.kind == ApiError && (e.detail.TaskRaised? || e.detail.TaskRejected?) &&
      e.detail.index < n && IsFailure(results[e.detail.index])
    ensures forall i :: 0 <= i < n && IsFailure(results[i]) ==>
      exists e :: e in BatchEvents(call, results, ids, n) && (e.detail.TaskRaised? || e.detail.TaskRejected?) && e.detail.index == i
    decreases n
  {
    if n > 0 {
      BatchEventsClassify(call, results, ids, n - 1);
      var last := ResultEvents(call, n - 1, results[n - 1], ids);
      assert BatchEvents(call, results, ids, n) == BatchEvents(call, results, ids, n - 1) + last;
      if IsFailure(results[n - 1]) {
        assert last[0] in BatchEvents(call, results, ids, n);
      }
    }
  }

  // ---------------------------------------------------------------------------------------
  // The gateway object

  class OrderGateway {
    /** The trading symbol `BybitFormats` was built with. */
    const symbol: string
    /** Where scheduled log events go. */
    const log: EventLog
    /** Every request handed to the signing client, in order. */
    var sent: seq<Request>
    /** Whether the shared HTTP session is still open. */
    var sessionOpen: bool

    constructor (symbol: string, log: EventLog)
      ensures this.symbol == symbol && this.log == log
      ensures sent == [] && sessionOpen
    {
      this.symbol := symbol;
      this.log := log;
      sent := [];
      sessionOpen := true;
    }

    /**
     * The try/except shared by the five single-order calls: submit inside `async with
     * self.session` (which closes the session on exit), log an API error for a rejected reply
     * and a runtime error for an exception, and return the reply or `None`.
     */
    method Submit(call: Call, endpoint: Endpoint, payload: Payload, outcome: Submission) returns (r: Option<Response>)
      modifies this, log
      ensures sent == old(sent) + [Request(endpoint, payload)]
      ensures !sessionOpen
      ensures log.pending == old(log.pending) + CallEvents(call, payload, outcome)
      ensures r == CallResult(outcome)
    {
      r := SessionlessSubmit(call, endpoint, payload, outcome);
      sessionOpen := false;
    }

    /**
     * The same call through `_sessionless_submit_`, which leaves the session as it was: the
     * corrected form of a single-order call, where only `close_session` closes the session.
     */
    method SessionlessSubmit(call: Call, endpoint: Endpoint, payload: Payload, outcome: Submission) returns (r: Option<Response>)
      modifies this, log
      ensures sent == old(sent) + [Request(endpoint, payload)]
      ensures sessionOpen == old(sessionOpen)
      ensures log.pending == old(log.pending) + CallEvents(call, payload, outcome)
      ensures r == CallResult(outcome)
    {
      sent := sent + [Request(endpoint, payload)];
      match outcome {
        case Raised(e) =>
          log.Schedule(Event(RuntimeError, CallRaised(call, e, payload)));
          r := None;
        case Returned(response) =>
          if response.Some? && IsVenueRejection(response.value) {
            log.Schedule(Event(ApiError, CallRejected(call, payload, response.value)));
          }
          r := response;
      }
    }

    method OrderMarket(order: MarketOrder, outcome: Submission) returns (r: Option<Response>)
      modifies this, log
      ensures sent == old(sent) + [Request(CreateOrderLink, MarketPayload(symbol, order))]
      ensures !sessionOpen
      ensures log.pending == old(log.pending) + CallEvents(OrderMarketCall, MarketPayload(symbol, order), outcome)
      ensures r == CallResult(outcome)
    {
      var f := OrderToStr([order.side, order.qty]);
      var payload := Market(symbol, f[0], f[1]);
      r := Submit(OrderMarketCall, CreateOrderLink, payload, outcome);
    }

    method OrderLimit(order: LimitOrder, outcome: Submission) returns (r: Option<Response>)
      modifies this, log
      ensures sent == old(sent) + [Request(CreateOrderLink, LimitPayload(symbol, order))]
      ensures !sessionOpen
      ensures log.pending == old(log.pending) + CallEvents(OrderLimitCall, LimitPayload(symbol, order), outcome)
      ensures r == CallResult(outcome)
    {
      var f := OrderToStr([order.side, order.price, order.qty]);
      var payload := Limit(symbol, f[0], f[1], f[2]);
      r := Submit(OrderLimitCall, CreateOrderLink, payload, outcome);
    }

    method Amend(order: AmendOrder, outcome: Submission) returns (r: Option<Response>)
      modifies this, log
      ensures sent == old(sent) + [Request(AmendOrderLink, AmendPayload(symbol, order))]
      ensures !sessionOpen
      ensures log.pending == old(log.pending) + CallEvents(AmendCall, AmendPayload(symbol, order), outcome)
      ensures r == CallResult(outcome)
    {
      var f := OrderToStr([order.orderId, order.price, order.qty]);
      var payload := Formats.Amend(symbol, f[0], f[1], f[2]);
      r := Submit(AmendCall, AmendOrderLink, payload, outcome);
    }

    method Cancel(orderId: string, outcome: Submission) returns (r: Option<Response>)
      modifies this, log
      ensures sent == old(sent) + [Request(CancelSingleLink, Formats.Cancel(symbol, orderId))]
      ensures !sessionOpen
      ensures log.pending == old(log.pending) + CallEvents(CancelCall, Formats.Cancel(symbol, orderId), outcome)
      ensures r == CallResult(outcome)
    {
      var payload := Formats.Cancel(symbol, orderId);
      r := Submit(CancelCall, CancelSingleLink, payload, outcome);
    }

    method CancelAll(outcome: Submission) returns (r: Option<Response>)
      modifies this, log
      ensures sent == old(sent) + [Request(CancelAllLink, CancelEverything(symbol))]
      ensures !sessionOpen
      ensures log.pending == old(log.pending) + CallEvents(CancelAllCall, CancelEverything(symbol), outcome)
      ensures r == CallResult(outcome)
    {
      var payload := CancelEverything(symbol);
      r := Submit(CancelAllCall, CancelAllLink, payload, outcome);
    }

    /**
     * The `for i in range(0, len(items), 10)` loop the three batch calls share: build one
     * payload per chunk and hand it to the client without closing the session.
     */
    method SubmitChunks<T>(endpoint: Endpoint, items: seq<T>, request: T -> Payload) returns (tasks: seq<Payload>)
      modifies this
      ensures tasks == BatchPayloads(items, request)
      ensures sent == old(sent) + Requests(endpoint, tasks)
      ensures sessionOpen == old(sessionOpen)
    {
      ghost var chunks := Chunks(items);
      tasks := [];
      var i := 0;
      while i < |items|
        invariant i == BatchSize * |tasks|
        invariant |tasks| <= |chunks|
        invariant i < |items| <==> |tasks| < |chunks|
        invariant forall k :: 0 <= k < |tasks| ==> tasks[k] == BatchPayload(chunks[k], request)
        invariant sent == old(sent) + Requests(endpoint, tasks)
        invariant sessionOpen == old(sessionOpen)
        decreases |items| - i
      {
        ChunkAt(items, |tasks|);
        var payload := Batch(Category, MapSeq(Slice(items, i, i + BatchSize), request));
        assert payload == BatchPayload(chunks[|tasks|], request);
        RequestsSnoc(endpoint, tasks, payload);
        sent := sent + [Request(endpoint, payload)];
        tasks := tasks + [payload];
        i := i + BatchSize;
        ChunkCountStep(|items|, |tasks|);
      }
      assert |tasks| == |chunks|;
    }

    /**
     * `order_limit_batch`: submit every chunk, then gather without `return_exceptions`. No
     * result is classified and nothing is logged; an exception from any chunk propagates out
     * of the call before the session is closed.
     */
    method OrderLimitBatch(orders: seq<LimitOrder>, venue: seq<Submission>) returns (g: Gathered)
      requires |venue| == |Chunks(orders)|
      modifies this
      ensures sent == old(sent) + Requests(CreateBatchLink, BatchPayloads(orders, LimitRequests(symbol)))
      ensures g == GatherStrict(venue)
      ensures sessionOpen == (old(sessionOpen) && g.Propagated?)
    {
      var tasks := SubmitChunks(CreateBatchLink, orders, LimitRequests(symbol));
      g := GatherStrict(venue);
      if g.AllReturned? {
        sessionOpen := false;
      }
    }

    /**
     * `amend_batch`: submit every chunk, gather every outcome (`return_exceptions=True`),
     * close the session, log one API error per failed result, and return the results as
     * gathered: one per chunk, in chunk order.
     */
    method AmendBatch(orders: seq<AmendOrder>, venue: seq<Submission>) returns (results: seq<Submission>)
      requires |venue| == |Chunks(orders)|
      modifies this, log
      ensures sent == old(sent) + Requests(AmendBatchLink, BatchPayloads(orders, AmendRequests(symbol)))
      ensures results == venue
      ensures !sessionOpen
      ensures log.pending == old(log.pending) + BatchEvents(AmendBatchCall, results, None, |results|)
    {
      var tasks := SubmitChunks(AmendBatchLink, orders, AmendRequests(symbol));
      results := venue;
      sessionOpen := false;
      ClassifyResults(AmendBatchCall, results, None);
    }

    /**
     * `cancel_batch`: as `amend_batch`, over order ids; a rejected result's message also
     * quotes the ids of its chunk.
     */
    method CancelBatch(orderIds: seq<string>, venue: seq<Submission>) returns (results: seq<Submission>)
      requires |venue| == |Chunks(orderIds)|
      modifies this, log
      ensures sent == old(sent) + Requests(CancelBatchLink, BatchPayloads(orderIds, CancelRequests(symbol)))
      ensures results == venue
      ensures !sessionOpen
      ensures log.pending == old(log.pending) + BatchEvents(CancelBatchCall, results, Some(orderIds), |results|)
    {
      var tasks := SubmitChunks(CancelBatchLink, orderIds, CancelRequests(symbol));
      results := venue;
      sessionOpen := false;
      ClassifyResults(CancelBatchCall, results, Some(orderIds));
    }

    /** `close_session`: close the shared session; nothing is sent. */
    method CloseSession()
      modifies this
      ensures !sessionOpen && sent == old(sent)
    {
      sessionOpen := false;
    }

    /** The `for i, result in enumerate(results)` loop of amend_batch and cancel_batch. */
    method ClassifyResults(call: Call, results: seq<Submission>, ids: Option<seq<string>>)
      modifies log
      ensures log.pending == old(log.pending) + BatchEvents(call, results, ids, |results|)
    {
      var i := 0;
      while i < |results|
        invariant i <= |results|
        invariant log.pending == old(log.pending) + BatchEvents(call, results, ids, i)
      {
        assert BatchEvents(call, results, ids, i + 1) ==
          BatchEvents(call, results, ids, i) + ResultEvents(call, i, results[i], ids);
        match results[i] {
          case Raised(e) =>
            log.Schedule(Event(ApiError, TaskRaised(call, i, e)));
          case Returned(reply) =>
            if reply.Some? && IsVenueRejection(reply.value) {
              var quoted := if ids.Some? then Some(QuotedIds(ids.value, i)) else None;
              log.Schedule(Event(ApiError, TaskRejected(call, i, reply.value, quoted)));
            }
        }
        i := i + 1;
      }
    }
  }

  // ---------------------------------------------------------------------------------------
  // The shared session across calls

  /**
   * As written, the first single-order call leaves `async with self.session` and so closes
   * the one session the gateway has: a second call on the same gateway is sent over a closed
   * session. The result is whether the session was still open when the second call was sent.
   */
  method SecondOrderAsWritten(symbol: string, first: MarketOrder, second: MarketOrder, o1: Submission, o2: Submission)
    returns (openAtSecondSend: bool, requests: nat)
    ensures !openAtSecondSend
    ensures requests == 2
  {
    var log := new EventLog();
    var g := new OrderGateway(symbol, log);
    var _ := g.OrderMarket(first, o1);
    openAtSecondSend := g.sessionOpen;
    var _ := g.OrderMarket(second, o2);
    requests := |g.sent|;
  }

  /**
   * With the session managed once, both calls are sent over the open session, and only
   * `close_session` closes it afterwards.
   */
  method SecondOrderKeepingSession(symbol: string, first: MarketOrder, second: MarketOrder, o1: Submission, o2: Submission)
    returns (openAtSecondSend: bool, requests: nat, openAtEnd: bool)
    ensures openAtSecondSend
    ensures requests == 2
    ensures !openAtEnd
  {
    var log := new EventLog();
    var g := new OrderGateway(symbol, log);
    var _ := g.SessionlessSubmit(OrderMarketCall, CreateOrderLink, MarketPayload(symbol, first), o1);
    openAtSecondSend := g.sessionOpen;
    var _ := g.SessionlessSubmit(OrderMarketCall, CreateOrderLink, MarketPayload(symbol, second), o2);
    requests := |g.sent|;
    g.CloseSession();
    openAtEnd := g.sessionOpen;
  }
}
