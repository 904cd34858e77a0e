/**
 * The log events the core schedules. Every `asyncio.create_task(log_event(kind, message))`
 * in the source becomes one `Event` appended to an `EventLog`, in the order the calls are
 * made; the logger that later writes them is modelled separately (module LogMeister).
 */
module Events {
  import opened Maybe
  import opened Formats

  /** The four event kinds the core emits. */
  datatype Kind = Fill | Rejection | RuntimeError | ApiError

  /** The string the core passes as `event_type`. */
  function KindName(k: Kind): (s: string)
    ensures |s| > 0
  {
    match k
    case Fill => "FILL"
    case Rejection => "REJECTION"
    case RuntimeError => "RUNTIME_ERROR"
    case ApiError => "API_ERROR"
  }

  /** The gateway operation an error event names. */
  datatype Call =
    | OrderMarketCall
    | OrderLimitCall
    | AmendCall
    | CancelCall
    | CancelAllCall
    | AmendBatchCall
    | CancelBatchCall

  /**
   * What a message quotes. The source formats these into an f-string; the model keeps the
   * quoted values themselves.
   */
  datatype Detail =
      /** "Order ID: .., Side: .., Price: .., Qty: .." of an execution report. */
    | FillReport(orderId: string, side: string, price: string, qty: string)
      /** "Order ID: .., Reason: .." of an execution report. */
    | RejectionReport(orderId: string, reason: string)
      /** A single-order call whose reply the venue rejected: the payload and the reply. */
    | CallRejected(call: Call, payload: Payload, response: Response)
      /** A single-order call that raised: the exception and the payload. */
    | CallRaised(call: Call, reason: string, payload: Payload)
      /** Result `index` of a batch gather is an exception. */
    | TaskRaised(call: Call, index: nat, reason: string)
      /** Result `index` of a batch gather is a rejected reply; a cancel batch also quotes ids. */
    | TaskRejected(call: Call, index: nat, response: Response, orderIds: Option<seq<string>>)

  datatype Event = Event(kind: Kind, detail: Detail)

  /** The log-event tasks scheduled so far, oldest first. */
  class EventLog {
    var pending: seq<Event>

    constructor ()
      ensures pending == []
    {
      pending := [];
    }

    /** `asyncio.create_task(log_event(...))`: queue the event and return without waiting. */
    method Schedule(e: Event)
      modifies this
      ensures pending == old(pending) + [e]
    {
      pending := pending + [e];
    }
  }
}
