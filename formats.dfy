/**
 * What travels between the order gateway and the venue: the fields of an order tuple and
 * their rendering by Python's `str`, the payloads built by the venue's format helpers, the
 * endpoints, and what a signed call can come back with.
 */
module Formats {
  import opened Maybe

  /** One element of an order tuple: a string (side, order id) or an integer (price, quantity). */
  datatype Scalar = Text(s: string) | Number(n: int)

  predicate IsDigit(c: char) { '0' <= c <= '9' }

  predicate AllDigits(s: string) { forall j :: 0 <= j < |s| ==> IsDigit(s[j]) }

  function Digit(d: nat): (c: char)
    requires d < 10
    ensures IsDigit(c) && c as int - '0' as int == d
  {
    ('0' as int + d) as char
  }

  /** The decimal digits of `n`, most significant first, with no leading zero. */
  function NatToDecimal(n: nat): (s: string)
    ensures |s| > 0 && AllDigits(s)
    ensures |s| > 1 ==> s[0] != '0'
    decreases n
  {
    if n < 10 then [Digit(n)] else NatToDecimal(n / 10) + [Digit(n % 10)]
  }

  /** The number a string of decimal digits denotes. */
  function DecimalValue(s: string): nat
    requires AllDigits(s)
    decreases |s|
  {
    if s == [] then 0
    else 10 * DecimalValue(s[..|s| - 1]) + (s[|s| - 1] as int - '0' as int)
  }

  /** Python's `str` on one tuple element: a string is itself, an integer its decimal form. */
  function Show(x: Scalar): (s: string)
  {
    match x
    case Text(t) => t
    case Number(n) => if n < 0 then "-" + NatToDecimal(-n) else NatToDecimal(n)
  }

  /** Reads back an integer rendered by `Show`: an optional minus sign, then digits. */
  function ParseInteger(s: string): Option<int>
  {
    if |s| > 0 && s[0] == '-' && AllDigits(s[1..]) then Some(-(DecimalValue(s[1..]) as int))
    else if AllDigits(s) then Some(DecimalValue(s))
    else None
  }

  lemma {:induction false} DecimalRoundTrip(n: nat)
    ensures DecimalValue(NatToDecimal(n)) == n
    decreases n
  {
    if n >= 10 {
      var prefix := NatToDecimal(n / 10);
      var s := prefix + [Digit(n % 10)];
      assert s[..|s| - 1] == prefix;
      DecimalRoundTrip(n / 10);
    }
  }

  /** Rendering an integer with `str` loses nothing: the rendered text reads back as the same integer. */
  lemma ShowNumberRoundTrip(n: int)
    ensures ParseInteger(Show(Number(n))) == Some(n)
  {
    if n < 0 {
      var s := Show(Number(n));
      assert s[1..] == NatToDecimal(-n);
      DecimalRoundTrip(-n);
    } else {
      DecimalRoundTrip(n);
    }
  }

  /** The venue's private REST endpoints (the `PrivatePostLinks` container). */
  datatype Endpoint =
    | CreateOrderLink
    | CreateBatchLink
    | AmendOrderLink
    | AmendBatchLink
    | CancelSingleLink
    | CancelBatchLink
    | CancelAllLink

  /**
   * A request body. The single-order bodies are what the format helpers (`BybitFormats`,
   * built over the trading symbol) produce from stringified fields; their exact key layout
   * is not part of this model. `Batch` is the `{category, request: [...]}` dict the batch
   * methods build themselves.
   */
  datatype Payload =
    | Market(symbol: string, side: string, qty: string)
    | Limit(symbol: string, side: string, price: string, qty: string)
    | Amend(symbol: string, orderId: string, price: string, qty: string)
    | Cancel(symbol: string, orderId: string)
    | CancelEverything(symbol: string)
    | Batch(category: string, request: seq<Payload>)

  /** A signed POST as handed to the signing client. */
  datatype Request = Request(endpoint: Endpoint, payload: Payload)

  /** A decoded venue reply; `retCode` is `None` when the key is absent. */
  datatype Response = Response(retCode: Option<int>, raw: string)

  /**
   * `response.get('retCode') != 0`: the venue declined the request. An absent key reads as
   * `None`, which differs from 0, so it counts as a rejection too.
   */
  predicate IsVenueRejection(r: Response)
  {
    r.retCode != Some(0)
  }

  /** Only retCode 0 is an acceptance: any other code, and a missing one, is a rejection. */
  lemma VenueRejectionCases(r: Response)
    ensures r.retCode == Some(0) ==> !IsVenueRejection(r)
    ensures r.retCode == None ==> IsVenueRejection(r)
    ensures r.retCode.Some? && r.retCode.value != 0 ==> IsVenueRejection(r)
  {
  }

  /** How one awaited submission ends: it raised, or it returned a reply or `None`. */
  datatype Submission = Raised(reason: string) | Returned(reply: Option<Response>)

  /** An outcome the gateway logs: an exception, or a non-`None` reply the venue rejected. */
  predicate IsFailure(s: Submission)
  {
    s.Raised? || (s.reply.Some? && IsVenueRejection(s.reply.value))
  }
}
