/** `POST /create-order`: a one-time donation. The handler validates the
    amount, turns it into the gateway's order options and hands back the
    order object the gateway created. */
module Orders {
  import opened Common

  /** The options object passed to the gateway's `orders.create`. */
  datatype OrderOptions = OrderOptions(amount: int, currency: string, receipt: string)

  /** The order object the gateway returns; the handler sends it back verbatim. */
  datatype Order = Order(id: string, amount: int, currency: string)

  /** The factor the handler multiplies the donor's amount by before calling
      the gateway. It is 10 in the source, although the minor unit of INR
      (the paisa) is a hundredth of a rupee. */
  const MinorUnitFactor: int := 10
  const Currency: string := "INR"
  const ReceiptPrefix: string := "receipt_donation_"

  const InvalidAmount: string := "Invalid amount"
  const OrderCreationFailed: string := "Razorpay order creation failed"

  /** `!amount || Number(amount) <= 0`: absent, zero or negative amounts are refused. */
  predicate AmountRejected(amount: Option<int>)
  {
    amount.None? || amount.value <= 0
  }

  /** Validation and option building, before any gateway call. `clock` is the
      rendered `Date.now()` reading that makes the receipt unique. The options
      carry a positive whole number of tenths of the donor's amount, in INR,
      from which the donor's amount is recovered exactly. */
  function OrderRequest(amount: Option<int>, clock: string): (r: Result<OrderOptions>)
    ensures r.Err? <==> AmountRejected(amount)
    ensures r.Err? ==> r.failure == Failure(BadRequest, InvalidAmount)
    ensures r.Ok? ==> r.value.amount > 0 && r.value.amount % MinorUnitFactor == 0
                      && r.value.amount / MinorUnitFactor == amount.value
    ensures r.Ok? ==> r.value.currency == Currency
    ensures r.Ok? ==> |r.value.receipt| >= |ReceiptPrefix|
                      && r.value.receipt[..|ReceiptPrefix|] == ReceiptPrefix
                      && r.value.receipt[|ReceiptPrefix|..] == clock
  {
    if AmountRejected(amount) then
      Err(Failure(BadRequest, InvalidAmount))
    else
      Ok(OrderOptions(amount.value * MinorUnitFactor, Currency, ReceiptPrefix + clock))
  }

  /** What the handler answers once the gateway call has settled: the order
      itself, or 500 when the gateway gave `null`/`undefined` or threw. */
  function OrderResponse(reply: GatewayReply<Order>): (r: Result<Order>)
    ensures r.Ok? <==> reply.Created?
    ensures r.Ok? ==> r.value == reply.value
    ensures r.Err? ==> r.failure.status == ServerError
    ensures reply.Threw? ==> r.failure.error == reply.message
    ensures reply.NoResult? ==> r.failure.error == OrderCreationFailed
  {
    match reply
    case Created(order) => Ok(order)
    case NoResult => Err(Failure(ServerError, OrderCreationFailed))
    case Threw(message) => Err(Failure(ServerError, message))
  }

  /** The whole handler, with the gateway's `orders.create` as a parameter. */
  function CreateOrder(amount: Option<int>, clock: string,
                       gateway: OrderOptions -> GatewayReply<Order>): (r: Result<Order>)
    ensures r.Ok? ==> !AmountRejected(amount)
    ensures r.Ok? ==> gateway(OrderRequest(amount, clock).value) == Created(r.value)
    ensures AmountRejected(amount) ==> r == Err(Failure(BadRequest, InvalidAmount))
  {
    match OrderRequest(amount, clock)
    case Err(failure) => Err(failure)
    case Ok(options) => OrderResponse(gateway(options))
  }

  /** A refused amount is answered without consulting the gateway: two
      gateways, however different, give the same response. */
  lemma RejectedAmountSkipsGateway(amount: Option<int>, clock: string,
                                   g1: OrderOptions -> GatewayReply<Order>,
                                   g2: OrderOptions -> GatewayReply<Order>)
    requires AmountRejected(amount)
    ensures CreateOrder(amount, clock, g1) == CreateOrder(amount, clock, g2)
    ensures CreateOrder(amount, clock, g1).failure.status == BadRequest
  {
  }

  /** An accepted amount reaches the gateway with exactly `amount * 10` INR,
      and the handler's answer is whatever the gateway's reply makes of it. */
  lemma AcceptedAmountCallsGateway(amount: int, clock: string,
                                   gateway: OrderOptions -> GatewayReply<Order>)
    requires amount > 0
    ensures CreateOrder(Some(amount), clock, gateway)
         == OrderResponse(gateway(OrderOptions(amount * 10, "INR", "receipt_donation_" + clock)))
  {
  }

  /** Example: 500 rupees are requested from the gateway as 5000 units of INR. */
  lemma FiveHundredRupees(clock: string)
    ensures OrderRequest(Some(500), clock).Ok?
    ensures OrderRequest(Some(500), clock).value.amount == 5000
    ensures OrderRequest(Some(500), clock).value.currency == "INR"
  {
  }
}
