/** `POST /create-subscription`: a recurring donation. The handler needs a
    configured plan, resolves how many billing cycles to request, and asks the
    gateway for a subscription on that plan. */
module Subscriptions {
  import opened Common

  /** The options object passed to the gateway's `subscriptions.create`. */
  datatype SubscriptionOptions = SubscriptionOptions(planId: string, customerNotify: int, totalCount: int)

  /** The subscription object the gateway returns. */
  datatype Subscription = Subscription(id: string)

  /** The success body: `{ success: true, subscriptionId, subscription }`. */
  datatype SubscriptionCreated = SubscriptionCreated(subscriptionId: string, subscription: Subscription)

  /** The cycle count used when neither the request nor the server names one. */
  const DefaultCycles: int := 12

  const PlanMissing: string := "Plan ID not configured on server"
  /** Reading `.id` of a `null` or `undefined` gateway result throws a
      TypeError; its text is the runtime's and is abbreviated here. */
  const NoSubscriptionRead: string := "TypeError: cannot read property 'id' of the gateway result"

  /** `totalCountFromBody || totalCountFromEnv || 12`: the request's
      `total_count` when truthy, else the server's `RAZORPAY_SUBSCRIPTION_CYCLES`
      when truthy, else 12. A zero anywhere falls through; the result is never 0. */
  function TotalCount(fromBody: Option<int>, fromEnv: Option<int>): (n: int)
    ensures n != 0
    ensures Truthy(fromBody) ==> n == fromBody.value
    ensures !Truthy(fromBody) && Truthy(fromEnv) ==> n == fromEnv.value
    ensures !Truthy(fromBody) && !Truthy(fromEnv) ==> n == DefaultCycles
  {
    Or(Or(fromBody, fromEnv), Some(DefaultCycles)).value
  }

  /** The plan check and option building, before any gateway call. An absent
      or empty plan id is a server misconfiguration (500); otherwise the options
      name that plan, ask the gateway to notify the customer, and carry the
      resolved cycle count. */
  function SubscriptionRequest(planId: Option<string>, fromBody: Option<int>, fromEnv: Option<int>)
    : (r: Result<SubscriptionOptions>)
    ensures r.Err? <==> !Present(planId)
    ensures r.Err? ==> r.failure == Failure(ServerError, PlanMissing)
    ensures r.Ok? ==> r.value.planId == planId.value && r.value.planId != ""
    ensures r.Ok? ==> r.value.customerNotify == 1
    ensures r.Ok? ==> r.value.totalCount == TotalCount(fromBody, fromEnv)
  {
    if !Present(planId) then
      Err(Failure(ServerError, PlanMissing))
    else
      Ok(SubscriptionOptions(planId.value, 1, TotalCount(fromBody, fromEnv)))
  }

  /** What the handler answers once the gateway call has settled. */
  function SubscriptionResponse(reply: GatewayReply<Subscription>): (r: Result<SubscriptionCreated>)
    ensures r.Ok? <==> reply.Created?
    ensures r.Ok? ==> r.value.subscription == reply.value
                      && r.value.subscriptionId == reply.value.id
    ensures r.Err? ==> r.failure.status == ServerError
    ensures reply.Threw? ==> r.failure.error == reply.message
  {
    match reply
    case Created(s) => Ok(SubscriptionCreated(s.id, s))
    case NoResult => Err(Failure(ServerError, NoSubscriptionRead))
    case Threw(message) => Err(Failure(ServerError, message))
  }

  /** The whole handler, with the gateway's `subscriptions.create` as a parameter.
      The request's name, email and contact are read but not used. */
  function CreateSubscription(planId: Option<string>, fromBody: Option<int>, fromEnv: Option<int>,
                              gateway: SubscriptionOptions -> GatewayReply<Subscription>)
    : (r: Result<SubscriptionCreated>)
    ensures !Present(planId) ==> r == Err(Failure(ServerError, PlanMissing))
    ensures r.Ok? ==> Present(planId)
                      && gateway(SubscriptionOptions(planId.value, 1, TotalCount(fromBody, fromEnv)))
                         == Created(r.value.subscription)
  {
    match SubscriptionRequest(planId, fromBody, fromEnv)
    case Err(failure) => Err(failure)
    case Ok(options) => SubscriptionResponse(gateway(options))
  }

  /** With a plan id configured, the gateway is asked for a subscription on
      exactly that plan, notifying the customer, for the resolved cycle count,
      and the handler's answer is whatever the gateway's reply makes of it. */
  lemma PlanCallsGateway(planId: Option<string>, fromBody: Option<int>, fromEnv: Option<int>,
                         gateway: SubscriptionOptions -> GatewayReply<Subscription>)
    requires Present(planId)
    ensures CreateSubscription(planId, fromBody, fromEnv, gateway)
         == SubscriptionResponse(gateway(SubscriptionOptions(planId.value, 1, TotalCount(fromBody, fromEnv))))
  {
  }

  /** Without a plan id the handler answers 500 without consulting the gateway. */
  lemma MissingPlanSkipsGateway(planId: Option<string>, fromBody: Option<int>, fromEnv: Option<int>,
                                g1: SubscriptionOptions -> GatewayReply<Subscription>,
                                g2: SubscriptionOptions -> GatewayReply<Subscription>)
    requires !Present(planId)
    ensures CreateSubscription(planId, fromBody, fromEnv, g1) == CreateSubscription(planId, fromBody, fromEnv, g2)
    ensures CreateSubscription(planId, fromBody, fromEnv, g1).failure.status == ServerError
  {
  }

  /** The cycle count is always one of the three candidates, and it is the
      request's own value exactly when that value is truthy. */
  lemma TotalCountSource(fromBody: Option<int>, fromEnv: Option<int>)
    ensures var n := TotalCount(fromBody, fromEnv);
      (fromBody.Some? && n == fromBody.value) || (fromEnv.Some? && n == fromEnv.value) || n == DefaultCycles
    ensures fromBody == Some(0) ==> TotalCount(fromBody, fromEnv) == TotalCount(None, fromEnv)
  {
  }

  /** Examples: a request for 0 cycles falls through to the server's setting,
      and to 12 when the server has none. */
  lemma ZeroCyclesFallThrough()
    ensures TotalCount(Some(0), Some(24)) == 24
    ensures TotalCount(Some(0), None) == 12
    ensures TotalCount(Some(6), Some(24)) == 6
    ensures TotalCount(None, Some(0)) == 12
  {
  }
}
