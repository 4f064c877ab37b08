/** `POST /save-payment`: verification of a completed payment and construction
    of the donation record. The checks run in a fixed order, each returning
    early: the payment id and signature, then the id the payment kind needs,
    then the HMAC signature over the gateway's canonical message, then the
    store's readiness, and finally the record itself. */
module Payments {
  import opened Common

  /** The fields of the request body, after JSON decoding. */
  datatype PaymentForm = PaymentForm(
    paymentId: Option<string>,
    orderId: Option<string>,
    subscriptionId: Option<string>,
    signature: Option<string>,
    isRecurring: bool,
    amount: Option<int>,
    name: Option<string>,
    email: Option<string>,
    contact: Option<string>,
    address: Option<string>,
    pincode: Option<string>,
    message: Option<string>)

  /** A stored donation, as the `Donation` schema lays it out; `createdAt`
      and the store's own `_id` are not part of the model. */
  datatype Donation = Donation(
    name: string,
    email: string,
    contact: string,
    address: string,
    pincode: string,
    amount: int,
    isRecurring: bool,
    orderId: Option<string>,
    subscriptionId: Option<string>,
    paymentId: string,
    status: string,
    message: string)

  const Completed: string := "completed"

  const MissingFields: string := "Payment verification failed: Missing required fields"
  const MissingSubscriptionId: string := "Missing subscriptionId for recurring payment"
  const MissingOrderId: string := "Missing orderId for one-time payment"
  const InvalidSignature: string := "Invalid payment signature"
  const DatabaseUnavailable: string := "Database not available"
  /** `crypto.createHmac` throws when `RAZORPAY_KEY_SECRET` is unset; the
      runtime's text is abbreviated here. */
  const SecretMissing: string := "TypeError: the \"key\" argument must be of type string. Received undefined"
  /** `save()` fails to cast an absent or non-numeric amount (`Number` gives
      NaN) for the schema's required `amount`; the driver's text is abbreviated. */
  const AmountInvalid: string := "Donation validation failed: amount: Cast to Number failed"

  /** The gateway's canonical message: two identifiers joined by a bar. */
  function Join(left: string, right: string): (m: string)
    ensures |m| == |left| + 1 + |right| && m[|left|] == '|'
  {
    left + "|" + right
  }

  /** The ids a payment of its kind must carry for its message to be built. */
  predicate HasIds(f: PaymentForm)
  {
    Present(f.paymentId) && Present(f.signature)
    && (if f.isRecurring then Present(f.subscriptionId) else Present(f.orderId))
  }

  /** The message the gateway signs: `paymentId|subscriptionId` for a
      subscription payment, `orderId|paymentId` for a one-time payment. */
  function CanonicalMessage(f: PaymentForm): (m: string)
    requires HasIds(f)
    ensures f.isRecurring ==> m == f.paymentId.value + "|" + f.subscriptionId.value
    ensures !f.isRecurring ==> m == f.orderId.value + "|" + f.paymentId.value
  {
    if f.isRecurring then Join(f.paymentId.value, f.subscriptionId.value)
    else Join(f.orderId.value, f.paymentId.value)
  }

  /** The field checks, in the handler's order, yielding the message to sign. */
  function CheckFields(f: PaymentForm): (r: Result<string>)
    ensures r.Ok? <==> HasIds(f)
    ensures r.Ok? ==> r.value == CanonicalMessage(f)
    ensures !Present(f.paymentId) || !Present(f.signature)
            ==> r == Err(Failure(BadRequest, MissingFields))
    ensures Present(f.paymentId) && Present(f.signature) && f.isRecurring && !Present(f.subscriptionId)
            ==> r == Err(Failure(BadRequest, MissingSubscriptionId))
    ensures Present(f.paymentId) && Present(f.signature) && !f.isRecurring && !Present(f.orderId)
            ==> r == Err(Failure(BadRequest, MissingOrderId))
  {
    if !Present(f.paymentId) || !Present(f.signature) then
      Err(Failure(BadRequest, MissingFields))
    else if f.isRecurring then
      if !Present(f.subscriptionId) then Err(Failure(BadRequest, MissingSubscriptionId))
      else Ok(Join(f.paymentId.value, f.subscriptionId.value))
    else
      if !Present(f.orderId) then Err(Failure(BadRequest, MissingOrderId))
      else Ok(Join(f.orderId.value, f.paymentId.value))
  }

  /** The signature holds: the MAC of the canonical message under the secret is
      exactly the signature the client sent. */
  predicate SignatureMatches(f: PaymentForm, secret: string, mac: Mac)
    requires HasIds(f)
  {
    mac(secret, CanonicalMessage(f)) == f.signature.value
  }

  /** Field checks followed by the signature check; on success, the message
      that was verified. */
  function Verify(f: PaymentForm, secret: Option<string>, mac: Mac): (r: Result<string>)
    ensures r.Ok? <==> HasIds(f) && secret.Some? && SignatureMatches(f, secret.value, mac)
    ensures r.Ok? ==> r.value == CanonicalMessage(f)
    ensures HasIds(f) && secret.Some? && !SignatureMatches(f, secret.value, mac)
            ==> r == Err(Failure(BadRequest, InvalidSignature))
    ensures HasIds(f) && secret.None? ==> r == Err(Failure(ServerError, SecretMissing))
    ensures !HasIds(f) ==> r == CheckFields(f)
  {
    match CheckFields(f)
    case Err(failure) => Err(failure)
    case Ok(text) =>
      if secret.None? then Err(Failure(ServerError, SecretMissing))
      else if mac(secret.value, text) != f.signature.value then Err(Failure(BadRequest, InvalidSignature))
      else Ok(text)
  }

  /** A record the store may hold: completed, with exactly the one gateway id
      its kind calls for, and a payment id. */
  predicate WellFormed(d: Donation)
  {
    d.status == Completed
    && (d.orderId.Some? <==> !d.isRecurring)
    && (d.subscriptionId.Some? <==> d.isRecurring)
    && d.paymentId != ""
  }

  /** The record built from a verified form; an amount that is absent or not a
      number makes the store's schema validation fail (500). */
  function BuildRecord(f: PaymentForm): (r: Result<Donation>)
    requires HasIds(f)
    ensures r.Ok? <==> f.amount.Some?
    ensures r.Err? ==> r.failure == Failure(ServerError, AmountInvalid)
    ensures r.Ok? ==> WellFormed(r.value)
  {
    if f.amount.None? then Err(Failure(ServerError, AmountInvalid))
    else
      Ok(Donation(
        name := TextOr(f.name),
        email := TextOr(f.email),
        contact := TextOr(f.contact),
        address := TextOr(f.address),
        pincode := TextOr(f.pincode),
        amount := f.amount.value,
        isRecurring := f.isRecurring,
        orderId := if f.isRecurring then None else Some(f.orderId.value),
        subscriptionId := if f.isRecurring then Some(f.subscriptionId.value) else None,
        paymentId := f.paymentId.value,
        status := Completed,
        message := TextOr(f.message)))
  }

  /** The handler's decision: the record to append, or the error response.
      `ready` stands for `mongoose.connection.readyState === 1`. */
  function SaveDecision(f: PaymentForm, secret: Option<string>, mac: Mac, ready: bool): (r: Result<Donation>)
    ensures r.Ok? ==> HasIds(f) && secret.Some? && SignatureMatches(f, secret.value, mac)
    ensures r.Ok? ==> ready && WellFormed(r.value) && r.value.paymentId == f.paymentId.value
    ensures r.Ok? <==> HasIds(f) && secret.Some? && SignatureMatches(f, secret.value, mac)
                       && ready && f.amount.Some?
    ensures r.Err? ==> r.failure.status in {BadRequest, ServerError, Unavailable}
    ensures r.Err? && r.failure.status == Unavailable
            ==> HasIds(f) && secret.Some? && SignatureMatches(f, secret.value, mac) && !ready
  {
    match Verify(f, secret, mac)
    case Err(failure) => Err(failure)
    case Ok(_) =>
      if !ready then Err(Failure(Unavailable, DatabaseUnavailable))
      else BuildRecord(f)
  }

  /** A missing payment id or signature is answered with 400 before anything
      else is looked at: the kind of payment, its other ids, the secret, the
      MAC and the store make no difference. */
  lemma MissingCredentialsFirst(f: PaymentForm, g: PaymentForm,
                                s1: Option<string>, s2: Option<string>,
                                mac1: Mac, mac2: Mac, ready1: bool, ready2: bool)
    requires !Present(f.paymentId) || !Present(f.signature)
    requires g.paymentId == f.paymentId && g.signature == f.signature
    ensures SaveDecision(f, s1, mac1, ready1) == SaveDecision(g, s2, mac2, ready2)
    ensures SaveDecision(f, s1, mac1, ready1) == Err(Failure(BadRequest, MissingFields))
  {
  }

  /** Each kind of payment checks its own id only: a recurring payment is
      refused without a subscription id whatever its order id, and a one-time
      payment without an order id whatever its subscription id. */
  lemma OwnIdChecked(f: PaymentForm, secret: Option<string>, mac: Mac, ready: bool)
    requires Present(f.paymentId) && Present(f.signature)
    ensures f.isRecurring ==>
      (SaveDecision(f, secret, mac, ready) == Err(Failure(BadRequest, MissingSubscriptionId))
       <==> !Present(f.subscriptionId))
    ensures !f.isRecurring ==>
      (SaveDecision(f, secret, mac, ready) == Err(Failure(BadRequest, MissingOrderId))
       <==> !Present(f.orderId))
  {
  }

  /** Verification succeeds if and only if the MAC of the canonical message is
      the supplied signature, and then the store decides between 503 and saving. */
  lemma VerificationIff(f: PaymentForm, secret: string, mac: Mac, ready: bool)
    requires HasIds(f)
    ensures SaveDecision(f, Some(secret), mac, ready).Err?
            && SaveDecision(f, Some(secret), mac, ready).failure == Failure(BadRequest, InvalidSignature)
            <==> mac(secret, CanonicalMessage(f)) != f.signature.value
    ensures mac(secret, CanonicalMessage(f)) == f.signature.value && !ready
            ==> SaveDecision(f, Some(secret), mac, ready) == Err(Failure(Unavailable, DatabaseUnavailable))
  {
  }

  /** The record a successful save appends: completed, of the form's kind, with
      the gateway id that kind calls for and no other, the form's payment id and
      amount, and every absent text field stored as the empty string. */
  lemma RecordContents(f: PaymentForm, secret: Option<string>, mac: Mac)
    requires SaveDecision(f, secret, mac, true).Ok?
    ensures var d := SaveDecision(f, secret, mac, true).value;
      && d.status == "completed"
      && d.isRecurring == f.isRecurring
      && (d.isRecurring ==> d.orderId == None && d.subscriptionId == f.subscriptionId)
      && (!d.isRecurring ==> d.subscriptionId == None && d.orderId == f.orderId)
      && d.paymentId == f.paymentId.value
      && Some(d.amount) == f.amount
      && d.name == TextOr(f.name) && d.email == TextOr(f.email)
      && d.contact == TextOr(f.contact) && d.address == TextOr(f.address)
      && d.pincode == TextOr(f.pincode) && d.message == TextOr(f.message)
  {
  }

  /** The position of the first bar in a message, or its length when it has none. */
  function BarIndex(m: string): (i: nat)
    ensures i <= |m|
    ensures i < |m| ==> m[i] == '|'
    ensures forall k :: 0 <= k < i ==> m[k] != '|'
  {
    if m == [] || m[0] == '|' then 0 else 1 + BarIndex(m[1..])
  }

  /** Reads a canonical message back into its two identifiers, splitting at
      the first bar; a message without a bar is not canonical. */
  function Split(m: string): (r: Option<(string, string)>)
    ensures r.None? <==> '|' !in m
    ensures r.Some? ==> '|' !in r.value.0 && m == Join(r.value.0, r.value.1)
  {
    var i := BarIndex(m);
    if i == |m| then None else Some((m[..i], m[i + 1..]))
  }

  /** Splitting undoes joining whenever the left identifier carries no bar. */
  lemma {:induction false} SplitJoin(a: string, b: string)
    requires '|' !in a
    ensures Split(Join(a, b)) == Some((a, b))
  {
    var m := Join(a, b);
    assert m[|a|] == '|';
    assert forall k :: 0 <= k < |a| ==> m[k] == a[k];
    assert BarIndex(m) == |a|;
    assert m[..|a|] == a;
    assert m[|a| + 1..] == b;
  }

  /** The bar cannot be moved: when the left identifier carries no bar, the
      canonical message determines both identifiers. */
  lemma {:induction false} JoinInjective(a: string, b: string, c: string, d: string)
    requires '|' !in a && '|' !in c
    requires Join(a, b) == Join(c, d)
    ensures a == c && b == d
  {
    SplitJoin(a, b);
    SplitJoin(c, d);
  }

  /** The canonical message determines the ids: two forms of the same kind
      with the same message carry the same ids, provided the left-hand id of
      each message carries no bar. Hence, for a MAC without collisions, one
      signature cannot verify two different pairs of ids. */
  lemma {:induction false} MessageBindsIds(f: PaymentForm, g: PaymentForm)
    requires HasIds(f) && HasIds(g) && f.isRecurring == g.isRecurring
    requires f.isRecurring ==> '|' !in f.paymentId.value && '|' !in g.paymentId.value
    requires !f.isRecurring ==> '|' !in f.orderId.value && '|' !in g.orderId.value
    requires CanonicalMessage(f) == CanonicalMessage(g)
    ensures f.paymentId == g.paymentId
    ensures f.isRecurring ==> f.subscriptionId == g.subscriptionId
    ensures !f.isRecurring ==> f.orderId == g.orderId
  {
    if f.isRecurring {
      JoinInjective(f.paymentId.value, f.subscriptionId.value, g.paymentId.value, g.subscriptionId.value);
    } else {
      JoinInjective(f.orderId.value, f.paymentId.value, g.orderId.value, g.paymentId.value);
    }
  }

  /** Without that proviso the binding fails: the one-time payments
      (`a|b`, `c`) and (`a`, `b|c`) share the message `a|b|c`, so one
      signature verifies both. */
  lemma BarInIdsCollides(secret: string, mac: Mac)
    requires mac(secret, "a|b|c") != ""
    ensures var f := PaymentForm(Some("c"), Some("a|b"), None, Some(mac(secret, "a|b|c")), false,
                                 Some(1), None, None, None, None, None, None);
            var g := f.(paymentId := Some("b|c"), orderId := Some("a"));
            SaveDecision(f, Some(secret), mac, true).Ok? && SaveDecision(g, Some(secret), mac, true).Ok?
            && f.orderId != g.orderId
  {
    var f := PaymentForm(Some("c"), Some("a|b"), None, Some(mac(secret, "a|b|c")), false,
                         Some(1), None, None, None, None, None, None);
    var g := f.(paymentId := Some("b|c"), orderId := Some("a"));
    assert CanonicalMessage(f) == "a|b|c";
    assert CanonicalMessage(g) == "a|b|c";
  }

  /** A worked example: a one-time payment `pay_1`
      for order `order_1` under the key `s` is saved exactly when its
      signature is the MAC of `order_1|pay_1`, and refused with 400 otherwise. */
  lemma OneTimeExample(mac: Mac, signature: string)
    requires signature != ""
    ensures var f := PaymentForm(Some("pay_1"), Some("order_1"), None, Some(signature), false,
                                 Some(500), None, None, None, None, None, None);
            (SaveDecision(f, Some("s"), mac, true).Ok? <==> signature == mac("s", "order_1|pay_1"))
            && (signature != mac("s", "order_1|pay_1")
                ==> SaveDecision(f, Some("s"), mac, true) == Err(Failure(BadRequest, InvalidSignature)))
  {
    var f := PaymentForm(Some("pay_1"), Some("order_1"), None, Some(signature), false,
                         Some(500), None, None, None, None, None, None);
    assert CanonicalMessage(f) == "order_1|pay_1";
  }
}
