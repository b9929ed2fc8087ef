/**
 The Mollie webhook handler. Mollie posts a payment id; the handler drops
 ids it has seen since the last clear, fetches the payment, reads its fields
 with defaults, classifies it and sends at most one branch notification to
 the Telegram chat, plus a follow-up after creating the subscription that an
 initial mandate payment with a positive recurring amount asks for.

 Calls into the gateway are recorded in `calls`; what they gave back is an
 input. Messages handed to the Telegram helper are appended to `outbox` as a
 kind tag with the fields the template shows.
 */
module MollieWebhook {
  import opened Js
  import Dedup
  import Decimal

  // ---- Inputs ----

  /** The webhook's body as read through `body.id` and friends. Any body
      other than `null` or `undefined` reads this way: a string or number body
      reads every field as missing. The handler's `Option<Body>` is `None`
      exactly for a `null` or `undefined` body, on which `body.id` throws. */
  datatype Body = Body(id: Field, paymentId: Field, resource: Field, status: Field)

  datatype Money = Money(value: Field, currency: Field)

  datatype Metadata = Metadata(email: Field, name: Field, planType: Field, recurringAmount: Field)

  datatype Details = Details(failureReason: Field)

  /** The payment object the gateway returns for `GET /v2/payments/{id}`. */
  datatype Payment = Payment(
    id: Field,
    status: Field,
    sequenceType: Field,
    customerId: Field,
    customerEmail: Field,
    amount: Option<Money>,
    metadata: Option<Metadata>,
    details: Option<Details>,
    failureReason: Field,
    statusReason: Field)

  /** The subscription object the gateway returns for `POST /v2/customers/{id}/subscriptions`. */
  datatype Subscription = Subscription(id: Field)

  /** What an awaited gateway call produced: the parsed JSON object, or an
      exception (network failure, a reply that is not JSON, a JSON `null`
      whose field is then read). */
  datatype Reply<T> = Answered(value: T) | Threw

  // ---- Outputs ----

  datatype Response = Response(code: int, text: string)

  const Ok := Response(200, "OK")
  const DuplicateIgnored := Response(200, "Duplicate ignored")
  const BadRequest := Response(400, "Bad request")
  const InternalError := Response(500, "Internal error")

  /** Entries of the duplicate set: `body.id || body.paymentId`, which may be undefined. */
  type Key = Field

  datatype GatewayCall =
    | FetchPayment(paymentId: Key)
    | CreateSubscription(
        customerId: Field, value: string, currency: string, interval: string,
        description: string, email: string, name: string, planType: string)

  datatype FailureLabel = InitialPaymentFailed | UnspecifiedPaymentFailed

  /** The Telegram messages, by template; every one carries the CET time stamp. */
  datatype Notification =
    | EarlyFailureDetected(time: string, email: string, name: string, planType: string,
        reason: string, currency: string, amount: string, reportedId: Field)
    | InitialPaymentSuccess(time: string, email: string, name: string, planType: string,
        currency: string, amount: string, recurringAmount: string, paymentId: string,
        customerId: Field, subscriptionFollows: bool)
    | SubscriptionStarted(time: string, email: string, name: string, planType: string,
        currency: string, recurringAmount: string, subscriptionId: string, customerId: Field)
    | SubscriptionCreationFailed(time: string, email: string, name: string, customerId: Field)
    | RenewalCharged(time: string, email: string, planType: string, currency: string,
        amount: string, customerId: Field)
    | RenewalFailed(time: string, email: string, planType: string, currency: string,
        amount: string, customerId: Field)
    | PaymentFailed(time: string, heading: FailureLabel, email: string, planType: string,
        currency: string, amount: string, customerId: Field)
    | PaymentPending(time: string, email: string, planType: string, currency: string, amount: string)
    | PaymentExpired(time: string, email: string, planType: string, currency: string, amount: string)
    | SubscriptionCancelled(time: string, email: string, planType: string, customerId: Field)

  /** Everything one call of the handler does. */
  datatype Outcome = Outcome(
    response: Response,
    seen: set<Key>,
    calls: seq<GatewayCall>,
    outbox: seq<Notification>)

  // ---- Field extraction ----

  /** The id the handler works on: `body.id`, else `body.paymentId` as it is. */
  function PaymentKey(b: Body): (k: Key)
    ensures Truthy(b.id) ==> k == b.id
    ensures !Truthy(b.id) ==> k == b.paymentId
  {
    OrChain([b.id], b.paymentId)
  }

  /** `payment.metadata?.x`, `payment.amount?.x`, `payment.details?.x` read a
      missing object as one whose fields are all missing. */
  function MetaOf(p: Payment): Metadata {
    match p.metadata
    case Some(m) => m
    case None => Metadata(None, None, None, None)
  }

  function MoneyOf(p: Payment): Money {
    match p.amount
    case Some(a) => a
    case None => Money(None, None)
  }

  function DetailsOf(p: Payment): Details {
    match p.details
    case Some(d) => d
    case None => Details(None)
  }

  /** Where a failure reason may be found, in the order the handler looks. */
  function FailCandidates(p: Payment): seq<Field> {
    [DetailsOf(p).failureReason, p.failureReason, p.statusReason]
  }

  /** `details?.failureReason || failureReason || statusReason || null`. */
  function FailReason(p: Payment): (r: Field)
    ensures Truthy(r) <==> Truthy(DetailsOf(p).failureReason) || Truthy(p.failureReason) || Truthy(p.statusReason)
    ensures forall i :: FirstTruthyAt(FailCandidates(p), i) ==> r == FailCandidates(p)[i]
    ensures NoneTruthy(FailCandidates(p)) ==> r == None
  {
    var cands := FailCandidates(p);
    assert Truthy(cands[0]) ==> FirstTruthyAt(cands, 0);
    assert !Truthy(cands[0]) && Truthy(cands[1]) ==> FirstTruthyAt(cands, 1);
    assert !Truthy(cands[0]) && !Truthy(cands[1]) && Truthy(cands[2]) ==> FirstTruthyAt(cands, 2);
    OrChain(cands, None)
  }

  /** The guard of the early-failure block: a failure reason on an open or failed payment. */
  predicate EarlyFailure(p: Payment) {
    Truthy(FailReason(p)) && (p.status == Some("open") || p.status == Some("failed"))
  }

  /** The fields the templates show, after their defaults. */
  datatype Fields = Fields(
    email: string, name: string, amount: string, currency: string, customerId: Field,
    sequence: string, status: Field, planType: string, recurringAmount: string, isRecurring: bool)

  /** The default recurring amount "0.00" never starts a subscription. */
  lemma DefaultAmountNotPositive()
    ensures !Decimal.ParsesPositive("0.00")
  {
    Decimal.FormattedPositive(0);
    assert Decimal.FormatHundredths(0) == "0.00";
  }

  function ExtractFields(p: Payment): (f: Fields)
    // email: metadata, then the payment's customer e-mail, then "N/A"
    ensures Truthy(MetaOf(p).email) ==> f.email == MetaOf(p).email.value
    ensures !Truthy(MetaOf(p).email) && Truthy(p.customerEmail) ==> f.email == p.customerEmail.value
    ensures !Truthy(MetaOf(p).email) && !Truthy(p.customerEmail) ==> f.email == "N/A"
    // single-candidate fields: the value when truthy, else the default
    ensures f.name == (if Truthy(MetaOf(p).name) then MetaOf(p).name.value else "Unknown")
    ensures f.amount == (if Truthy(MoneyOf(p).value) then MoneyOf(p).value.value else "0.00")
    ensures f.currency == (if Truthy(MoneyOf(p).currency) then MoneyOf(p).currency.value else "EUR")
    ensures f.sequence == (if Truthy(p.sequenceType) then p.sequenceType.value else "unknown")
    ensures f.planType == (if Truthy(MetaOf(p).planType) then MetaOf(p).planType.value else "DID Main Subscription")
    ensures f.recurringAmount == (if Truthy(MetaOf(p).recurringAmount) then MetaOf(p).recurringAmount.value else "0.00")
    // taken as they are
    ensures f.customerId == p.customerId && f.status == p.status
    // every shown text field is present
    ensures f.email != "" && f.name != "" && f.amount != "" && f.currency != ""
    ensures f.sequence != "" && f.planType != "" && f.recurringAmount != ""
    // a subscription follows exactly when parseFloat(recurringAmount) > 0,
    // so never when the metadata has no recurring amount
    ensures f.isRecurring <==> Decimal.ParsesPositive(f.recurringAmount)
    ensures !Truthy(MetaOf(p).recurringAmount) ==> !f.isRecurring
  {
    var m := MetaOf(p);
    var emails := [m.email, p.customerEmail];
    assert Truthy(emails[0]) ==> FirstTruthyAt(emails, 0);
    assert !Truthy(emails[0]) && Truthy(emails[1]) ==> FirstTruthyAt(emails, 1);
    var recurring := OrDefault([m.recurringAmount], "0.00");
    OrDefaultSingle(m.name, "Unknown");
    OrDefaultSingle(MoneyOf(p).value, "0.00");
    OrDefaultSingle(MoneyOf(p).currency, "EUR");
    OrDefaultSingle(p.sequenceType, "unknown");
    OrDefaultSingle(m.planType, "DID Main Subscription");
    OrDefaultSingle(m.recurringAmount, "0.00");
    DefaultAmountNotPositive();
    Fields(
      email := OrDefault(emails, "N/A"),
      name := OrDefault([m.name], "Unknown"),
      amount := OrDefault([MoneyOf(p).value], "0.00"),
      currency := OrDefault([MoneyOf(p).currency], "EUR"),
      customerId := p.customerId,
      sequence := OrDefault([p.sequenceType], "unknown"),
      status := p.status,
      planType := OrDefault([m.planType], "DID Main Subscription"),
      recurringAmount := recurring,
      isRecurring := Decimal.ParsesPositive(recurring))
  }

  // ---- Classification ----

  /** The branches of the handler's `if / else if` chain. */
  datatype Branch =
    | InitialPaid
    | RenewalPaid
    | RenewalFailedBranch
    | OtherFailed(heading: FailureLabel)
    | Pending
    | Expired
    | Cancelled
    | Unmatched

  /** One of the payment-status branches takes the payment. */
  predicate StatusClaims(status: Field, sequence: string) {
    || (status == Some("paid") && (sequence == "first" || sequence == "recurring"))
    || status == Some("failed")
    || status == Some("open")
    || status == Some("expired")
  }

  /** The webhook body itself reports a cancelled subscription. */
  predicate BodyCancelsSubscription(b: Body) {
    b.resource == Some("subscription") && b.status == Some("canceled")
  }

  /** First match wins; each branch is taken exactly under the conditions below. */
  function Classify(status: Field, sequence: string, b: Body): (br: Branch)
    ensures br == InitialPaid <==> status == Some("paid") && sequence == "first"
    ensures br == RenewalPaid <==> status == Some("paid") && sequence == "recurring"
    ensures br == RenewalFailedBranch <==> status == Some("failed") && sequence == "recurring"
    ensures br.OtherFailed? <==> status == Some("failed") && sequence != "recurring"
    ensures br.OtherFailed? ==> (br.heading == InitialPaymentFailed <==> sequence == "first")
    ensures br == Pending <==> status == Some("open")
    ensures br == Expired <==> status == Some("expired")
    ensures br == Cancelled <==> !StatusClaims(status, sequence) && BodyCancelsSubscription(b)
    ensures br == Unmatched <==> !StatusClaims(status, sequence) && !BodyCancelsSubscription(b)
  {
    if status == Some("paid") && sequence == "first" then InitialPaid
    else if status == Some("paid") && sequence == "recurring" then RenewalPaid
    else if status == Some("failed") && sequence == "recurring" then RenewalFailedBranch
    else if status == Some("failed") && sequence != "recurring" then
      OtherFailed(if sequence == "first" then InitialPaymentFailed else UnspecifiedPaymentFailed)
    else if status == Some("open") then Pending
    else if status == Some("expired") then Expired
    else if BodyCancelsSubscription(b) then Cancelled
    else Unmatched
  }

  // ---- The branches' effects ----

  /** What the classified part of one call does. */
  datatype Step = Step(response: Response, calls: seq<GatewayCall>, outbox: seq<Notification>)

  /** The subscription request for an initial payment: the recurring amount in
      euro, monthly, described after the plan. */
  function SubscriptionRequest(f: Fields): GatewayCall {
    CreateSubscription(f.customerId, f.recurringAmount, "EUR", "1 month",
                       f.planType + " Subscription", f.email, f.name, f.planType)
  }

  /** At most one branch message, plus the subscription follow-up after an
      initial payment; the only gateway call is the subscription request. */
  predicate WellFormedStep(st: Step, f: Fields) {
    && |st.outbox| <= 2
    && (|st.outbox| == 2 ==>
         && st.outbox[0].InitialPaymentSuccess?
         && (st.outbox[1].SubscriptionStarted? || st.outbox[1].SubscriptionCreationFailed?))
    && (forall i :: 0 <= i < |st.outbox| ==> !st.outbox[i].EarlyFailureDetected?)
    && (st.calls == [] || st.calls == [SubscriptionRequest(f)])
    && (st.response == Ok || st.response == InternalError)
  }

  function Respond(b: Body, paymentId: string, f: Fields, time: string, subReply: Reply<Subscription>): (st: Step)
    ensures WellFormedStep(st, f)
  {
    match Classify(f.status, f.sequence, b)
    case InitialPaid =>
      var success := InitialPaymentSuccess(time, f.email, f.name, f.planType, f.currency, f.amount,
                                           f.recurringAmount, paymentId, f.customerId, f.isRecurring);
      if !f.isRecurring then Step(Ok, [], [success])
      else
        var call := SubscriptionRequest(f);
        (match subReply
         case Threw => Step(InternalError, [call], [success])
         case Answered(s) =>
           if Truthy(s.id) then
             Step(Ok, [call], [success, SubscriptionStarted(time, f.email, f.name, f.planType, f.currency,
                                                          f.recurringAmount, s.id.value, f.customerId)])
           else
             Step(Ok, [call], [success, SubscriptionCreationFailed(time, f.email, f.name, f.customerId)]))
    case RenewalPaid =>
      Step(Ok, [], [RenewalCharged(time, f.email, f.planType, f.currency, f.amount, f.customerId)])
    case RenewalFailedBranch =>
      Step(Ok, [], [RenewalFailed(time, f.email, f.planType, f.currency, f.amount, f.customerId)])
    case OtherFailed(heading) =>
      Step(Ok, [], [PaymentFailed(time, heading, f.email, f.planType, f.currency, f.amount, f.customerId)])
    case Pending =>
      Step(Ok, [], [PaymentPending(time, f.email, f.planType, f.currency, f.amount)])
    case Expired =>
      Step(Ok, [], [PaymentExpired(time, f.email, f.planType, f.currency, f.amount)])
    case Cancelled =>
      Step(Ok, [], [SubscriptionCancelled(time, f.email, f.planType, f.customerId)])
    case Unmatched =>
      Step(Ok, [], [])
  }

  // ---- The handler ----

  /** True when `o` did no work at all: no gateway call, no message. */
  predicate Quiet(o: Outcome) {
    o.calls == [] && o.outbox == []
  }

  /** An open or failed payment gets exactly one branch message and no
      further gateway call. */
  lemma FailingStepSendsOne(b: Body, paymentId: string, f: Fields, time: string, subReply: Reply<Subscription>)
    requires f.status == Some("open") || f.status == Some("failed")
    ensures var st := Respond(b, paymentId, f, time, subReply);
            st.response == Ok && st.calls == [] && |st.outbox| == 1 && !st.outbox[0].EarlyFailureDetected?
  {
    var br := Classify(f.status, f.sequence, b);
    assert br == RenewalFailedBranch || br.OtherFailed? || br == Pending;
  }

  /** The early-failure message the handler means to send. */
  function EarlyFailureMessage(p: Payment, time: string): Notification
    requires EarlyFailure(p)
  {
    var f := ExtractFields(p);
    EarlyFailureDetected(time, f.email, f.name, f.planType, FailReason(p).value, f.currency, f.amount, p.id)
  }

  /** What happens once the payment object has been fetched. With
      `extractFirst` false it is the code as written: the early-failure
      message reads `email`, `name`, `planType`, `currency` and `amount`
      before their `const` declarations run, which throws a ReferenceError
      that the outer `catch` turns into a 500. With `extractFirst` true the
      fields are read first and the message is sent. */
  function AfterFetch(b: Body, p: Payment, time: string, subReply: Reply<Subscription>,
                      extractFirst: bool): (st: Step)
    ensures EarlyFailure(p) && !extractFirst ==> st == Step(InternalError, [], [])
    ensures EarlyFailure(p) && extractFirst ==>
      1 <= |st.outbox| <= 2 && st.outbox[0].EarlyFailureDetected? && st.response != InternalError
    ensures EarlyFailure(p) && extractFirst && !Truthy(p.id) ==>
      st == Step(BadRequest, [], [EarlyFailureMessage(p, time)])
    ensures EarlyFailure(p) && extractFirst && Truthy(p.id) ==>
      var r := Respond(b, p.id.value, ExtractFields(p), time, subReply);
      st.response == r.response && st.calls == r.calls && st.outbox == [EarlyFailureMessage(p, time)] + r.outbox
    ensures !EarlyFailure(p) && !Truthy(p.id) ==> st == Step(BadRequest, [], [])
    ensures !EarlyFailure(p) && Truthy(p.id) ==> WellFormedStep(st, ExtractFields(p))
    ensures st.response.code == 200 || st.response.code == 400 || st.response.code == 500
  {
    var f := ExtractFields(p);
    if !EarlyFailure(p) then
      if !Truthy(p.id) then Step(BadRequest, [], [])
      else Respond(b, p.id.value, f, time, subReply)
    else if !extractFirst then Step(InternalError, [], [])
    else
      var early := EarlyFailureMessage(p, time);
      if !Truthy(p.id) then Step(BadRequest, [], [early])
      else
        var st := Respond(b, p.id.value, f, time, subReply);
        FailingStepSendsOne(b, p.id.value, f, time, subReply);
        Step(st.response, st.calls, [early] + st.outbox)
  }

  /** The handler: duplicate check, fetch, then the rest. */
  function Handle(seen: set<Key>, body: Option<Body>, time: string, fetched: Reply<Payment>,
                  subReply: Reply<Subscription>, extractFirst: bool): (o: Outcome)
    ensures body.None? ==> o.response == InternalError && o.seen == seen && Quiet(o)
    ensures body.Some? && PaymentKey(body.value) in seen ==>
      o.response == DuplicateIgnored && o.seen == seen && Quiet(o)
    ensures body.Some? && PaymentKey(body.value) !in seen ==>
      && o.seen == seen + {PaymentKey(body.value)}
      && |o.calls| >= 1 && o.calls[0] == FetchPayment(PaymentKey(body.value))
      && (fetched.Threw? ==> o.response == InternalError && o.calls == [o.calls[0]] && o.outbox == [])
      && (fetched.Answered? ==>
            var st := AfterFetch(body.value, fetched.value, time, subReply, extractFirst);
            o.response == st.response && o.calls == [o.calls[0]] + st.calls && o.outbox == st.outbox)
  {
    match body
    case None => Outcome(InternalError, seen, [], [])   // reading `body.id` throws
    case Some(b) =>
      var key := PaymentKey(b);
      var (verdict, seen') := Dedup.Receive(seen, key);
      if verdict == Dedup.Duplicate then Outcome(DuplicateIgnored, seen, [], [])
      else
        var fetch := FetchPayment(key);
        match fetched
        case Threw => Outcome(InternalError, seen', [fetch], [])
        case Answered(p) =>
          var st := AfterFetch(b, p, time, subReply, extractFirst);
          Outcome(st.response, seen', [fetch] + st.calls, st.outbox)
  }

  /** The webhook as written. */
  function HandleWebhook(seen: set<Key>, body: Option<Body>, time: string, fetched: Reply<Payment>,
                         subReply: Reply<Subscription>): (o: Outcome)
    // a null or undefined body throws before the duplicate check
    ensures body.None? ==> o.response == InternalError && o.seen == seen && Quiet(o)
    // a duplicate is acknowledged and nothing else happens
    ensures body.Some? && PaymentKey(body.value) in seen ==>
      o.response == DuplicateIgnored && o.seen == seen && Quiet(o)
    // a new id is recorded before anything else, and the payment is fetched first
    ensures body.Some? && PaymentKey(body.value) !in seen ==>
      o.seen == seen + {PaymentKey(body.value)} && |o.calls| >= 1 && o.calls[0] == FetchPayment(PaymentKey(body.value))
    // at most one branch message, plus the subscription follow-up after an initial payment
    ensures |o.outbox| <= 2
    ensures |o.outbox| == 2 ==>
      && o.outbox[0].InitialPaymentSuccess?
      && (o.outbox[1].SubscriptionStarted? || o.outbox[1].SubscriptionCreationFailed?)
    ensures forall i :: 0 <= i < |o.outbox| ==> !o.outbox[i].EarlyFailureDetected?
    ensures o.response.code == 200 || o.response.code == 400 || o.response.code == 500
  {
    Handle(seen, body, time, fetched, subReply, false)
  }

  /** The webhook with field extraction moved ahead of the early-failure guard. */
  function HandleWebhookCorrected(seen: set<Key>, body: Option<Body>, time: string, fetched: Reply<Payment>,
                                  subReply: Reply<Subscription>): (o: Outcome)
    ensures body.Some? && PaymentKey(body.value) in seen ==>
      o.response == DuplicateIgnored && o.seen == seen && Quiet(o)
    // an early-detected failure is reported first, and the call does not fail on it
    ensures body.Some? && PaymentKey(body.value) !in seen && fetched.Answered? && EarlyFailure(fetched.value) ==>
      |o.outbox| >= 1 && o.outbox[0].EarlyFailureDetected? && o.response != InternalError
    // ... carrying the reason and the payment's fields, and then the call goes on as usual:
    // 400 without a payment id, otherwise the classified step
    ensures body.Some? && PaymentKey(body.value) !in seen && fetched.Answered? && EarlyFailure(fetched.value) ==>
      var p := fetched.value;
      var fetch := FetchPayment(PaymentKey(body.value));
      && o.seen == seen + {PaymentKey(body.value)}
      && o.outbox[0] == EarlyFailureMessage(p, time)
      && (!Truthy(p.id) ==> o.response == BadRequest && o.calls == [fetch] && o.outbox == [EarlyFailureMessage(p, time)])
      && (Truthy(p.id) ==>
            var st := Respond(body.value, p.id.value, ExtractFields(p), time, subReply);
            o.response == st.response && o.calls == [fetch] + st.calls && o.outbox[1..] == st.outbox)
    ensures |o.outbox| <= 2
  {
    Handle(seen, body, time, fetched, subReply, true)
  }

  // ---- Properties ----

  /** The call gets past the duplicate check, the fetch, the early-failure
      guard and the id check, so the classifier decides what happens. */
  predicate ReachesClassifier(seen: set<Key>, body: Option<Body>, fetched: Reply<Payment>) {
    && body.Some?
    && PaymentKey(body.value) !in seen
    && fetched.Answered?
    && !EarlyFailure(fetched.value)
    && Truthy(fetched.value.id)
  }

  /** Past the classifier's gate, the call records the id, fetches, and then
      does exactly what the classified step does. */
  lemma ClassifiedOutcome(seen: set<Key>, body: Option<Body>, time: string, fetched: Reply<Payment>,
                          subReply: Reply<Subscription>)
    requires ReachesClassifier(seen, body, fetched)
    ensures var p := fetched.value;
            var st := Respond(body.value, p.id.value, ExtractFields(p), time, subReply);
            HandleWebhook(seen, body, time, fetched, subReply)
              == Outcome(st.response, seen + {PaymentKey(body.value)},
                         [FetchPayment(PaymentKey(body.value))] + st.calls, st.outbox)
  {
  }

  /** The classified step of a paid first payment. */
  lemma InitialStep(b: Body, paymentId: string, f: Fields, time: string, subReply: Reply<Subscription>)
    requires f.status == Some("paid") && f.sequence == "first"
    ensures var st := Respond(b, paymentId, f, time, subReply);
            && |st.outbox| >= 1
            && st.outbox[0].InitialPaymentSuccess?
            && st.outbox[0].subscriptionFollows == f.isRecurring
            && (!f.isRecurring ==> st.response == Ok && st.calls == [] && |st.outbox| == 1)
            && (f.isRecurring ==> st.calls == [SubscriptionRequest(f)])
            && (f.isRecurring && subReply.Answered? ==>
                  && st.response == Ok
                  && |st.outbox| == 2
                  && (st.outbox[1].SubscriptionStarted? <==> Truthy(subReply.value.id))
                  && (st.outbox[1].SubscriptionStarted? ==> st.outbox[1].subscriptionId == subReply.value.id.value))
            && (f.isRecurring && subReply.Threw? ==> st.response == InternalError && |st.outbox| == 1)
  {
    assert Classify(f.status, f.sequence, b) == InitialPaid;
  }

  /** A second delivery of the same body, with no clear in between, is
      acknowledged as a duplicate: no fetch, no message, the set unchanged. */
  lemma SecondDeliveryIgnored(seen: set<Key>, b: Body, time: string, fetched: Reply<Payment>,
                              subReply: Reply<Subscription>, time': string, fetched': Reply<Payment>,
                              subReply': Reply<Subscription>)
    ensures var o := HandleWebhook(seen, Some(b), time, fetched, subReply);
            HandleWebhook(o.seen, Some(b), time', fetched', subReply') == Outcome(DuplicateIgnored, o.seen, [], [])
  {
  }

  /** After the timer clears the set, a delivery is processed again from the fetch on. */
  lemma ClearedIdProcessedAgain(seen: set<Key>, b: Body, time: string, fetched: Reply<Payment>,
                                subReply: Reply<Subscription>)
    ensures var o := HandleWebhook(Dedup.Clear(seen), Some(b), time, fetched, subReply);
            && o.response != DuplicateIgnored
            && |o.calls| >= 1 && o.calls[0] == FetchPayment(PaymentKey(b))
            && o.seen == {PaymentKey(b)}
  {
  }

  /** A fetch that throws gives 500 and no message; the id stays recorded. */
  lemma FetchFailureIsInternalError(seen: set<Key>, b: Body, time: string, subReply: Reply<Subscription>)
    requires PaymentKey(b) !in seen
    ensures var o := HandleWebhook(seen, Some(b), time, Threw, subReply);
            && o.response == InternalError
            && o.calls == [FetchPayment(PaymentKey(b))]
            && o.outbox == []
            && PaymentKey(b) in o.seen
  {
  }

  /** As written, the early-failure branch throws before it can send: 500,
      no message, and the id stays in the set, so Mollie's retry of the same
      id within the clearing window is dropped as a duplicate. */
  lemma EarlyFailureCrashes(seen: set<Key>, b: Body, time: string, p: Payment, subReply: Reply<Subscription>,
                            time': string, fetched': Reply<Payment>, subReply': Reply<Subscription>)
    requires PaymentKey(b) !in seen
    requires EarlyFailure(p)
    ensures var o := HandleWebhook(seen, Some(b), time, Answered(p), subReply);
            && o.response == InternalError
            && o.calls == [FetchPayment(PaymentKey(b))]
            && o.outbox == []
            && HandleWebhook(o.seen, Some(b), time', fetched', subReply').response == DuplicateIgnored
  {
  }

  /** Without an early failure, a payment object with no id is a bad request
      and nothing is sent. */
  lemma MissingPaymentIdRejected(seen: set<Key>, b: Body, time: string, p: Payment, subReply: Reply<Subscription>)
    requires PaymentKey(b) !in seen
    requires !EarlyFailure(p) && !Truthy(p.id)
    ensures var o := HandleWebhook(seen, Some(b), time, Answered(p), subReply);
            && o.response == BadRequest
            && o.calls == [FetchPayment(PaymentKey(b))]
            && o.outbox == []
  {
  }

  /** Which message announces which branch. */
  predicate Announces(br: Branch, n: Notification) {
    match br
    case InitialPaid => n.InitialPaymentSuccess?
    case RenewalPaid => n.RenewalCharged?
    case RenewalFailedBranch => n.RenewalFailed?
    case OtherFailed(h) => n.PaymentFailed? && n.heading == h
    case Pending => n.PaymentPending?
    case Expired => n.PaymentExpired?
    case Cancelled => n.SubscriptionCancelled?
    case Unmatched => false
  }

  /** Once classified, the first message (if any) announces the branch taken;
      an unmatched status sends nothing and is still acknowledged with 200;
      every branch but the initial payment sends exactly one message and calls
      nothing further. */
  lemma ClassifiedCallAnnouncesBranch(seen: set<Key>, body: Option<Body>, time: string, fetched: Reply<Payment>,
                                      subReply: Reply<Subscription>)
    requires ReachesClassifier(seen, body, fetched)
    ensures var o := HandleWebhook(seen, body, time, fetched, subReply);
            var f := ExtractFields(fetched.value);
            var br := Classify(f.status, f.sequence, body.value);
            && (br == Unmatched <==> o.outbox == [])
            && (br == Unmatched ==> o.response == Ok && o.calls == [FetchPayment(PaymentKey(body.value))])
            && (br != Unmatched ==> Announces(br, o.outbox[0]))
            && (br != Unmatched && br != InitialPaid ==>
                  o.response == Ok && |o.outbox| == 1 && o.calls == [FetchPayment(PaymentKey(body.value))])
  {
    var f := ExtractFields(fetched.value);
    var st := Respond(body.value, fetched.value.id.value, f, time, subReply);
    var o := HandleWebhook(seen, body, time, fetched, subReply);
    ClassifiedOutcome(seen, body, time, fetched, subReply);
    ClassifiedStep(body.value, fetched.value.id.value, f, time, subReply);
    assert o.response == st.response && o.outbox == st.outbox;
    assert o.calls == [FetchPayment(PaymentKey(body.value))] + st.calls;
  }

  /** The classified step announces its branch first; only the initial
      payment can call the gateway or send a second message. */
  lemma ClassifiedStep(b: Body, paymentId: string, f: Fields, time: string, subReply: Reply<Subscription>)
    ensures var st := Respond(b, paymentId, f, time, subReply);
            var br := Classify(f.status, f.sequence, b);
            && (br == Unmatched <==> st.outbox == [])
            && (br == Unmatched ==> st.response == Ok && st.calls == [])
            && (br != Unmatched ==> Announces(br, st.outbox[0]))
            && (br != Unmatched && br != InitialPaid ==> st.response == Ok && |st.outbox| == 1 && st.calls == [])
  {
  }

  /** Every failed payment that reaches the classifier is reported exactly
      once: as a renewal failure when its sequence is "recurring", otherwise
      under the initial heading when the sequence is "first" and the
      unspecified one else. */
  lemma FailedPaymentReportedOnce(seen: set<Key>, body: Option<Body>, time: string, fetched: Reply<Payment>,
                                  subReply: Reply<Subscription>)
    requires ReachesClassifier(seen, body, fetched)
    requires fetched.value.status == Some("failed")
    ensures var o := HandleWebhook(seen, body, time, fetched, subReply);
            var sequence := ExtractFields(fetched.value).sequence;
            && o.response == Ok
            && |o.outbox| == 1
            && (o.outbox[0].RenewalFailed? <==> sequence == "recurring")
            && (o.outbox[0].PaymentFailed? <==> sequence != "recurring")
            && (o.outbox[0].PaymentFailed? ==> (o.outbox[0].heading == InitialPaymentFailed <==> sequence == "first"))
  {
  }

  /** A paid first payment always announces the initial payment. A
      subscription is requested exactly when the recurring amount is positive,
      for that amount in euro every month; the follow-up says "started"
      exactly when the gateway's reply carries an id. */
  lemma InitialPaymentFlow(seen: set<Key>, body: Option<Body>, time: string, fetched: Reply<Payment>,
                           subReply: Reply<Subscription>)
    requires ReachesClassifier(seen, body, fetched)
    requires fetched.value.status == Some("paid") && fetched.value.sequenceType == Some("first")
    ensures var o := HandleWebhook(seen, body, time, fetched, subReply);
            var f := ExtractFields(fetched.value);
            var fetch := FetchPayment(PaymentKey(body.value));
            && |o.outbox| >= 1
            && o.outbox[0].InitialPaymentSuccess?
            && o.outbox[0].subscriptionFollows == f.isRecurring
            && (!f.isRecurring ==> o.response == Ok && o.calls == [fetch] && |o.outbox| == 1)
            && (f.isRecurring ==>
                  o.calls == [fetch, SubscriptionRequest(f)])
            && (f.isRecurring && subReply.Answered? ==>
                  && o.response == Ok
                  && |o.outbox| == 2
                  && (o.outbox[1].SubscriptionStarted? <==> Truthy(subReply.value.id))
                  && (o.outbox[1].SubscriptionStarted? ==> o.outbox[1].subscriptionId == subReply.value.id.value))
            && (f.isRecurring && subReply.Threw? ==> o.response == InternalError && |o.outbox| == 1)
  {
    var f := ExtractFields(fetched.value);
    var st := Respond(body.value, fetched.value.id.value, f, time, subReply);
    var o := HandleWebhook(seen, body, time, fetched, subReply);
    ClassifiedOutcome(seen, body, time, fetched, subReply);
    InitialStep(body.value, fetched.value.id.value, f, time, subReply);
    assert o.response == st.response && o.outbox == st.outbox;
    assert o.calls == [FetchPayment(PaymentKey(body.value))] + st.calls;
    if f.isRecurring {
      assert st.calls == [SubscriptionRequest(f)];
      assert o.calls == [FetchPayment(PaymentKey(body.value)), SubscriptionRequest(f)];
    } else {
      assert o.calls == [FetchPayment(PaymentKey(body.value))];
    }
  }

  /** A recurring amount in the gateway's two-decimal format triggers a
      subscription exactly when it is above zero. */
  lemma TwoDecimalRecurringAmount(p: Payment, n: int)
    requires MetaOf(p).recurringAmount == Some(Decimal.FormatHundredths(n))
    ensures ExtractFields(p).isRecurring <==> n > 0
  {
    Decimal.FormattedPositive(n);
  }

  /** The corrected handler differs from the code as written only when the
      early-failure guard fires. */
  lemma CorrectedAgreesElsewhere(seen: set<Key>, body: Option<Body>, time: string, fetched: Reply<Payment>,
                                 subReply: Reply<Subscription>)
    requires fetched.Answered? ==> !EarlyFailure(fetched.value)
    ensures HandleWebhookCorrected(seen, body, time, fetched, subReply)
         == HandleWebhook(seen, body, time, fetched, subReply)
  {
  }

  /** A failed first payment carrying a failure reason, delivered once. */
  const ExampleBody := Body(Some("tr_1"), None, None, None)
  const ExamplePayment := Payment(Some("tr_1"), Some("failed"), Some("first"), Some("cst_1"), None, None,
                                  None, Some(Details(Some("insufficient_funds"))), None, None)

  /** The example trips the early-failure guard and shows the defaults. */
  lemma ExampleFields()
    ensures EarlyFailure(ExamplePayment) && FailReason(ExamplePayment) == Some("insufficient_funds")
    ensures var f := ExtractFields(ExamplePayment);
            && f.email == "N/A" && f.planType == "DID Main Subscription"
            && f.currency == "EUR" && f.amount == "0.00" && f.customerId == Some("cst_1")
            && Classify(f.status, f.sequence, ExampleBody) == OtherFailed(InitialPaymentFailed)
  {
    assert FailReason(ExamplePayment) == Some("insufficient_funds");
  }

  /** The code as written answers the example with 500 and sends nothing. */
  lemma EarlyFailureExample(time: string)
    ensures var o := HandleWebhook({}, Some(ExampleBody), time, Answered(ExamplePayment), Threw);
            o.response == InternalError && o.outbox == []
  {
    ExampleFields();
  }

  /** The corrected handler reports the early failure and then the
      initial-payment failure, and answers 200. */
  lemma EarlyFailureExampleCorrected(time: string)
    ensures var o := HandleWebhookCorrected({}, Some(ExampleBody), time, Answered(ExamplePayment), Threw);
            && o.response == Ok
            && |o.outbox| == 2
            && o.outbox[0].EarlyFailureDetected? && o.outbox[0].reason == "insufficient_funds"
            && o.outbox[1] == PaymentFailed(time, InitialPaymentFailed, "N/A", "DID Main Subscription",
                                            "EUR", "0.00", Some("cst_1"))
  {
    ExampleFields();
    var f := ExtractFields(ExamplePayment);
    var st := Respond(ExampleBody, "tr_1", f, time, Threw);
    assert st == Step(Ok, [], [PaymentFailed(time, InitialPaymentFailed, "N/A", "DID Main Subscription",
                                             "EUR", "0.00", Some("cst_1"))]);
    var o := HandleWebhookCorrected({}, Some(ExampleBody), time, Answered(ExamplePayment), Threw);
    assert o.outbox == [o.outbox[0]] + o.outbox[1..];
  }
}
