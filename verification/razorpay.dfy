/**
 The Razorpay webhook handler. It accepts only POST, reads the event name
 and the payment or subscription entity from the payload, and for each of
 four events sends one Telegram message built from a template and passed
 whole through `escapeMarkdownV2` (so the template's own `*` markers reach
 the chat escaped too). Every call that does not throw answers 200.
 */
module RazorpayWebhook {
  import opened Js
  import opened Text
  import Decimal
  import MarkdownV2

  // ---- Inputs ----

  datatype ContactDetails = ContactDetails(email: Field, contact: Field)

  datatype Notes = Notes(email: Field, phone: Field, product: Field, planName: Field, subscriptionName: Field)

  /** A payment or subscription entity of the payload. Both kinds go through
      the same contact extractors, so one record holds the fields either is
      read for; amounts are integer paise. */
  datatype Entity = Entity(
    id: Field,
    amount: Option<int>,
    currency: Field,
    email: Field,
    customerEmail: Field,
    customerDetails: Option<ContactDetails>,
    notes: Option<Notes>,
    contactEmail: Field,
    customerNotifyEmail: Field,
    contact: Field,
    customerContact: Field,
    phone: Field,
    errorDescription: Field,
    planId: Field,
    totalCount: Option<int>,
    cancelReason: Field)

  /** `body.event`, `body.payload?.payment?.entity`, `body.payload?.subscription?.entity`. */
  datatype Body = Body(event: Field, payment: Option<Entity>, subscription: Option<Entity>)

  /** The request body as the handler first reads it. `Parsed` is any body
      whose `body.event` can be read: an object (a missing body reads as
      `{}`), or a string that parses to an object or a non-null primitive,
      whose fields all read as missing. `Unparseable` is a string body that
      `JSON.parse` rejects, or that parses to `null`, so that reading
      `body.event` throws. */
  datatype RawBody = Parsed(body: Body) | Unparseable

  // ---- Outputs ----

  /** 405 `{message}`, 200 `{status: "ok"}` or 500 `{status: "error", error}`. */
  datatype Response = MethodNotAllowed | StatusOk | StatusError {
    function Code(): int {
      match this
      case MethodNotAllowed => 405
      case StatusOk => 200
      case StatusError => 500
    }
  }

  /** The Telegram texts handed to the send helper, already escaped. */
  datatype Outcome = Outcome(response: Response, outbox: seq<string>)

  // ---- Field extraction ----

  function NotesOf(e: Entity): Notes {
    match e.notes
    case Some(n) => n
    case None => Notes(None, None, None, None, None)
  }

  function ContactDetailsOf(e: Entity): ContactDetails {
    match e.customerDetails
    case Some(d) => d
    case None => ContactDetails(None, None)
  }

  function EmailCandidates(e: Entity): seq<Field> {
    [e.email, e.customerEmail, ContactDetailsOf(e).email, NotesOf(e).email, e.contactEmail, e.customerNotifyEmail]
  }

  function PhoneCandidates(e: Entity): seq<Field> {
    [e.contact, e.customerContact, ContactDetailsOf(e).contact, NotesOf(e).phone, e.phone]
  }

  /** `extractEmail`: the first truthy candidate in the listed order, else "N/A". */
  function ExtractEmail(e: Entity): (r: string)
    ensures forall i :: FirstTruthyAt(EmailCandidates(e), i) ==> r == EmailCandidates(e)[i].value
    ensures NoneTruthy(EmailCandidates(e)) ==> r == "N/A"
    ensures r != ""
  {
    OrDefault(EmailCandidates(e), "N/A")
  }

  /** `extractPhone`: the first truthy candidate in the listed order, else "N/A". */
  function ExtractPhone(e: Entity): (r: string)
    ensures forall i :: FirstTruthyAt(PhoneCandidates(e), i) ==> r == PhoneCandidates(e)[i].value
    ensures NoneTruthy(PhoneCandidates(e)) ==> r == "N/A"
    ensures r != ""
  {
    OrDefault(PhoneCandidates(e), "N/A")
  }

  /** `(amount / 100).toFixed(2)`: two decimals that read back as the paise
      count; a missing amount divides to NaN. */
  function FormatAmount(amount: Option<int>): (r: string)
    ensures amount.Some? ==> Decimal.ParseHundredths(r) == Some(amount.value)
    ensures amount.Some? ==> |r| >= 4 && r[|r| - 3] == '.' && (r[0] == '-' <==> amount.value < 0)
    ensures amount.Some? ==> Decimal.CanonicalDigits(r[(if amount.value < 0 then 1 else 0)..|r| - 3])
    ensures amount.None? ==> r == "NaN"
  {
    match amount
    case Some(n) => Decimal.FormatHundredths(n)
    case None => "NaN"
  }

  /** `currency || "INR"`. */
  function CurrencyOf(e: Entity): (r: string)
    ensures Truthy(e.currency) ==> r == e.currency.value
    ensures !Truthy(e.currency) ==> r == "INR"
  {
    OrDefault([e.currency], "INR")
  }

  /** `notes?.product || plan_id || <default>`, the subscription events' plan name. */
  function PlanName(s: Entity, default: string): (r: string)
    ensures Truthy(NotesOf(s).product) ==> r == NotesOf(s).product.value
    ensures !Truthy(NotesOf(s).product) && Truthy(s.planId) ==> r == s.planId.value
    ensures !Truthy(NotesOf(s).product) && !Truthy(s.planId) ==> r == default
  {
    var cands := [NotesOf(s).product, s.planId];
    assert Truthy(cands[0]) ==> FirstTruthyAt(cands, 0);
    assert !Truthy(cands[0]) && Truthy(cands[1]) ==> FirstTruthyAt(cands, 1);
    OrDefault(cands, default)
  }

  /** The captured payment's product: `notes.product`, `notes.plan_name`,
      `notes.subscription_name`, else the button label. */
  function Product(p: Entity): (r: string)
    ensures Truthy(NotesOf(p).product) ==> r == NotesOf(p).product.value
    ensures !Truthy(NotesOf(p).product) && Truthy(NotesOf(p).planName) ==> r == NotesOf(p).planName.value
    ensures (!Truthy(NotesOf(p).product) && !Truthy(NotesOf(p).planName) && Truthy(NotesOf(p).subscriptionName))
            ==> r == NotesOf(p).subscriptionName.value
    ensures (!Truthy(NotesOf(p).product) && !Truthy(NotesOf(p).planName) && !Truthy(NotesOf(p).subscriptionName))
            ==> r == "Subscription (via Razorpay Button)"
  {
    var n := NotesOf(p);
    var cands := [n.product, n.planName, n.subscriptionName];
    assert Truthy(cands[0]) ==> FirstTruthyAt(cands, 0);
    assert !Truthy(cands[0]) && Truthy(cands[1]) ==> FirstTruthyAt(cands, 1);
    assert !Truthy(cands[0]) && !Truthy(cands[1]) && Truthy(cands[2]) ==> FirstTruthyAt(cands, 2);
    OrDefault(cands, "Subscription (via Razorpay Button)")
  }

  /** `total_count || "∞"`, shown as the integer's digits. */
  function CycleCount(s: Entity): (r: string)
    ensures !TruthyNumber(s.totalCount) ==> r == "∞"
    ensures s.totalCount.Some? && s.totalCount.value > 0 ==>
      Decimal.CanonicalDigits(r) && r[0] != '0' && Decimal.DigitsValue(r) == s.totalCount.value
    ensures s.totalCount.Some? && s.totalCount.value < 0 ==>
      |r| >= 2 && r[0] == '-' && Decimal.CanonicalDigits(r[1..]) && Decimal.DigitsValue(r[1..]) == -s.totalCount.value
  {
    if TruthyNumber(s.totalCount) then Decimal.FormatInteger(s.totalCount.value) else "∞"
  }

  const DefaultCancelReason := "Cancelled manually or after failed rebills"

  /** The cancellation heading turns into the rebill-failure one when the
      reason mentions either phrase. */
  predicate FailedRebill(reason: string) {
    Includes(reason, "multiple failed rebill") || Includes(reason, "failed payment")
  }

  /** The heading test is what the front-to-back search of `includes` answers. */
  lemma FailedRebillByScan(reason: string)
    ensures FailedRebill(reason) <==> Scan(reason, "multiple failed rebill") || Scan(reason, "failed payment")
  {
    ScanFindsOccurrence(reason, "multiple failed rebill");
    ScanFindsOccurrence(reason, "failed payment");
  }

  /** A reason without the letter 'p' can contain neither phrase. */
  lemma NoLetterPNoRebillFailure(reason: string)
    requires 'p' !in reason
    ensures !FailedRebill(reason)
  {
    if Includes(reason, "failed payment") {
      IncludedCharacters(reason, "failed payment", 7);
    }
    if Includes(reason, "multiple failed rebill") {
      IncludedCharacters(reason, "multiple failed rebill", 5);
    }
  }

  /** The default reason gives the plain "Subscription Cancelled" heading. */
  lemma DefaultReasonIsPlainCancellation()
    ensures !FailedRebill(DefaultCancelReason)
  {
    NoLetterPNoRebillFailure(DefaultCancelReason);
  }

  // ---- Messages ----

  /** The four templates, by their fields. */
  datatype Message =
    | Captured(product: string, email: string, phone: string, currency: string, amount: string, paymentId: Field)
    | Renewal(planName: string, email: string, phone: string, subscriptionId: Field, cycleCount: string)
    | PaymentFailed(email: string, phone: string, currency: string, amount: string, reason: string, paymentId: Field)
    | Cancelled(failedRebill: bool, planName: string, email: string, phone: string, subscriptionId: Field, reason: string)

  function CapturedMessage(p: Entity): Message {
    Captured(Product(p), ExtractEmail(p), ExtractPhone(p), CurrencyOf(p), FormatAmount(p.amount), p.id)
  }

  function RenewalMessage(s: Entity): Message {
    Renewal(PlanName(s, "Razorpay Subscription Plan"), ExtractEmail(s), ExtractPhone(s), s.id, CycleCount(s))
  }

  function PaymentFailedMessage(p: Entity): (m: Message)
    ensures m.PaymentFailed?
    ensures m.currency == CurrencyOf(p) && m.amount == FormatAmount(p.amount)
    ensures Truthy(p.errorDescription) ==> m.reason == p.errorDescription.value
    ensures !Truthy(p.errorDescription) ==> m.reason == "Unknown reason"
  {
    PaymentFailed(ExtractEmail(p), ExtractPhone(p), CurrencyOf(p), FormatAmount(p.amount),
                  OrDefault([p.errorDescription], "Unknown reason"), p.id)
  }

  function CancelledMessage(s: Entity): (m: Message)
    ensures m.Cancelled?
    ensures Truthy(s.cancelReason) ==> m.reason == s.cancelReason.value
    ensures !Truthy(s.cancelReason) ==> m.reason == DefaultCancelReason
    ensures m.failedRebill <==> FailedRebill(m.reason)
    ensures !Truthy(s.cancelReason) ==> !m.failedRebill
  {
    var reason := OrDefault([s.cancelReason], DefaultCancelReason);
    DefaultReasonIsPlainCancellation();
    Cancelled(FailedRebill(reason), PlanName(s, "Razorpay Plan"), ExtractEmail(s), ExtractPhone(s), s.id, reason)
  }

  // Emoji of the templates.
  const Bank := "\U{1F3E6}"
  const MoneyBag := "\U{1F4B0}"
  const Parcel := "\U{1F4E6}"
  const EMail := "\U{1F4E7}"
  const MobilePhone := "\U{1F4F1}"
  const Banknote := "\U{1F4B5}"
  const IdButton := "\U{1F194}"
  const Repeat := "\U{1F501}"
  const Receipt := "\U{1F9FE}"
  const CreditCard := "\U{1F4B3}"
  const WarningSign := "\U{26A0}\U{FE0F}"
  const CrossMark := "\U{274C}"
  const Siren := "\U{1F6A8}"
  const NoEntry := "\U{1F6AB}"

  const SourceLine := Bank + " *Source:* Razorpay\n"

  function ContactLines(email: string, phone: string): string {
    EMail + " *Email:* " + email + "\n" + MobilePhone + " *Phone:* " + phone + "\n"
  }

  /** The template text before escaping; it starts and ends with a line break. */
  function TemplateText(m: Message): string {
    match m
    case Captured(product, email, phone, currency, amount, paymentId) =>
      "\n" + SourceLine + MoneyBag + " *New Payment Captured*\n"
      + Parcel + " *Product:* " + product + "\n"
      + ContactLines(email, phone)
      + Banknote + " *Amount:* " + currency + " " + amount + "\n"
      + IdButton + " *Payment ID:* " + Js.Render(paymentId) + "\n"
    case Renewal(planName, email, phone, subscriptionId, cycleCount) =>
      "\n" + SourceLine + Repeat + " *Subscription Renewal Charged*\n"
      + Parcel + " *Product:* " + planName + "\n"
      + ContactLines(email, phone)
      + Receipt + " *Subscription ID:* " + Js.Render(subscriptionId) + "\n"
      + CreditCard + " *Cycle Count:* " + cycleCount + "\n"
    case PaymentFailed(email, phone, currency, amount, reason, paymentId) =>
      "\n" + SourceLine + WarningSign + " *Payment Failed*\n"
      + ContactLines(email, phone)
      + Banknote + " *Amount:* " + currency + " " + amount + "\n"
      + CrossMark + " *Reason:* " + reason + "\n"
      + IdButton + " *Payment ID:* " + Js.Render(paymentId) + "\n"
    case Cancelled(failedRebill, planName, email, phone, subscriptionId, reason) =>
      "\n" + SourceLine
      + (if failedRebill then Siren + " *Subscription Failed After Multiple Rebill Attempts!*"
         else NoEntry + " *Subscription Cancelled*") + "\n"
      + Parcel + " *Product:* " + planName + "\n"
      + ContactLines(email, phone)
      + Receipt + " *Subscription ID:* " + Js.Render(subscriptionId) + "\n"
      + CrossMark + " *Reason:* " + reason + "\n"
  }

  /** The text handed to the send helper. */
  function Outgoing(m: Message): (t: string)
    ensures MarkdownV2.Unescape(t) == TemplateText(m)
    ensures |t| == |TemplateText(m)| + MarkdownV2.CountSpecial(TemplateText(m))
  {
    MarkdownV2.UnescapeEscape(TemplateText(m));
    MarkdownV2.Escape(TemplateText(m))
  }

  // ---- Dispatch ----

  /** Which message an event calls for: the event names are distinct, so at
      most one branch can apply, and only when its entity is present. */
  function Selected(b: Body): (m: Option<Message>)
    ensures m.Some? <==>
      || (b.event == Some("payment.captured") && b.payment.Some?)
      || (b.event == Some("subscription.charged") && b.subscription.Some?)
      || (b.event == Some("payment.failed") && b.payment.Some?)
      || (b.event == Some("subscription.cancelled") && b.subscription.Some?)
  {
    if b.event == Some("payment.captured") && b.payment.Some? then Some(CapturedMessage(b.payment.value))
    else if b.event == Some("subscription.charged") && b.subscription.Some? then Some(RenewalMessage(b.subscription.value))
    else if b.event == Some("payment.failed") && b.payment.Some? then Some(PaymentFailedMessage(b.payment.value))
    else if b.event == Some("subscription.cancelled") && b.subscription.Some? then Some(CancelledMessage(b.subscription.value))
    else None
  }

  /** The four event names the handler reacts to are pairwise distinct. */
  lemma EventNamesDistinct()
    ensures "payment.captured" != "subscription.charged" && "payment.captured" != "payment.failed"
    ensures "payment.captured" != "subscription.cancelled" && "subscription.charged" != "payment.failed"
    ensures "subscription.charged" != "subscription.cancelled" && "payment.failed" != "subscription.cancelled"
  {
    assert "payment.captured"[0] != "subscription.charged"[0];
    assert "payment.captured"[8] != "payment.failed"[8];
    assert "subscription.charged"[14] != "subscription.cancelled"[14];
  }

  function CapturedIf(b: Body): Option<Message> {
    if b.event == Some("payment.captured") && b.payment.Some? then Some(CapturedMessage(b.payment.value)) else None
  }

  function ChargedIf(b: Body): Option<Message> {
    if b.event == Some("subscription.charged") && b.subscription.Some? then Some(RenewalMessage(b.subscription.value)) else None
  }

  function FailedIf(b: Body): Option<Message> {
    if b.event == Some("payment.failed") && b.payment.Some? then Some(PaymentFailedMessage(b.payment.value)) else None
  }

  function CancelledIf(b: Body): Option<Message> {
    if b.event == Some("subscription.cancelled") && b.subscription.Some? then Some(CancelledMessage(b.subscription.value)) else None
  }

  /** What one `if` contributes: its message when it fires. */
  function Fired(m: Option<Message>): seq<Message> {
    if m.Some? then [m.value] else []
  }

  /** Four `if`s of which at most one fires contribute just that one message. */
  lemma {:induction false} OneOfFour(a: Option<Message>, b: Option<Message>, c: Option<Message>, d: Option<Message>)
    requires a.Some? ==> b.None? && c.None? && d.None?
    requires b.Some? ==> c.None? && d.None?
    requires c.Some? ==> d.None?
    ensures Fired(a) + Fired(b) + Fired(c) + Fired(d)
         == Fired(if a.Some? then a else if b.Some? then b else if c.Some? then c else d)
  {
    if a.Some? {
      assert Fired(a) + [] + [] + [] == Fired(a);
    } else if b.Some? {
      assert [] + Fired(b) + [] + [] == Fired(b);
    } else if c.Some? {
      assert [] + [] + Fired(c) + [] == Fired(c);
    } else {
      assert [] + [] + [] + Fired(d) == Fired(d);
    }
  }

  /** The messages the handler's four independent `if`s append, in order. */
  function Fires(b: Body): (ms: seq<Message>)
    ensures |ms| <= 1
    ensures |ms| == 1 <==> Selected(b).Some?
    ensures |ms| == 1 ==> ms[0] == Selected(b).value
  {
    EventNamesDistinct();
    OneOfFour(CapturedIf(b), ChargedIf(b), FailedIf(b), CancelledIf(b));
    Fired(CapturedIf(b)) + Fired(ChargedIf(b)) + Fired(FailedIf(b)) + Fired(CancelledIf(b))
  }

  /** The texts sent to the chat: each fired message, escaped. */
  function Notifications(b: Body): (out: seq<string>)
    ensures |out| <= 1
    ensures |out| == 1 <==> Selected(b).Some?
    ensures |out| == 1 ==> out[0] == Outgoing(Selected(b).value)
  {
    var ms := Fires(b);
    seq(|ms|, i requires 0 <= i < |ms| => Outgoing(ms[i]))
  }

  /** The handler. */
  function HandleWebhook(verb: string, raw: RawBody): (o: Outcome)
    ensures verb != "POST" ==> o.response == MethodNotAllowed && o.outbox == []
    ensures verb == "POST" && raw.Unparseable? ==> o.response == StatusError && o.outbox == []
    ensures verb == "POST" && raw.Parsed? ==> o.response == StatusOk
    ensures |o.outbox| <= 1
    ensures |o.outbox| == 1 ==> raw.Parsed? && Selected(raw.body).Some?
    ensures |o.outbox| == 1 ==> MarkdownV2.Unescape(o.outbox[0]) == TemplateText(Selected(raw.body).value)
    ensures verb == "POST" && raw.Parsed? ==>
      o.outbox == (if Selected(raw.body).Some? then [Outgoing(Selected(raw.body).value)] else [])
    ensures o.response.Code() == 200 || o.response.Code() == 405 || o.response.Code() == 500
  {
    if verb != "POST" then Outcome(MethodNotAllowed, [])
    else
      match raw
      case Unparseable => Outcome(StatusError, [])
      case Parsed(b) => Outcome(StatusOk, Notifications(b))
  }

  // ---- Properties ----

  /** An event none of the branches names is acknowledged with 200 and sends nothing. */
  lemma UnknownEventAcknowledged(b: Body)
    requires b.event != Some("payment.captured") && b.event != Some("subscription.charged")
    requires b.event != Some("payment.failed") && b.event != Some("subscription.cancelled")
    ensures HandleWebhook("POST", Parsed(b)) == Outcome(StatusOk, [])
  {
  }

  /** A branch whose entity is missing does not fire. */
  lemma MissingEntitySendsNothing(event: Field, s: Option<Entity>)
    requires event == Some("payment.captured") || event == Some("payment.failed")
    ensures HandleWebhook("POST", Parsed(Body(event, None, s))) == Outcome(StatusOk, [])
  {
  }

  /** A captured payment sends one message: the escaped template with the
      product, contacts, currency and two-decimal amount read from the payment. */
  lemma CapturedPaymentMessage(p: Entity, s: Option<Entity>)
    ensures var o := HandleWebhook("POST", Parsed(Body(Some("payment.captured"), Some(p), s)));
            && o.response == StatusOk
            && o.outbox == [Outgoing(Captured(Product(p), ExtractEmail(p), ExtractPhone(p),
                                              CurrencyOf(p), FormatAmount(p.amount), p.id))]
  {
    var b := Body(Some("payment.captured"), Some(p), s);
    assert Selected(b) == Some(CapturedMessage(p));
    PostedSelection(b);
  }

  /** A parsed POST sends exactly the selected event's escaped message. */
  lemma PostedSelection(b: Body)
    ensures var o := HandleWebhook("POST", Parsed(b));
            o.response == StatusOk && o.outbox == (if Selected(b).Some? then [Outgoing(Selected(b).value)] else [])
  {
  }

  /** A charged subscription sends the renewal template with the plan name
      (default "Razorpay Subscription Plan") and the cycle count. */
  lemma ChargedSubscriptionMessage(p: Option<Entity>, s: Entity)
    ensures var o := HandleWebhook("POST", Parsed(Body(Some("subscription.charged"), p, Some(s))));
            && o.response == StatusOk
            && o.outbox == [Outgoing(Renewal(PlanName(s, "Razorpay Subscription Plan"), ExtractEmail(s),
                                             ExtractPhone(s), s.id, CycleCount(s)))]
  {
    var b := Body(Some("subscription.charged"), p, Some(s));
    EventNamesDistinct();
    assert Selected(b) == Some(RenewalMessage(s));
    PostedSelection(b);
  }

  /** A failed payment sends the failure template with the gateway's error
      description, or "Unknown reason" when it has none. */
  lemma FailedPaymentReport(p: Entity, s: Option<Entity>)
    ensures var o := HandleWebhook("POST", Parsed(Body(Some("payment.failed"), Some(p), s)));
            var reason := if Truthy(p.errorDescription) then p.errorDescription.value else "Unknown reason";
            && o.response == StatusOk
            && o.outbox == [Outgoing(PaymentFailed(ExtractEmail(p), ExtractPhone(p), CurrencyOf(p),
                                                   FormatAmount(p.amount), reason, p.id))]
  {
    var b := Body(Some("payment.failed"), Some(p), s);
    EventNamesDistinct();
    assert Selected(b) == Some(PaymentFailedMessage(p));
    PostedSelection(b);
  }

  /** A cancellation without a reason gets the default reason and the plain heading. */
  lemma CancellationWithoutReason(p: Option<Entity>, s: Entity)
    requires !Truthy(s.cancelReason)
    ensures var o := HandleWebhook("POST", Parsed(Body(Some("subscription.cancelled"), p, Some(s))));
            && o.outbox == [Outgoing(Cancelled(false, PlanName(s, "Razorpay Plan"), ExtractEmail(s),
                                               ExtractPhone(s), s.id, DefaultCancelReason))]
  {
    var b := Body(Some("subscription.cancelled"), p, Some(s));
    var m := CancelledMessage(s);
    DefaultReasonIsPlainCancellation();
    assert m.reason == DefaultCancelReason && !m.failedRebill;
    assert Selected(b) == Some(m);
    PostedSelection(b);
  }
}
