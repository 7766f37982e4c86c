/**
 * The Stripe webhook endpoint as a decision table: from the signature
 * header and the outcome of signature verification to the HTTP response.
 * The handler takes no store, because no branch of it writes to the
 * database; for a completed checkout it only decides whether the session
 * names a user and a tier, which it logs.
 */
module StripeWebhook {
  import opened Common
  import opened Text
  import opened Schema
  import opened StripeService

  datatype SessionMetadata = SessionMetadata(userId: Option<string>, tier: Option<string>)

  /** `event.data.object`, as far as the handler reads it. */
  datatype EventObject = EventObject(id: Option<string>, metadata: Option<SessionMetadata>, clientReferenceId: Option<string>)

  /** A verified event; `obj` is `None` when the payload carries no object. */
  datatype Event = Event(id: string, eventType: string, obj: Option<EventObject>)

  datatype Body = ErrorBody(error: string) | VerifiedBody | ReceivedBody
  datatype Response = Response(status: nat, body: Body)

  /** What the checkout branch concluded. */
  datatype CheckoutNote = MissingUserOrTier | PaymentCompleted(userId: int, tier: string)

  /** The handler's response, whether it ran signature verification, and its checkout conclusion. */
  datatype WebhookOutcome = WebhookOutcome(response: Response, verificationAttempted: bool, checkout: Option<CheckoutNote>)

  predicate Truthy(s: Option<string>) { s.Some? && s.value != "" }

  predicate StartsWith(s: string, prefix: string) {
    |prefix| <= |s| && s[..|prefix|] == prefix
  }

  /** `session.metadata?.userId || session.client_reference_id || '0'`. */
  function UserIdText(o: EventObject): (t: string)
    ensures o.metadata.Some? && Truthy(o.metadata.value.userId) ==> t == o.metadata.value.userId.value
    ensures !(o.metadata.Some? && Truthy(o.metadata.value.userId)) && Truthy(o.clientReferenceId) ==>
      t == o.clientReferenceId.value
    ensures !(o.metadata.Some? && Truthy(o.metadata.value.userId)) && !Truthy(o.clientReferenceId) ==> t == "0"
  {
    if o.metadata.Some? && Truthy(o.metadata.value.userId) then o.metadata.value.userId.value
    else if Truthy(o.clientReferenceId) then o.clientReferenceId.value
    else "0"
  }

  /** The checkout branch: skip unless the parsed user id is a non-zero number and a tier is named. */
  function CheckoutCompleted(o: EventObject): (n: CheckoutNote)
    ensures n.PaymentCompleted? <==>
      ParseInt(UserIdText(o)).Some? && ParseInt(UserIdText(o)).value != 0
      && o.metadata.Some? && Truthy(o.metadata.value.tier)
    ensures n.PaymentCompleted? ==>
      Some(n.userId) == ParseInt(UserIdText(o)) && n.tier == o.metadata.value.tier.value
  {
    var userId := ParseInt(UserIdText(o));
    var tier := if o.metadata.Some? then o.metadata.value.tier else None;
    if userId.None? || userId.value == 0 || !Truthy(tier) then MissingUserOrTier
    else PaymentCompleted(userId.value, tier.value)
  }

  const HandledTypes: seq<string> :=
    ["checkout.session.completed", "payment_intent.succeeded", "payment_intent.payment_failed", "customer.created"]

  const Failed := Response(500, ErrorBody("Webhook processing failed"))

  /**
   * `handleStripeWebhook`. `verification` is what `constructWebhookEvent`
   * gives for this payload and signature: the event, or `None` when it
   * throws.
   */
  function HandleStripeWebhook(signature: Option<string>, verification: Option<Event>): (w: WebhookOutcome)
    ensures !Truthy(signature) ==>
      w == WebhookOutcome(Response(400, ErrorBody("Missing signature")), false, None)
    ensures Truthy(signature) ==> w.verificationAttempted
    ensures Truthy(signature) && verification.None? ==>
      w.response == Response(400, ErrorBody("Invalid signature"))
    ensures Truthy(signature) && verification.Some? && StartsWith(verification.value.id, "evt_test_") ==>
      w.response == Response(200, VerifiedBody) && w.checkout.None?
    ensures Truthy(signature) && verification.Some? && !StartsWith(verification.value.id, "evt_test_") ==>
      var e := verification.value;
      (w.response == Response(200, ReceivedBody) <==> !(e.eventType in HandledTypes && e.obj.None?))
      && (w.response != Response(200, ReceivedBody) ==> w.response == Failed)
      && (w.checkout.Some? <==> e.eventType == HandledTypes[0] && e.obj.Some?)
      && (w.checkout.Some? ==> w.checkout.value == CheckoutCompleted(e.obj.value))
  {
    if !Truthy(signature) then
      WebhookOutcome(Response(400, ErrorBody("Missing signature")), false, None)
    else if verification.None? then
      WebhookOutcome(Response(400, ErrorBody("Invalid signature")), true, None)
    else
      var e := verification.value;
      if StartsWith(e.id, "evt_test_") then
        WebhookOutcome(Response(200, VerifiedBody), true, None)
      else if e.eventType in HandledTypes && e.obj.None? then
        // reading a property of a missing object throws inside the try block
        WebhookOutcome(Failed, true, None)
      else if e.eventType == HandledTypes[0] then
        WebhookOutcome(Response(200, ReceivedBody), true, Some(CheckoutCompleted(e.obj.value)))
      else
        WebhookOutcome(Response(200, ReceivedBody), true, None)
  }

  /** The session object Stripe echoes back for a checkout request built by `createCheckoutSession`. */
  function EchoedSession(r: CheckoutRequest): EventObject {
    EventObject(None, Some(SessionMetadata(Some(r.metadata.userId), Some(r.metadata.tier))), Some(r.clientReferenceId))
  }

  /**
   * The metadata written at checkout is what the webhook reads back: for
   * every non-zero user id the completed session yields that user and the
   * tier's name; user 0 is indistinguishable from a missing id.
   */
  lemma CheckoutMetadataRoundTrip(p: CheckoutParams)
    ensures var note := CheckoutCompleted(EchoedSession(CheckoutSessionRequest(p)));
      && (p.userId != 0 ==> note == PaymentCompleted(p.userId, TierName(p.tier)))
      && (p.userId == 0 ==> note == MissingUserOrTier)
  {
    var r := CheckoutSessionRequest(p);
    var o := EchoedSession(r);
    assert ParseInt(r.metadata.userId) == Some(p.userId);
    assert r.metadata.userId != "";
    assert UserIdText(o) == r.metadata.userId;
    assert ParseTier(r.metadata.tier) == Some(p.tier);
    assert r.metadata.tier == TierName(p.tier) != "";
  }
}
