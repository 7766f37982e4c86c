/**
 * The payment-processor side of onboarding: the price table (in cents), the
 * checkout session request built for a customer, and the renewal date read
 * from a recurring subscription. The processor's API is not called here: a
 * session is the request value, and a subscription lookup is a parameter.
 */
module StripeService {
  import opened Common
  import opened Text
  import opened Schema

  /** The prices of one tier, in cents. */
  datatype Price = Price(setupFee: nat, monthlyPrice: nat)

  /** `PRICING[tier]`. */
  function Pricing(t: Tier): (p: Price)
    ensures p.setupFee == 25000
    ensures 0 < p.monthlyPrice < p.setupFee
  {
    match t
    case Starter => Price(25000, 4900)
    case Pro => Price(25000, 9900)
    case Business => Price(25000, 14900)
  }

  /** The monthly price rises strictly with the tier. */
  lemma MonthlyPriceIncreasing()
    ensures Pricing(Starter).monthlyPrice < Pricing(Pro).monthlyPrice < Pricing(Business).monthlyPrice
    ensures Pricing(Starter).monthlyPrice == 4900 && Pricing(Pro).monthlyPrice == 9900
    ensures Pricing(Business).monthlyPrice == 14900
  {
  }

  datatype CheckoutParams = CheckoutParams(
    customerEmail: string, tier: Tier, userId: int, successUrl: string, cancelUrl: string)

  datatype LineItem = LineItem(
    currency: string, productName: string, productDescription: string, unitAmount: nat, quantity: nat)

  datatype CheckoutMetadata = CheckoutMetadata(userId: string, tier: string, customerEmail: string)

  /** The argument of `stripe.checkout.sessions.create`. */
  datatype CheckoutRequest = CheckoutRequest(
    mode: string, customerEmail: string, clientReferenceId: string, successUrl: string,
    cancelUrl: string, allowPromotionCodes: bool, metadata: CheckoutMetadata, lineItems: seq<LineItem>)

  /** The amount charged by a list of line items. */
  function Total(items: seq<LineItem>): int {
    if |items| == 0 then 0 else items[0].unitAmount * items[0].quantity + Total(items[1..])
  }

  /** The two line items: the setup fee, then the first month, each once, in US dollars. */
  function CheckoutItems(tier: Tier): (items: seq<LineItem>)
    ensures |items| == 2
    ensures forall i :: 0 <= i < |items| ==> items[i].currency == "usd" && items[i].quantity == 1
    ensures items[0].unitAmount == Pricing(tier).setupFee
    ensures items[1].unitAmount == Pricing(tier).monthlyPrice
    ensures items[0].productName == Capitalize(TierName(tier)) + " Plan - Setup Fee"
    ensures items[1].productName == Capitalize(TierName(tier)) + " Plan - First Month"
    ensures Total(items) == Pricing(tier).setupFee + Pricing(tier).monthlyPrice
  {
    var price := Pricing(tier);
    var plan := Capitalize(TierName(tier));
    var items := [
      LineItem("usd", plan + " Plan - Setup Fee", "One-time setup and configuration fee", price.setupFee, 1),
      LineItem("usd", plan + " Plan - First Month", "Monthly subscription fee", price.monthlyPrice, 1)
    ];
    assert Total(items) == price.setupFee + Total(items[1..]);
    items
  }

  /** What `createCheckoutSession` asks the processor for. */
  function CheckoutSessionRequest(p: CheckoutParams): (r: CheckoutRequest)
    ensures r.mode == "payment" && r.allowPromotionCodes
    ensures r.customerEmail == p.customerEmail && r.metadata.customerEmail == p.customerEmail
    ensures r.successUrl == p.successUrl && r.cancelUrl == p.cancelUrl
    ensures r.lineItems == CheckoutItems(p.tier)
    // the metadata carries the customer and the tier back unchanged
    ensures r.clientReferenceId == r.metadata.userId
    ensures ParseInt(r.metadata.userId) == Some(p.userId)
    ensures ParseTier(r.metadata.tier) == Some(p.tier)
  {
    var id := IntToString(p.userId);
    ParseIntOfIntToString(p.userId);
    CheckoutRequest("payment", p.customerEmail, id, p.successUrl, p.cancelUrl, true,
      CheckoutMetadata(id, TierName(p.tier), p.customerEmail), CheckoutItems(p.tier))
  }

  /** The product names read "Starter Plan - ...", "Pro Plan - ...", "Business Plan - ...". */
  lemma ProductNames()
    ensures Capitalize(TierName(Starter)) == "Starter"
    ensures Capitalize(TierName(Pro)) == "Pro"
    ensures Capitalize(TierName(Business)) == "Business"
  {
    assert Capitalize("starter") == [UpperAscii('s')] + "tarter";
    assert Capitalize("pro") == [UpperAscii('p')] + "ro";
    assert Capitalize("business") == [UpperAscii('b')] + "usiness";
  }

  // ------------------------------------------------------------ renewal date

  /** What `stripe.subscriptions.retrieve` gave: an error, or the subscription's period end in seconds (absent or 0 when unset). */
  datatype SubscriptionLookup = LookupFailed | Retrieved(currentPeriodEnd: Option<int>)

  const ThirtyDaysMs: int := 30 * 24 * 60 * 60 * 1000

  /**
   * `getRenewalDate`, in milliseconds: the period end of the given recurring
   * subscription when the lookup yields one, otherwise thirty days after `nowMs`.
   */
  function RenewalDate(stripeSubscriptionId: Option<string>, lookup: SubscriptionLookup, nowMs: int): (r: int)
    ensures var fromProcessor := stripeSubscriptionId.Some? && stripeSubscriptionId.value != ""
                                 && lookup.Retrieved? && lookup.currentPeriodEnd.Some?
                                 && lookup.currentPeriodEnd.value != 0;
      (fromProcessor ==> r == lookup.currentPeriodEnd.value * 1000)
      && (!fromProcessor ==> r == nowMs + 2592000000)
  {
    if stripeSubscriptionId.Some? && stripeSubscriptionId.value != "" then
      match lookup
      case Retrieved(Some(periodEnd)) =>
        if periodEnd != 0 then periodEnd * 1000 else nowMs + ThirtyDaysMs
      case _ => nowMs + ThirtyDaysMs
    else nowMs + ThirtyDaysMs
  }
}
