/**
 * The sign-up wizard: its own copy of the price table, the step counter
 * moved by the Next and Back buttons, and the temporary user id derived
 * from the clock before checkout.
 */
module Onboarding {
  import opened Common
  import opened Text
  import opened Schema
  import opened StripeService

  /** A row of the page's price table, in whole dollars. */
  datatype PricingTier = PricingTier(name: string, setupFee: nat, monthly: nat, features: seq<string>)

  /** `PRICING_TIERS`. */
  function PricingTiers(t: Tier): (p: PricingTier)
    ensures p.setupFee == 250
    ensures |p.features| >= 4
  {
    match t
    case Starter => PricingTier("Starter", 250, 49,
      ["Llama 3.1 AI model", "Email support", "1,000 tokens/month", "Telegram integration"])
    case Pro => PricingTier("Pro", 250, 99,
      ["Claude 3.5 Haiku AI model", "Priority support", "5,000 tokens/month", "Multi-channel integration", "Custom skills"])
    case Business => PricingTier("Business", 250, 149,
      ["Claude Sonnet 4.5 AI model", "24/7 support", "Unlimited tokens", "All integrations", "Custom development",
       "Dedicated account manager"])
  }

  /**
   * The page shows what the server charges: dollars times 100 are the
   * server's cents, and the tier's name is the one on the checkout items.
   */
  lemma PricesAgreeWithServer(t: Tier)
    ensures PricingTiers(t).setupFee * 100 == Pricing(t).setupFee
    ensures PricingTiers(t).monthly * 100 == Pricing(t).monthlyPrice
    ensures PricingTiers(t).name == Capitalize(TierName(t))
  {
    ProductNames();
  }

  const EmailMissing := "Please enter your email"

  /** The wizard's state: the step shown, the email typed and the tier picked. */
  class Wizard {
    var step: int
    var email: string
    var selectedTier: Tier

    /** The wizard opens on step 1 with the Starter tier. */
    constructor()
      ensures step == 1 && email == "" && selectedTier == Starter
    {
      step, email, selectedTier := 1, "", Starter;
    }

    /** `handleNext`: step 1 holds until an email is typed; every other step moves on. */
    method HandleNext() returns (toast: Option<string>)
      modifies this
      ensures old(step) == 1 && email == "" ==> step == old(step) && toast == Some(EmailMissing)
      ensures !(old(step) == 1 && email == "") ==> step == old(step) + 1 && toast.None?
      ensures email == old(email) && selectedTier == old(selectedTier)
    {
      if step == 1 && email == "" {
        return Some(EmailMissing);
      }
      step := step + 1;
      toast := None;
    }

    /** `handleBack`: one step back, with no lower bound of its own. */
    method HandleBack()
      modifies this
      ensures step == old(step) - 1
      ensures email == old(email) && selectedTier == old(selectedTier)
    {
      step := step - 1;
    }
  }

  /** `Math.floor(Date.now() / 1000)`: the clock in whole seconds. */
  function TempUserId(nowMs: nat): (id: nat)
    ensures id * 1000 <= nowMs < id * 1000 + 1000
  {
    nowMs / 1000
  }

  /** The largest value of a MySQL `INT` column. */
  const MaxInt := 2_147_483_647

  /** The temporary id fits an `INT` column for every clock before 2^31 seconds. */
  lemma TempUserIdFitsInt(nowMs: nat)
    requires nowMs < (MaxInt + 1) * 1000
    ensures TempUserId(nowMs) <= MaxInt
  {
  }
}
