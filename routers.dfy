/**
 * The onboarding and dashboard procedures: the payment gate that records a
 * subscription and its two charges, the instance lifecycle (provisioning,
 * then running or error), and the restart and log guards. The Checkout
 * Session retrieved from Stripe and the provisioner's outcome are
 * parameters.
 */
module Routers {
  import opened Common
  import opened Text
  import opened Schema
  import opened StripeService
  import opened DigitalOcean
  import opened Db

  // ------------------------------------------------------- verifyPayment

  /** `session.customer`: absent, an id string, or an expanded customer object. */
  datatype Customer = NoCustomer | CustomerId(id: string) | CustomerObject(id: string)

  /** The retrieved Checkout Session, as far as `verifyPayment` reads it. */
  datatype CheckoutSession = CheckoutSession(paymentStatus: string, customer: Customer, paymentIntent: Option<string>)

  /** The customer id stored on the subscription: the string, else the object's id when non-empty, else null. */
  function StripeCustomerIdOf(c: Customer): (r: Option<string>)
    ensures c.CustomerId? ==> r == Some(c.id)
    ensures c.CustomerObject? && c.id != "" ==> r == Some(c.id)
    ensures c.NoCustomer? || c == CustomerObject("") ==> r.None?
  {
    match c
    case CustomerId(id) => Some(id)
    case CustomerObject(id) => if id != "" then Some(id) else None
    case NoCustomer => None
  }

  /** The subscription a paid session records: active, setup fee paid, renewing 30 days on. */
  function PaidSubscription(userId: int, tier: Tier, session: CheckoutSession, now: int): (ins: SubscriptionInsert)
    ensures ins.userId == userId && ins.tier == tier
    ensures ins.status == Some(SubscriptionStatus.Active) && ins.setupFeePaid == Some(true)
    ensures ins.stripeCustomerId == StripeCustomerIdOf(session.customer) && ins.stripeSubscriptionId.None?
    ensures ins.startDate == Some(now) && ins.renewalDate == Some(now + ThirtyDaysMs)
    ensures ins.monthlyPrice == Some(NatToString(Pricing(tier).monthlyPrice))
  {
    SubscriptionInsert(userId, tier, Some(SubscriptionStatus.Active), Some(true), None,
      StripeCustomerIdOf(session.customer), Some(NatToString(Pricing(tier).monthlyPrice)),
      Some(now), Some(now + ThirtyDaysMs))
  }

  /** The completed setup-fee charge, in dollars with two decimals, carrying the payment intent. */
  function SetupFeeCharge(userId: int, tier: Tier, session: CheckoutSession): (ins: BillingInsert)
    ensures ins.userId == userId && ins.billingType == BillingType.SetupFee
    ensures ins.status == Some(BillingStatus.Completed) && ins.stripeChargeId == session.paymentIntent
    ensures ins.amount == FormatCents(Pricing(tier).setupFee)
  {
    BillingInsert(userId, BillingType.SetupFee, FormatCents(Pricing(tier).setupFee),
      Some(BillingStatus.Completed), session.paymentIntent)
  }

  /** The completed first-month charge, in dollars with two decimals, with no charge id. */
  function FirstMonthCharge(userId: int, tier: Tier): (ins: BillingInsert)
    ensures ins.userId == userId && ins.billingType == MonthlySubscription
    ensures ins.status == Some(BillingStatus.Completed) && ins.stripeChargeId.None?
    ensures ins.amount == FormatCents(Pricing(tier).monthlyPrice)
  {
    BillingInsert(userId, MonthlySubscription, FormatCents(Pricing(tier).monthlyPrice),
      Some(BillingStatus.Completed), None)
  }

  /**
   * The three amounts a paid session records read back as the tier's
   * prices: the billing records hold dollars with two decimals, the
   * subscription's monthly price holds cents, and both denote the same sum.
   */
  lemma PaymentAmounts(userId: int, tier: Tier, session: CheckoutSession, now: int)
    ensures ParseCents(SetupFeeCharge(userId, tier, session).amount) == Some(Pricing(tier).setupFee)
    ensures ParseCents(FirstMonthCharge(userId, tier).amount) == Some(Pricing(tier).monthlyPrice)
    ensures var sub := PaidSubscription(userId, tier, session, now);
      sub.monthlyPrice.Some? && ParseInt(sub.monthlyPrice.value) == Some(Pricing(tier).monthlyPrice as int)
  {
    FormatCentsRoundTrip(Pricing(tier).setupFee);
    FormatCentsRoundTrip(Pricing(tier).monthlyPrice);
    ParseIntOfNatToString(Pricing(tier).monthlyPrice);
  }

  /** The decimal texts of the starter tier's numbers. */
  lemma StarterNumerals()
    ensures NatToString(250) == "250" && NatToString(49) == "49" && NatToString(4900) == "4900"
  {
    assert DigitChar(0) == '0' && DigitChar(2) == '2' && DigitChar(4) == '4';
    assert DigitChar(5) == '5' && DigitChar(9) == '9';
    assert NatToString(25) == NatToString(2) + "5" == "25";
    assert NatToString(250) == NatToString(25) + "0" == "250";
    assert NatToString(49) == NatToString(4) + "9" == "49";
    assert NatToString(490) == NatToString(49) + "0" == "490";
    assert NatToString(4900) == NatToString(490) + "0" == "4900";
  }

  /** The texts for the starter tier, as they land in the tables. */
  lemma StarterPaymentTexts(userId: int, session: CheckoutSession, now: int)
    ensures SetupFeeCharge(userId, Starter, session).amount == "250.00"
    ensures FirstMonthCharge(userId, Starter).amount == "49.00"
    ensures PaidSubscription(userId, Starter, session, now).monthlyPrice == Some("4900")
  {
    StarterNumerals();
    StarterAmounts();
  }

  /** The two-decimal texts of the starter tier's charges. */
  lemma StarterAmounts()
    ensures FormatCents(25000) == "250.00" && FormatCents(4900) == "49.00"
  {
    StarterNumerals();
    assert DigitChar(0) == '0';
    assert FormatCents(25000) == NatToString(250) + "." + "00";
    assert FormatCents(4900) == NatToString(49) + "." + "00";
  }

  /**
   * `onboarding.verifyPayment`: an unpaid session throws and writes
   * nothing; a paid one appends one subscription, then the setup-fee and
   * the first-month charges. Nothing checks for an earlier call, so each
   * paid call appends again.
   */
  method VerifyPayment(store: Store, session: CheckoutSession, userId: int, tier: Tier, now: int)
    returns (r: Result<Unit>)
    requires store.Valid()
    modifies store
    ensures store.Valid() && store.available == old(store.available)
    ensures store.users == old(store.users) && store.instances == old(store.instances)
    ensures session.paymentStatus != "paid" ==>
      r == Fail(Thrown("Payment not completed"))
      && store.subscriptions == old(store.subscriptions) && store.billingRecords == old(store.billingRecords)
    ensures session.paymentStatus == "paid" && !store.available ==>
      r == Fail(DatabaseNotAvailable)
      && store.subscriptions == old(store.subscriptions) && store.billingRecords == old(store.billingRecords)
    ensures session.paymentStatus == "paid" && store.available ==>
      && r == Ok(Unit)
      && store.subscriptions == old(store.subscriptions)
           + [NewSubscription(old(store.nextSubscriptionId), PaidSubscription(userId, tier, session, now))]
      && store.billingRecords == old(store.billingRecords)
           + [NewBillingRecord(old(store.nextBillingId), SetupFeeCharge(userId, tier, session)),
              NewBillingRecord(old(store.nextBillingId) + 1, FirstMonthCharge(userId, tier))]
  {
    if session.paymentStatus != "paid" {
      return Fail(Thrown("Payment not completed"));
    }
    r := RecordPayment(store, PaidSubscription(userId, tier, session, now),
      SetupFeeCharge(userId, tier, session), FirstMonthCharge(userId, tier));
  }

  /** The three inserts of a paid session, in order: the subscription, then the two charges. */
  method RecordPayment(store: Store, subscription: SubscriptionInsert, setupFee: BillingInsert, firstMonth: BillingInsert)
    returns (r: Result<Unit>)
    requires store.Valid()
    modifies store
    ensures store.Valid() && store.available == old(store.available)
    ensures store.users == old(store.users) && store.instances == old(store.instances)
    ensures !store.available ==>
      r == Fail(DatabaseNotAvailable)
      && store.subscriptions == old(store.subscriptions) && store.billingRecords == old(store.billingRecords)
    ensures store.available ==>
      && r == Ok(Unit)
      && store.subscriptions == old(store.subscriptions) + [NewSubscription(old(store.nextSubscriptionId), subscription)]
      && store.billingRecords == old(store.billingRecords)
           + [NewBillingRecord(old(store.nextBillingId), setupFee), NewBillingRecord(old(store.nextBillingId) + 1, firstMonth)]
  {
    var created := store.CreateSubscription(subscription);
    if created.Fail? {
      return Fail(DatabaseNotAvailable);
    }
    ghost var billed := store.billingRecords;
    var setup := store.CreateBillingRecord(setupFee);
    var monthly := store.CreateBillingRecord(firstMonth);
    ghost var a, b := NewBillingRecord(old(store.nextBillingId), setupFee), NewBillingRecord(old(store.nextBillingId) + 1, firstMonth);
    assert store.billingRecords == billed + [a] + [b] == billed + [a, b];
    r := Ok(Unit);
  }

  // ------------------------------------------------------ deployInstance

  /** The signed-in user, as `ctx.user` carries it. */
  datatype SessionUser = SessionUser(id: nat, email: Option<string>)

  datatype DeployInput = DeployInput(
    aiRole: string, telegramBotToken: Option<string>,
    communicationChannels: seq<string>, connectedServices: seq<string>)

  function ConfigOf(input: DeployInput): InstanceConfig {
    InstanceConfig(input.communicationChannels, input.connectedServices)
  }

  /** The instance row inserted before provisioning starts. */
  function ProvisioningInstance(user: SessionUser, subscriptionId: nat, input: DeployInput): (ins: InstanceInsert)
    ensures ins.userId == user.id && ins.subscriptionId == subscriptionId
    ensures ins.status == Some(Provisioning) && ins.aiRole == Some(input.aiRole)
    ensures ins.telegramBotToken == input.telegramBotToken && ins.config == Some(ConfigOf(input))
  {
    InstanceInsert(user.id, subscriptionId, Some(Provisioning), Some(input.aiRole),
      input.telegramBotToken, Some(ConfigOf(input)))
  }

  /** The provisioner's arguments: the user's email or "", and the subscription's tier. */
  function ProvisionParams(user: SessionUser, input: DeployInput, tier: Tier): (p: CreateAppParams)
    ensures p.userId == user.id && p.tier == tier && p.aiRole == input.aiRole
    ensures user.email.Some? ==> p.userEmail == user.email.value
    ensures user.email.None? ==> p.userEmail == ""
  {
    CreateAppParams(user.id, user.email.GetOr(""), input.aiRole, tier, input.telegramBotToken, ConfigOf(input))
  }

  /** The patch after provisioning: running with the app id, or error with the message. */
  function OutcomePatch(result: Result<string>): (p: InstancePatch)
    ensures result.Ok? ==> p.status == Some(Running) && p.doAppId == Some(Some(result.value)) && p.errorMessage.None?
    ensures result.Fail? ==>
      p.status == Some(InstanceStatus.Error) && p.doAppId.None? && p.errorMessage == Some(Some(MessageOf(result.failure)))
  {
    match result
    case Ok(appId) => InstancePatch(Some(Running), Some(Some(appId)), None)
    case Fail(f) => InstancePatch(Some(InstanceStatus.Error), None, Some(Some(MessageOf(f))))
  }

  /**
   * `onboarding.deployInstance`: with no subscription it throws and
   * inserts nothing. Otherwise it always inserts a fresh instance in
   * provisioning, awaits the provisioner, and leaves that row running with
   * the app id (returned) or in error with the message (rethrown).
   */
  method DeployInstance(store: Store, user: SessionUser, input: DeployInput,
                        doToken: string, nowMs: int, configJson: string, outcome: CreateOutcome)
    returns (r: Result<string>)
    requires store.Valid()
    modifies store
    ensures store.Valid() && store.available == old(store.available)
    ensures store.users == old(store.users) && store.subscriptions == old(store.subscriptions)
    ensures store.billingRecords == old(store.billingRecords)
    ensures !store.available || SubscriptionOf(store.subscriptions, user.id).None? ==>
      r == Fail(Thrown("No active subscription found")) && store.instances == old(store.instances)
    ensures store.available && SubscriptionOf(store.subscriptions, user.id).Some? ==>
      var sub := SubscriptionOf(store.subscriptions, user.id).value;
      var call := CreateOpenClawApp(ProvisionParams(user, input, sub.tier), doToken, nowMs, configJson, outcome);
      var row := NewInstance(old(store.nextInstanceId), ProvisioningInstance(user, sub.id, input));
      && r == call.result
      && store.instances == old(store.instances) + [ApplyInstancePatch(row, OutcomePatch(call.result))]
  {
    var sub := store.GetSubscriptionByUserId(user.id);
    if sub.None? {
      return Fail(Thrown("No active subscription found"));
    }
    ghost var before := store.instances;
    var inserted := store.CreateAIInstance(ProvisioningInstance(user, sub.value.id, input));
    if inserted.Fail? {
      assert false;
      return Fail(DatabaseNotAvailable);
    }
    var instanceId := inserted.value;
    ghost var row := NewInstance(instanceId, ProvisioningInstance(user, sub.value.id, input));
    var call := CreateOpenClawApp(ProvisionParams(user, input, sub.value.tier), doToken, nowMs, configJson, outcome);
    PatchNewestInstance(before, row, OutcomePatch(call.result));
    var updated := store.UpdateAIInstance(instanceId, OutcomePatch(call.result));
    r := call.result;
  }

  /** Whatever the provisioner does, the new row ends running with an app id or in error with a message. */
  lemma DeployEndsSettled(row: AIInstance, result: Result<string>)
    ensures var x := ApplyInstancePatch(row, OutcomePatch(result));
      && (x.status == Running <==> result.Ok?)
      && (x.status == Running ==> x.doAppId == Some(result.value))
      && (x.status != Running ==> x.status == InstanceStatus.Error && x.errorMessage == Some(MessageOf(result.failure)))
  {
  }

  // ----------------------------------------------------------- dashboard

  /** The instance the dashboard finds for the user: none without a database. */
  function DashboardInstance(available: bool, instances: seq<AIInstance>, userId: int): Option<AIInstance> {
    if available then InstanceOf(instances, userId) else None
  }

  /** `!instance || !instance.doAppId`: the guard of restart and logs. */
  function AppIdOf(instance: Option<AIInstance>): (appId: Option<string>)
    ensures appId.Some? <==> instance.Some? && instance.value.doAppId.Some? && instance.value.doAppId.value != ""
    ensures appId.Some? ==> appId.value == instance.value.doAppId.value
  {
    match instance
    case Some(x) => if x.doAppId.Some? && x.doAppId.value != "" then x.doAppId else None
    case None => None
  }

  /**
   * `dashboard.restartInstance`: without an instance holding an app id it
   * throws and requests nothing; otherwise it asks for a restart of that
   * app, whose failure it passes on.
   */
  method RestartInstance(store: Store, userId: nat, restartSucceeds: bool)
    returns (r: Result<Unit>, restarted: Option<string>)
    ensures var appId := AppIdOf(DashboardInstance(store.available, store.instances, userId));
      && restarted == appId
      && (appId.None? ==> r == Fail(Thrown("No instance found")))
      && (appId.Some? ==> r == RestartApp(restartSucceeds))
  {
    var instance := store.GetAIInstanceByUserId(userId);
    if instance.None? || instance.value.doAppId.None? || instance.value.doAppId.value == "" {
      return Fail(Thrown("No instance found")), None;
    }
    restarted := instance.value.doAppId;
    r := RestartApp(restartSucceeds);
  }

  /** `dashboard.getLogs`: no lines and no request without an app id, else that app's logs. */
  method GetLogs(store: Store, userId: nat, response: LogsResponse)
    returns (logs: seq<string>, fetchedFrom: Option<string>)
    ensures var appId := AppIdOf(DashboardInstance(store.available, store.instances, userId));
      && fetchedFrom == appId
      && (appId.None? ==> logs == [])
      && (appId.Some? ==> logs == GetAppLogs(response))
  {
    var instance := store.GetAIInstanceByUserId(userId);
    if instance.None? || instance.value.doAppId.None? || instance.value.doAppId.value == "" {
      return [], None;
    }
    fetchedFrom := instance.value.doAppId;
    logs := GetAppLogs(response);
  }

  datatype DashboardStatus = DashboardStatus(
    subscription: Option<Subscription>, instance: Option<AIInstance>, billingRecords: seq<BillingRecord>)

  /** `dashboard.getStatus`: the user's first subscription, first instance and every billing record. */
  method GetStatus(store: Store, userId: nat) returns (s: DashboardStatus)
    ensures !store.available ==> s == DashboardStatus(None, None, [])
    ensures store.available ==>
      && s.subscription == SubscriptionOf(store.subscriptions, userId)
      && s.instance == InstanceOf(store.instances, userId)
      && s.billingRecords == BillingOf(store.billingRecords, userId)
  {
    var subscription := store.GetSubscriptionByUserId(userId);
    var instance := store.GetAIInstanceByUserId(userId);
    var billing := store.GetBillingRecordsByUserId(userId);
    s := DashboardStatus(subscription, instance, billing);
  }
}
