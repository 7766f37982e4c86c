/**
 * The MySQL tables of the service: one datatype per row, the enumerations
 * of its enum columns, and for each table the row an insert produces from
 * the columns it is given, with the column defaults filled in. The
 * `createdAt`/`updatedAt` columns, set by the database clock, are not
 * modelled; every other timestamp is a number of milliseconds.
 */
module Schema {
  import opened Common

  // ------------------------------------------------------------ enumerations

  datatype Tier = Starter | Pro | Business

  function TierName(t: Tier): (name: string)
    ensures ParseTier(name) == Some(t)
  {
    match t
    case Starter => "starter"
    case Pro => "pro"
    case Business => "business"
  }

  /** The enum check the column applies: only the three names are tiers. */
  function ParseTier(s: string): (r: Option<Tier>)
    ensures r.Some? <==> s == "starter" || s == "pro" || s == "business"
  {
    if s == "starter" then Some(Starter)
    else if s == "pro" then Some(Pro)
    else if s == "business" then Some(Business)
    else None
  }

  datatype Role = UserRole | AdminRole
  datatype SubscriptionStatus = Active | Paused | Cancelled | Pending
  datatype InstanceStatus = Provisioning | Running | Stopped | Error | Deleted
  datatype BillingType = SetupFee | MonthlySubscription | UsageCredit | Refund
  datatype BillingStatus = Pending | Completed | Failed | Refunded
  datatype LeadStatus = Lead | CheckoutStarted | Paid | Abandoned
  datatype AffiliateStatus = Active | Suspended | Pending
  datatype ReferralStatus = Pending | SignedUp | Subscribed | Cancelled
  datatype CommissionStatus = Pending | Approved | Paid | Cancelled
  datatype CommissionType = SetupFee | MonthlyRecurring

  /** The text of a JSON column, kept as written. */
  type Json = string

  // -------------------------------------------------------------------- rows

  datatype User = UserRow(
    id: nat, openId: string, name: Option<string>, email: string,
    passwordHash: Option<string>, loginMethod: Option<string>, role: Role,
    lastSignedIn: int)

  datatype Subscription = SubscriptionRow(
    id: nat, userId: int, tier: Tier, status: SubscriptionStatus, setupFeePaid: bool,
    stripeSubscriptionId: Option<string>, stripeCustomerId: Option<string>,
    monthlyPrice: Option<string>, startDate: Option<int>, renewalDate: Option<int>,
    cancelledAt: Option<int>)

  /** The `config` JSON column of an instance as the deploy procedure writes it. */
  datatype InstanceConfig = InstanceConfig(communicationChannels: seq<string>, connectedServices: seq<string>)

  datatype AIInstance = InstanceRow(
    id: nat, userId: int, subscriptionId: int, status: InstanceStatus,
    deploymentId: Option<string>, doAppId: Option<string>, telegramBotToken: Option<string>,
    telegramBotUsername: Option<string>, aiEmail: Option<string>, aiRole: Option<string>,
    config: Option<InstanceConfig>, errorMessage: Option<string>)

  datatype BillingRecord = BillingRow(
    id: nat, userId: int, subscriptionId: Option<int>, billingType: BillingType,
    amount: string, currency: string, stripeChargeId: Option<string>,
    stripeInvoiceId: Option<string>, description: Option<string>, status: BillingStatus)

  datatype Lead = LeadRow(
    id: nat, email: string, selectedTier: Option<Tier>, status: LeadStatus,
    stripeSessionId: Option<string>, userId: Option<int>, source: string)

  datatype Affiliate = AffiliateRow(
    id: nat, userId: int, affiliateCode: string, status: AffiliateStatus,
    commissionRate: string, totalEarnings: string, pendingEarnings: string,
    paidEarnings: string, paypalEmail: Option<string>, bankDetails: Option<Json>)

  datatype Referral = ReferralRow(
    id: nat, affiliateId: int, referredUserId: Option<int>, referredEmail: Option<string>,
    status: ReferralStatus, subscriptionId: Option<int>, clickedAt: int,
    signedUpAt: Option<int>, subscribedAt: Option<int>, ipAddress: Option<string>,
    userAgent: Option<string>)

  datatype Commission = CommissionRow(
    id: nat, affiliateId: int, referralId: int, subscriptionId: int,
    billingRecordId: Option<int>, amount: string, commissionRate: string,
    status: CommissionStatus, commissionType: CommissionType, paidAt: Option<int>,
    notes: Option<string>)

  // ------------------------------------------------ inserts and their defaults
  // In an insert, `None` is a column left out (or given as null). A column
  // with a default then takes it; a nullable column without one is null.

  datatype SubscriptionInsert = SubscriptionInsert(
    userId: int, tier: Tier, status: Option<SubscriptionStatus>, setupFeePaid: Option<bool>,
    stripeSubscriptionId: Option<string>, stripeCustomerId: Option<string>,
    monthlyPrice: Option<string>, startDate: Option<int>, renewalDate: Option<int>)

  function NewSubscription(id: nat, ins: SubscriptionInsert): (r: Subscription)
    ensures r.id == id && r.userId == ins.userId && r.tier == ins.tier
    ensures ins.status.None? ==> r.status == SubscriptionStatus.Pending
    ensures ins.status.Some? ==> r.status == ins.status.value
    ensures ins.setupFeePaid.None? ==> !r.setupFeePaid
    ensures ins.setupFeePaid.Some? ==> r.setupFeePaid == ins.setupFeePaid.value
    ensures r.stripeSubscriptionId == ins.stripeSubscriptionId && r.stripeCustomerId == ins.stripeCustomerId
    ensures r.monthlyPrice == ins.monthlyPrice && r.startDate == ins.startDate
    ensures r.renewalDate == ins.renewalDate && r.cancelledAt.None?
  {
    SubscriptionRow(id, ins.userId, ins.tier, ins.status.GetOr(SubscriptionStatus.Pending),
      ins.setupFeePaid.GetOr(false), ins.stripeSubscriptionId, ins.stripeCustomerId,
      ins.monthlyPrice, ins.startDate, ins.renewalDate, None)
  }

  datatype InstanceInsert = InstanceInsert(
    userId: int, subscriptionId: int, status: Option<InstanceStatus>,
    aiRole: Option<string>, telegramBotToken: Option<string>, config: Option<InstanceConfig>)

  function NewInstance(id: nat, ins: InstanceInsert): (r: AIInstance)
    ensures r.id == id && r.userId == ins.userId && r.subscriptionId == ins.subscriptionId
    ensures ins.status.None? ==> r.status == Provisioning
    ensures ins.status.Some? ==> r.status == ins.status.value
    ensures r.doAppId.None? && r.deploymentId.None? && r.errorMessage.None?
    ensures r.aiRole == ins.aiRole && r.telegramBotToken == ins.telegramBotToken && r.config == ins.config
  {
    InstanceRow(id, ins.userId, ins.subscriptionId, ins.status.GetOr(Provisioning),
      None, None, ins.telegramBotToken, None, None, ins.aiRole, ins.config, None)
  }

  datatype BillingInsert = BillingInsert(
    userId: int, billingType: BillingType, amount: string, status: Option<BillingStatus>,
    stripeChargeId: Option<string>)

  function NewBillingRecord(id: nat, ins: BillingInsert): (r: BillingRecord)
    ensures r.id == id && r.userId == ins.userId && r.billingType == ins.billingType && r.amount == ins.amount
    ensures r.currency == "USD"
    ensures ins.status.None? ==> r.status == BillingStatus.Pending
    ensures ins.status.Some? ==> r.status == ins.status.value
    ensures r.subscriptionId.None? && r.stripeChargeId == ins.stripeChargeId
    ensures r.stripeInvoiceId.None? && r.description.None?
  {
    BillingRow(id, ins.userId, None, ins.billingType, ins.amount, "USD", ins.stripeChargeId,
      None, None, ins.status.GetOr(BillingStatus.Pending))
  }

  datatype LeadInsert = LeadInsert(email: string, selectedTier: Option<Tier>, status: Option<LeadStatus>)

  function NewLead(id: nat, ins: LeadInsert): (r: Lead)
    ensures r.id == id && r.email == ins.email && r.selectedTier == ins.selectedTier
    ensures ins.status.None? ==> r.status == LeadStatus.Lead
    ensures ins.status.Some? ==> r.status == ins.status.value
    ensures r.userId.None? && r.stripeSessionId.None? && r.source == "onboarding"
  {
    LeadRow(id, ins.email, ins.selectedTier, ins.status.GetOr(LeadStatus.Lead), None, None, "onboarding")
  }

  datatype AffiliateInsert = AffiliateInsert(userId: int, affiliateCode: string, status: Option<AffiliateStatus>, commissionRate: Option<string>)

  function NewAffiliate(id: nat, ins: AffiliateInsert): (r: Affiliate)
    ensures r.id == id && r.userId == ins.userId && r.affiliateCode == ins.affiliateCode
    ensures ins.status.None? ==> r.status == AffiliateStatus.Active
    ensures ins.status.Some? ==> r.status == ins.status.value
    ensures ins.commissionRate.None? ==> r.commissionRate == "30.00"
    ensures ins.commissionRate.Some? ==> r.commissionRate == ins.commissionRate.value
    ensures r.totalEarnings == "0" && r.pendingEarnings == "0" && r.paidEarnings == "0"
    ensures r.paypalEmail.None? && r.bankDetails.None?
  {
    AffiliateRow(id, ins.userId, ins.affiliateCode, ins.status.GetOr(AffiliateStatus.Active),
      ins.commissionRate.GetOr("30.00"), "0", "0", "0", None, None)
  }

  datatype ReferralInsert = ReferralInsert(affiliateId: int, status: Option<ReferralStatus>, ipAddress: Option<string>, userAgent: Option<string>)

  /** `clickedAt` defaults to the time of the insert, given as `now`. */
  function NewReferral(id: nat, ins: ReferralInsert, now: int): (r: Referral)
    ensures r.id == id && r.affiliateId == ins.affiliateId && r.clickedAt == now
    ensures ins.status.None? ==> r.status == ReferralStatus.Pending
    ensures ins.status.Some? ==> r.status == ins.status.value
    ensures r.referredUserId.None? && r.referredEmail.None? && r.subscriptionId.None?
    ensures r.signedUpAt.None? && r.subscribedAt.None?
    ensures r.ipAddress == ins.ipAddress && r.userAgent == ins.userAgent
  {
    ReferralRow(id, ins.affiliateId, None, None, ins.status.GetOr(ReferralStatus.Pending), None,
      now, None, None, ins.ipAddress, ins.userAgent)
  }

  datatype CommissionInsert = CommissionInsert(
    affiliateId: int, referralId: int, subscriptionId: int, billingRecordId: Option<int>,
    amount: string, commissionRate: string, status: Option<CommissionStatus>, commissionType: CommissionType)

  function NewCommission(id: nat, ins: CommissionInsert): (r: Commission)
    ensures r.id == id && r.affiliateId == ins.affiliateId && r.referralId == ins.referralId
    ensures r.amount == ins.amount && r.commissionRate == ins.commissionRate
    ensures r.commissionType == ins.commissionType && r.billingRecordId == ins.billingRecordId
    ensures ins.status.None? ==> r.status == CommissionStatus.Pending
    ensures ins.status.Some? ==> r.status == ins.status.value
    ensures r.paidAt.None? && r.notes.None?
  {
    CommissionRow(id, ins.affiliateId, ins.referralId, ins.subscriptionId, ins.billingRecordId,
      ins.amount, ins.commissionRate, ins.status.GetOr(CommissionStatus.Pending), ins.commissionType, None, None)
  }

  // -------------------------------------------------------- unique columns

  /** `users.openId` and `users.email` are each unique. */
  ghost predicate UniqueUsers(users: seq<User>) {
    forall i, j :: 0 <= i < j < |users| ==>
      users[i].openId != users[j].openId && users[i].email != users[j].email
  }

  /** `leads.email` is unique. */
  ghost predicate UniqueLeads(leads: seq<Lead>) {
    forall i, j :: 0 <= i < j < |leads| ==> leads[i].email != leads[j].email
  }

  /** `affiliates.userId` (one account per user) and `affiliates.affiliateCode` are each unique. */
  ghost predicate UniqueAffiliates(affiliates: seq<Affiliate>) {
    forall i, j :: 0 <= i < j < |affiliates| ==>
      affiliates[i].userId != affiliates[j].userId
      && affiliates[i].affiliateCode != affiliates[j].affiliateCode
  }

  /** Inserting a lead: the unique index on `email` refuses a second row with the same address. */
  function InsertLead(leads: seq<Lead>, id: nat, ins: LeadInsert): (r: Result<seq<Lead>>)
    ensures r.Fail? <==> exists i :: 0 <= i < |leads| && leads[i].email == ins.email
    ensures r.Ok? ==> r.value == leads + [NewLead(id, ins)]
    ensures r.Ok? && UniqueLeads(leads) ==> UniqueLeads(r.value)
  {
    match FirstIndex(leads, (l: Lead) => l.email == ins.email)
    case Some(_) => Fail(DuplicateEntry("email"))
    case None => Ok(leads + [NewLead(id, ins)])
  }
}
