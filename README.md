# OpenClaw Concierge — a Dafny model of its core

OpenClaw Concierge sells hosted AI assistants. A visitor picks a tier (starter, pro or business). They pay a setup fee plus a first month through Stripe Checkout. The server then records the subscription and the charges, and provisions an OpenClaw container on DigitalOcean App Platform. Affiliates earn commissions through referral codes.

This project models the deterministic core of that flow:

- the database schema's enumerations and column defaults, and the persistence helpers over in-memory tables (`Db.Store`), including the user upsert's insert/update merge;
- the Stripe price table, checkout request and renewal-date fallback;
- the DigitalOcean app spec, its token check and error text, and the status and log fallbacks;
- the onboarding and dashboard procedures (`verifyPayment`, `deployInstance`, `getStatus`, `restartInstance`, `getLogs`);
- the Stripe webhook's decision table;
- the affiliate procedures over the `affiliates` and `referrals` tables (`Affiliate.AffiliateStore`), including the bounded code-retry loop;
- the sliding-window rate limiter and the port search of the server entry point;
- three client-side pieces: the configuration form (token format, check lists, deploy guards), the sign-up wizard (price table, step counter, temporary id) and the deployment progress screen (simulated steps and progress bar).

The clock, `Math.random`, `JSON.stringify`, Stripe's and DigitalOcean's answers, signature verification and port probing all become parameters. Code that updates state in place is modelled as classes with `modifies` clauses. Pure code is modelled as functions and lemmas.

Files, one module each:

- `common.dfy`: Option, Result, failures, sequence search.
- `text.dfy`: integer rendering, `parseInt`, cents, ASCII case.
- `schema.dfy`
- `stripe_service.dfy`
- `db.dfy`
- `digitalocean.dfy`
- `routers.dfy`
- `stripe_webhook.dfy`
- `affiliate.dfy`
- `server_core.dfy`
- `onboarding_configure.dfy`
- `onboarding.dfy`
- `deployment_progress.dfy`

Points where the code behaves differently from what its callers or comments suggest; the model follows the code:

- `verifyPayment` has no existence check, so every paid call inserts a subscription and two charges again (server/routers.ts:50-86).
- The page's comment at client/src/pages/OnboardingConfigure.tsx:87 says the server returns at once and provisioning runs in the background, but `deployInstance` awaits the provisioner before it returns (server/routers.ts:121-149).
- `verifyPayment` takes `userId` and `tier` as input and returns only success. The configuration page instead expects them back.
- The deploy request carries fields (`sessionId`, `userId`, `userEmail`, `customApiKey`) that the server's input schema does not read. The server side is modelled as the server's schema defines it.

## Model

| member | source | states |
|---|---|---|
| Common.MessageOf | server/routers.ts:141-148 | the text `error.message` gives for each kind of failure, as written into the instance's `errorMessage`; a duplicate key's text is a placeholder naming the column |
| Common.FirstIndex | server/db.ts:110-116 | the first row matching a predicate, or none exactly when no row matches (`.limit(1)` on table order) |
| Common.LastIndex | server/api/trpc/routers/affiliate.ts:266-276 | the last row matching a predicate, with no later match; none exactly when no row matches |
| Common.Filter | server/db.ts:158-164 | a sub-list of matching rows that keeps every matching row |
| Common.FilterAppend | server/db.ts:158-164 | filtering keeps table order: a row appended last is kept last, if it matches |
| Common.Count | server/api/trpc/routers/affiliate.ts:140-141 | the number of matching rows; zero exactly when none matches |
| Common.CountMonotone | server/api/trpc/routers/affiliate.ts:140-141 | a weaker predicate never counts fewer rows |
| Common.CountIsFilterLength | server/api/trpc/routers/affiliate.ts:140-141 | `filter(...).length` equals the count of matching rows |
| Text.NatToString | server/routers.ts:65 | a non-empty run of decimal digits with no leading zero unless the number is 0 (`toString()`) |
| Text.IntToString | server/services/stripe.ts:48 | the decimal text of an integer, with a minus sign exactly for negatives |
| Text.NatToStringRoundTrip | server/routers.ts:65 | the decimal text of a number reads back as that number |
| Text.NatToStringInjective | server/services/digitalocean.ts:51 | distinct numbers have distinct decimal texts |
| Text.ParseInt | server/webhooks/stripe.ts:35 | `parseInt`: leading whitespace, sign, `0x` prefix, longest digit prefix; no value when no digit follows |
| Text.ParseIntOfNatToString | server/webhooks/stripe.ts:35 | `parseInt` of a number's decimal text gives that number |
| Text.ParseIntOfIntToString | server/services/stripe.ts:43-48 | `parseInt` of an integer's decimal text gives that integer back |
| Text.FormatCents | server/routers.ts:76 | `(cents / 100).toFixed(2)`: whole dollars, a point, two digits of cents |
| Text.FormatCentsRoundTrip | server/routers.ts:76-84 | the two-decimal dollar text reads back as the same number of cents |
| Text.ToUpperAscii | server/api/trpc/routers/affiliate.ts:10-11 | every character upper-cased, length kept |
| Text.Capitalize | server/services/stripe.ts:57 | the first letter upper-cased, the rest unchanged |
| Schema.TierName | drizzle/schema.ts:35 | every tier's name parses back to that tier |
| Schema.ParseTier | drizzle/schema.ts:35 | exactly "starter", "pro" and "business" are tiers |
| Schema.NewSubscription | drizzle/schema.ts:33-47 | a new subscription is pending and without the setup fee paid unless told otherwise, and not cancelled |
| Schema.NewInstance | drizzle/schema.ts:55-70 | a new instance is provisioning unless told otherwise; app id, deployment id and error message start null |
| Schema.NewBillingRecord | drizzle/schema.ts:78-91 | a new charge is in USD and pending unless told otherwise |
| Schema.NewLead | drizzle/schema.ts:114-124 | a new lead has status "lead" and source "onboarding" unless told otherwise |
| Schema.NewAffiliate | drizzle/schema.ts:176-189 | a new affiliate is active at rate "30.00" unless told otherwise, with all earnings "0" and no payout details |
| Schema.NewReferral | drizzle/schema.ts:197-211 | a new referral is pending unless told otherwise, clicked now, with no referred user, email, subscription or signup time |
| Schema.NewCommission | drizzle/schema.ts:219-233 | a new commission is pending unless told otherwise and not paid |
| Schema.InsertLead | drizzle/schema.ts:116 | the unique email index refuses a second lead with the same address; an accepted insert keeps emails unique |
| StripeService.Pricing | server/services/stripe.ts:16-29 | setup fee 25000 cents for every tier; monthly 4900, 9900 and 14900 cents |
| StripeService.MonthlyPriceIncreasing | server/services/stripe.ts:19-27 | the monthly price rises strictly from starter to pro to business |
| StripeService.CheckoutItems | server/services/stripe.ts:52-75 | two line items in order (setup fee, first month), each quantity 1 in usd at the tier's prices, with capitalised product names; together they charge the fee plus one month |
| StripeService.CheckoutSessionRequest | server/services/stripe.ts:34-79 | payment mode and promotion codes; the tier's two line items; the metadata's user id and tier parse back to the inputs; the client reference equals the metadata user id |
| StripeService.ProductNames | server/services/stripe.ts:57-68 | the product names start "Starter", "Pro" and "Business" |
| StripeService.RenewalDate | server/services/stripe.ts:113-126 | the period end times 1000 when an id is given and the lookup yields a non-zero period end; otherwise now plus 30 days in milliseconds |
| Db.Nullable | server/db.ts:49-60 | an undefined field is left out; null and a value are written as given |
| Db.UpsertRole | server/db.ts:70-79 | a supplied role wins; otherwise admin exactly when the openId is the owner's |
| Db.InsertValues | server/db.ts:43-79 | the insert row: the email or `TempEmail`, i.e. `<openId>@temp.openclaw.local`, the supplied nullable fields, the given or current sign-in time, and the role rule |
| Db.UpdateSetOf | server/db.ts:47-83 | the update set is the insert row without `openId` and `email`, so an existing email is never overwritten |
| Db.BuildUpsert | server/db.ts:43-79 | the successive assignments build exactly the insert row and the update set |
| Db.NewUser | drizzle/schema.ts:9-25 | a new user row carries the inserted keys, name, password hash, login method, role and sign-in time; a nullable column left out is null |
| Db.ApplyUserUpdate | server/db.ts:81-83 | the duplicate-key update keeps id, openId and email and writes only the fields in the set |
| Db.ConflictIndex | drizzle/schema.ts:16-18 | the existing row that clashes on openId or email, the openId's row whenever one holds it, or none exactly when neither key is taken |
| Db.UpdateUserKeepsKeys | server/db.ts:81-83 | the duplicate-key update keeps openId and email unique and the ids rising |
| Db.InsertUserKeepsKeys | server/db.ts:81-83 | inserting a row that clashes with none keeps openId and email unique and the ids rising |
| Db.ApplySubscriptionPatch | server/db.ts:118-123 | each patchable column is set when passed and kept otherwise; id, user and start date stay |
| Db.PatchSubscriptions | server/db.ts:118-123 | only the row with the given id is patched |
| Db.ApplyInstancePatch | server/db.ts:142-147 | only the passed fields change; id, user, subscription, role, config and token stay |
| Db.PatchInstances | server/db.ts:142-147 | only the row with the given id is patched |
| Db.PatchNewestInstance | server/db.ts:142-147 | patching the row just appended changes only that last row |
| Db.SubscriptionOf | server/db.ts:110-116 | the user's first subscription in table order (no earlier row is the user's), or none exactly when the user has none |
| Db.InstanceOf | server/db.ts:134-140 | the user's first instance in table order (no earlier row is the user's), or none exactly when the user has none |
| Db.BillingOf | server/db.ts:158-164 | exactly the user's charges |
| Db.UserByOpenId | server/db.ts:89-99 | the user with that openId, or none exactly when there is none |
| Db.Store.constructor | server/db.ts:18-28 | empty tables, with or without a database |
| Db.Store.UpsertUser | server/db.ts:30-87 | an empty openId throws and writes nothing; without a database nothing happens; a clash on openId or email updates that row with the update set; otherwise the insert row is appended; keys stay unique |
| Db.Store.GetUserByOpenId | server/db.ts:89-99 | undefined without a database, else the matching user |
| Db.Store.CreateSubscription | server/db.ts:102-108 | throws "Database not available" without a database; otherwise appends the row with the next id and returns that id |
| Db.Store.GetSubscriptionByUserId | server/db.ts:110-116 | undefined without a database, else the user's first subscription |
| Db.Store.UpdateSubscription | server/db.ts:118-123 | throws without a database; otherwise patches only the row with that id |
| Db.Store.CreateAIInstance | server/db.ts:126-132 | throws without a database; otherwise appends the row with the next id and returns that id |
| Db.Store.GetAIInstanceByUserId | server/db.ts:134-140 | undefined without a database, else the user's first instance |
| Db.Store.UpdateAIInstance | server/db.ts:142-147 | throws without a database; otherwise patches only the row with that id |
| Db.Store.CreateBillingRecord | server/db.ts:150-156 | throws without a database; otherwise appends the row with the next id and returns that id |
| Db.Store.GetBillingRecordsByUserId | server/db.ts:158-164 | `[]` without a database, else all the user's charges |
| DigitalOcean.InstanceSize | server/services/digitalocean.ts:44-48 | each tier's size is one of the three smallest valid slugs |
| DigitalOcean.InstanceSizeOrdered | server/services/digitalocean.ts:44-48 | starter, pro and business get basic-xxs, basic-xs and basic-s |
| DigitalOcean.TokenOrEmpty | server/services/digitalocean.ts:81 | the bot token, or "" when absent |
| DigitalOcean.Keys | server/services/digitalocean.ts:63-89 | the keys of an env list, in order |
| DigitalOcean.Envs | server/services/digitalocean.ts:63-89 | exactly five variables in order (USER_ID, USER_EMAIL, AI_ROLE, TELEGRAM_BOT_TOKEN, CONFIG_JSON), all RUN_TIME, with the user's decimal id, email, role, token or "", and the configuration JSON |
| DigitalOcean.UserIdEnvRoundTrip | server/services/digitalocean.ts:65-66 | the USER_ID variable parses back to the user id |
| DigitalOcean.BuildAppSpec | server/services/digitalocean.ts:50-93 | region nyc and one service "openclaw-instance" of image DOCKER_HUB alpine/openclaw:latest, one instance of the tier's size, port 8080, with the five variables, named by `AppName` "openclaw-<userId>-<clock>" |
| DigitalOcean.SplitAtDash | server/services/digitalocean.ts:51 | a dash after a run of digits splits the text in only one way |
| DigitalOcean.AppNameInjective | server/services/digitalocean.ts:51 | `AppName` ("openclaw-" + user id + "-" + `Date.now()`): for non-negative ids and clocks, distinct (user, clock) pairs give distinct app names |
| DigitalOcean.ProvisionErrorMessage | server/services/digitalocean.ts:114-124 | "Failed to provision AI instance: " followed by the body's JSON when it is an object, the body when it is a non-empty text, else the error message |
| DigitalOcean.CreateOpenClawApp | server/services/digitalocean.ts:39-126 | without a token it throws the configuration error and posts nothing; otherwise it posts the built spec and returns the app id or throws the provisioning error |
| DigitalOcean.GetDeploymentStatus | server/services/digitalocean.ts:149-156 | never empty: the active phase, "unknown" when absent, "error" when the lookup fails |
| DigitalOcean.RestartApp | server/services/digitalocean.ts:177-193 | succeeds exactly when the request succeeds; otherwise throws "Failed to restart app" |
| DigitalOcean.GetAppLogs | server/services/digitalocean.ts:198-219 | the response's logs, or no lines on failure or when the body has none |
| Routers.StripeCustomerIdOf | server/routers.ts:64 | the customer string, else the customer object's id, else null |
| Routers.PaidSubscription | server/routers.ts:59-68 | active, setup fee paid, monthly price as the raw cents text, started now, renewing 30 days later |
| Routers.SetupFeeCharge | server/routers.ts:71-79 | a completed setup-fee charge of the tier's fee in two-decimal dollars, carrying the payment intent |
| Routers.FirstMonthCharge | server/routers.ts:72-86 | a completed monthly charge of the tier's price in two-decimal dollars, with no charge id |
| Routers.PaymentAmounts | server/routers.ts:65-84 | the two charges read back as the tier's cents, and so does the subscription's monthly price |
| Routers.StarterNumerals | server/routers.ts:65 | the decimal texts of 250, 49 and 4900 |
| Routers.StarterAmounts | server/routers.ts:76-84 | the two-decimal texts of 25000 and 4900 cents are "250.00" and "49.00" |
| Routers.StarterPaymentTexts | server/routers.ts:65-84 | for starter the texts are "250.00", "49.00" and "4900" |
| Routers.VerifyPayment | server/routers.ts:45-89 | an unpaid session throws "Payment not completed" and writes nothing; a paid one appends one subscription and then the setup-fee and first-month charges, on every call |
| Routers.RecordPayment | server/routers.ts:59-86 | without a database nothing is written; otherwise one subscription and then the two charges are appended with the next ids |
| Routers.ProvisioningInstance | server/routers.ts:108-118 | the row inserted before provisioning: provisioning, with the role, token and configuration given |
| Routers.ProvisionParams | server/routers.ts:122-132 | the provisioning request carries the user's id, email or "", role, the subscription's tier, token and configuration |
| Routers.OutcomePatch | server/routers.ts:135-146 | success sets running and the app id; failure sets error and the message |
| Routers.DeployInstance | server/routers.ts:92-150 | without a subscription it throws "No active subscription found" and inserts nothing; otherwise it appends one instance, which ends patched by the provisioning outcome, and it returns the app id or rethrows |
| Routers.DeployEndsSettled | server/routers.ts:134-149 | the new row ends running with the app id exactly when provisioning succeeded, else in error with the message |
| Routers.AppIdOf | server/routers.ts:171-183 | an app id exactly when there is an instance with a non-empty app id |
| Routers.RestartInstance | server/routers.ts:168-177 | the instance is `DashboardInstance`: the user's first instance, or none without a database; "No instance found" and no request without an app id; otherwise a restart of that app |
| Routers.GetLogs | server/routers.ts:180-189 | the instance is `DashboardInstance`, as for restart; no lines and no request without an app id; otherwise that app's logs |
| Routers.GetStatus | server/routers.ts:155-165 | the user's first subscription, first instance and all charges |
| StripeWebhook.UserIdText | server/webhooks/stripe.ts:35 | the metadata user id, else the client reference, else "0", each taken only when non-empty |
| StripeWebhook.CheckoutCompleted | server/webhooks/stripe.ts:33-48 | a payment is noted exactly when the user id parses to a non-zero number and a tier is named |
| StripeWebhook.HandleStripeWebhook | server/webhooks/stripe.ts:7-77 | 400 "Missing signature" without verification; 400 "Invalid signature" when verification fails; `verified` for test events; otherwise `received`, or 500 when a handled event has no object; the checkout branch runs only for completed sessions |
| StripeWebhook.CheckoutMetadataRoundTrip | server/services/stripe.ts:43-51 | a session built by the checkout request yields its user and tier at the webhook, except that user 0 is dropped |
| Affiliate.Substring | server/api/trpc/routers/affiliate.ts:11 | `substring` with clamped bounds is no longer than the range |
| Affiliate.CleanName | server/api/trpc/routers/affiliate.ts:10 | at most 6 characters of `[A-Z0-9]`: the upper-cased prefix of the name's ASCII letters and digits |
| Affiliate.RandomSuffix | server/api/trpc/routers/affiliate.ts:11 | at most 4 characters |
| Affiliate.GenerateAffiliateCode | server/api/trpc/routers/affiliate.ts:9-13 | at most 10 characters, starting with the cleaned name |
| Affiliate.AffiliateCodeFormat | server/affiliate.test.ts:39 | for a random text of the form "0.<base 36>" the code is non-empty and matches `/^[A-Z0-9]+$/` |
| Affiliate.AffiliateOfUser | server/api/trpc/routers/affiliate.ts:23-27 | the user's account, or none exactly when the user has none |
| Affiliate.AffiliateByCode | server/api/trpc/routers/affiliate.ts:219-223 | the account with the code, or none exactly when the code is free |
| Affiliate.ReferralsOf | server/api/trpc/routers/affiliate.ts:134-137 | exactly the affiliate's referrals |
| Affiliate.Candidates | server/api/trpc/routers/affiliate.ts:54-66 | the eleven codes the procedure may draw, in order |
| Affiliate.ChosenIndex | server/api/trpc/routers/affiliate.ts:57-68 | the first free candidate among the ten checked, else the eleventh, unchecked |
| Affiliate.ChosenCodeCollides | server/api/trpc/routers/affiliate.ts:57-68 | `ChosenCode`, the code the retry loop ends on, is taken exactly when all eleven candidates are taken |
| Affiliate.DrawCode | server/api/trpc/routers/affiliate.ts:54-68 | the retry loop settles on `ChosenCode`, the first free of the ten checked candidates, else the eleventh |
| Affiliate.InsertAffiliate | drizzle/schema.ts:178-179 | the unique indexes refuse a repeated user (checked first) or code, naming the column; otherwise the row is appended |
| Affiliate.InsertAffiliateKeepsStore | drizzle/schema.ts:177-179 | an accepted insert keeps user and code unique and the ids rising |
| Affiliate.SetPaymentInfo | server/api/trpc/routers/affiliate.ts:106-112 | only the row with the given id gets the payment details |
| Affiliate.SetPaymentInfoKeepsStore | server/api/trpc/routers/affiliate.ts:106-112 | updating the account found by its id changes that row alone and keeps both unique keys and the rising ids |
| Affiliate.SignUpById | server/api/trpc/routers/affiliate.ts:279-287 | only the row with the given id records the signup |
| Affiliate.StatsOf | server/api/trpc/routers/affiliate.ts:139-148 | total is the count; signed up counts the signed_up and subscribed referrals, subscribed the subscribed ones; subscribed ≤ signed up ≤ total; no rate exactly when there are no referrals, else subscribed over total |
| Affiliate.NewestFirst | server/api/trpc/routers/affiliate.ts:168-173 | at most the given number of referrals, newest first |
| Affiliate.SignUp | server/api/trpc/routers/affiliate.ts:281-286 | the referral becomes signed_up with the user's id, email and the signup time; every other column, `subscribedAt` included, stays |
| Affiliate.NewestPending | server/api/trpc/routers/affiliate.ts:266-276 | the newest pending referral of the affiliate, or none exactly when it has none |
| Affiliate.WithPaymentInfo | server/api/trpc/routers/affiliate.ts:108-111 | only the PayPal email and bank details change, each only when given |
| Affiliate.AppendAffiliateIds | drizzle/schema.ts:177 | a row with the next id keeps the ids rising |
| Affiliate.AffiliateStore.constructor | drizzle/schema.ts:176-211 | empty tables |
| Affiliate.AffiliateStore.GetMyAffiliate | server/api/trpc/routers/affiliate.ts:19-30 | "Database unavailable" without a database, else the user's account or null |
| Affiliate.AffiliateStore.CreateAffiliate | server/api/trpc/routers/affiliate.ts:35-79 | a second account is refused; otherwise the code drawn from `CodeSeed` (the user's name, or the email when the name is missing or empty) is inserted as an active account at "30.00" and returned, or the unique key refuses it when all candidates collide |
| Affiliate.AffiliateStore.Insert | server/api/trpc/routers/affiliate.ts:71-78 | the table as the unique keys leave it: refused and unchanged, or the row appended with the next id |
| Affiliate.AffiliateStore.UpdatePaymentInfo | server/api/trpc/routers/affiliate.ts:84-115 | NOT_FOUND without an account; otherwise only the user's row gets the details given |
| Affiliate.AffiliateStore.GetStats | server/api/trpc/routers/affiliate.ts:120-149 | null without an account, else the statistics of its referrals |
| Affiliate.AffiliateStore.GetReferrals | server/api/trpc/routers/affiliate.ts:154-176 | `[]` without an account, else its fifty newest referrals, newest first |
| Affiliate.AffiliateStore.TrackClick | server/api/trpc/routers/affiliate.ts:208-241 | "Invalid affiliate code" for an unknown or inactive code; otherwise exactly one pending referral with the ip and user agent is appended |
| Affiliate.AffiliateStore.LinkReferralToUser | server/api/trpc/routers/affiliate.ts:246-291 | `false` for an unknown code; otherwise only the newest pending referral records the signup, or nothing changes when none is pending |
| Affiliate.ClickThenLink | server/api/trpc/routers/affiliate.ts:233-276 | the click just tracked is the referral a following link signs up |
| ServerCore.InWindow | server/_core/index.ts:33 | the timestamps strictly newer than the cutoff, and only those |
| ServerCore.InWindowAppend | server/_core/index.ts:40-41 | filtering after a push is filtering, then keeping the new stamp when recent |
| ServerCore.InWindowTwice | server/_core/index.ts:20-27 | filtering at an earlier cutoff before a later one changes nothing |
| ServerCore.InWindowShrinks | server/_core/index.ts:33 | a later cutoff keeps no more timestamps |
| ServerCore.Stored | server/_core/index.ts:33 | an unseen key has no timestamps |
| ServerCore.ClientKey | server/_core/index.ts:30 | the ip, else the socket address, else "unknown"; never empty |
| ServerCore.BoundedLater | server/_core/index.ts:31-42 | no key exceeding `max` recent requests stays true as time passes |
| ServerCore.Cleaned | server/_core/index.ts:20-27 | only recent timestamps remain, and keys with none are gone |
| ServerCore.CleanupKeepsDecisions | server/_core/index.ts:20-27 | with a clock that does not go back, cleanup changes nothing a later request counts |
| ServerCore.RateLimiter.constructor | server/_core/index.ts:16-18 | no client seen yet |
| ServerCore.ApiLimiter | server/_core/index.ts:81-82 | the API limiter allows 100 requests per 60000 ms window and starts with no client seen |
| ServerCore.RateLimiter.Recent | server/_core/index.ts:32-33 | the key's stamps within the window |
| ServerCore.RateLimiter.Handle | server/_core/index.ts:29-43 | allowed exactly when fewer than `max` recent stamps; a refusal is 429 and records nothing; an allowed request stores the recent stamps plus now; other keys untouched; the bound is kept |
| ServerCore.RateLimiter.Cleanup | server/_core/index.ts:20-27 | the map becomes its cleaned form |
| ServerCore.SweepDone | server/_core/index.ts:20-27 | a sweep that has visited every key leaves exactly the cleaned map |
| ServerCore.FindAvailablePort | server/_core/index.ts:56-63 | the first free port among the twenty from the start, probed in ascending order, or "No available port found starting from <start>" exactly when none is free |
| OnboardingConfigure.LeadingDigits | client/src/pages/OnboardingConfigure.tsx:67 | the length of the leading run of digits |
| OnboardingConfigure.MatchesBotTokenIff | client/src/pages/OnboardingConfigure.tsx:67 | the scan accepts exactly the texts of digits, a colon and at least twenty of `[A-Za-z0-9_-]` |
| OnboardingConfigure.Without | client/src/pages/OnboardingConfigure.tsx:113-121 | every copy of the item gone, everything else kept |
| OnboardingConfigure.Toggle | client/src/pages/OnboardingConfigure.tsx:110-124 | the item's membership flips and no other item's does; an absent item is appended at the end |
| OnboardingConfigure.WithoutAppended | client/src/pages/OnboardingConfigure.tsx:113-114 | removing an item just appended to a list without it gives the list back |
| OnboardingConfigure.ToggleTwice | client/src/pages/OnboardingConfigure.tsx:110-124 | toggling an absent item twice restores the list |
| OnboardingConfigure.NonEmpty | client/src/pages/OnboardingConfigure.tsx:96-99 | an empty text is sent as undefined |
| OnboardingConfigure.DeployFailureToast | client/src/pages/OnboardingConfigure.tsx:105 | the error's message, else "Failed to start deployment" |
| OnboardingConfigure.ConfigureForm.constructor | client/src/pages/OnboardingConfigure.tsx:16-28 | Telegram ticked, no services, nothing typed, not deploying |
| OnboardingConfigure.ConfigureForm.Refusal | client/src/pages/OnboardingConfigure.tsx:70-83 | the first failing guard in order: the role toast, the session toast, then the token-format toast for a non-empty malformed token; none exactly when the role, user id, email and session are present and the token is empty or well formed |
| OnboardingConfigure.ConfigureForm.HandleDeploy | client/src/pages/OnboardingConfigure.tsx:69-108 | a failing guard sends nothing and leaves `deploying`; otherwise the request goes out with empty optional texts undefined, and `deploying` stays set unless the mutation fails |
| OnboardingConfigure.ConfigureForm.ToggleChannel | client/src/pages/OnboardingConfigure.tsx:110-116 | the channel list is toggled |
| OnboardingConfigure.ConfigureForm.ToggleService | client/src/pages/OnboardingConfigure.tsx:118-124 | the service list is toggled |
| Onboarding.PricingTiers | client/src/pages/Onboarding.tsx:14-33 | a $250 setup fee and at least four features for every tier |
| Onboarding.PricesAgreeWithServer | client/src/pages/Onboarding.tsx:14-33 | the page's dollars times 100 equal the server's cents, and its names equal the checkout's plan names |
| Onboarding.Wizard.constructor | client/src/pages/Onboarding.tsx:37-42 | step 1, no email, starter |
| Onboarding.Wizard.HandleNext | client/src/pages/Onboarding.tsx:46-52 | step 1 without an email stays put with a toast; otherwise the step goes up by one |
| Onboarding.Wizard.HandleBack | client/src/pages/Onboarding.tsx:54-56 | the step goes down by one |
| Onboarding.TempUserId | client/src/pages/Onboarding.tsx:61-62 | the clock in whole seconds, rounded down |
| Onboarding.TempUserIdFitsInt | client/src/pages/Onboarding.tsx:61 | below 2^31 seconds the id fits a MySQL INT |
| DeploymentProgress.SumDurations | client/src/components/DeploymentProgress.tsx:79-82 | no steps sum to zero; each step adds `DurationOf`, its duration or 0 when it has none (with SumPrefixStep) |
| DeploymentProgress.SumPrefixStep | client/src/components/DeploymentProgress.tsx:80-82 | one more finished step adds its duration |
| DeploymentProgress.SumPrefixMonotone | client/src/components/DeploymentProgress.tsx:80-82 | more finished steps never sum to less |
| DeploymentProgress.SumSameShape | client/src/components/DeploymentProgress.tsx:80-82 | statuses play no part in the sums |
| DeploymentProgress.CompletedSums | client/src/components/DeploymentProgress.tsx:17-79 | the total is 40; the finished sums are 0, 2, 5, 20, 30, 38, 40 |
| DeploymentProgress.Percent | client/src/components/DeploymentProgress.tsx:83 | the rounded percentage, capped at 100 |
| DeploymentProgress.Progress | client/src/components/DeploymentProgress.tsx:80-83 | the rounded percentage of `CompletedDuration`, the durations of the first `index` steps (the slice clamped to the list), over the total; never above 100 |
| DeploymentProgress.ProgressMonotone | client/src/components/DeploymentProgress.tsx:80-83 | the bar never goes back as steps finish |
| DeploymentProgress.ProgressFull | client/src/components/DeploymentProgress.tsx:80-83 | 100 exactly when all six steps are done |
| DeploymentProgress.ProgressValues | client/src/components/DeploymentProgress.tsx:80-83 | 0, 5, 13, 50, 75, 95, 100 along the way |
| DeploymentProgress.MarkAt | client/src/components/DeploymentProgress.tsx:47-59 | only the step at the index changes, and only in status |
| DeploymentProgress.StartStaged | client/src/components/DeploymentProgress.tsx:47-51 | starting the current step keeps the earlier steps completed and the later ones pending |
| DeploymentProgress.CompleteStaged | client/src/components/DeploymentProgress.tsx:55-59 | completing the current step moves the stage on by one |
| DeploymentProgress.DelayMs | client/src/components/DeploymentProgress.tsx:61 | the step's duration in milliseconds, 5 seconds when it has none |
| DeploymentProgress.Tracker.constructor | client/src/components/DeploymentProgress.tsx:27-29 | the six pending steps, index 0, no error |
| DeploymentProgress.Tracker.ProgressNow | client/src/components/DeploymentProgress.tsx:80-83 | the bar's value for the current index |
| DeploymentProgress.Tracker.RunEffect | client/src/components/DeploymentProgress.tsx:31-64 | past the last step it schedules completion and changes nothing; with an error only the previous run's cleanup happens, which cancels a pending timer; otherwise only the current step goes in progress and its timer is armed |
| DeploymentProgress.Tracker.TimerFired | client/src/components/DeploymentProgress.tsx:54-61 | only the timer's step completes, the index goes up by one, and the bar does not go back |

## Left out

- Network and SDK calls are left out. Stripe, axios to DigitalOcean, the MySQL connection and Express routing appear only through their results, which are passed in as parameters.
- Timers are not modelled: `setInterval`, `setTimeout`, the effect's cleanup and `onComplete` itself. Cleanup and timer firing are explicit methods, and completion is a flag.
- Concurrency is not modelled. That includes interleaved requests and the check-then-insert races in `createAffiliate` and `upsertUser`.
- Timestamps are integers, not `Date` objects. `createdAt` and `updatedAt` columns are not modelled.
- Where the code reads the clock twice in one call, the model reads it once.
- `Math.random`, `JSON.stringify` and `Date.now` are parameters.
- Affiliate.StatsOf: the conversion rate is the pair (subscribed, total). The `toFixed(1)` percentage text is floating-point formatting.
- DeploymentProgress.Percent: uses exact integer rounding of `completed / total * 100`. For the seven sums that occur, it gives the same values as the floating-point computation.
- Text.ParseInt: whitespace is the JavaScript set listed in `text.dfy`. Numbers beyond 2^53 are not rounded as doubles.
- Affiliate.AffiliateStore.UpdatePaymentInfo: when neither field is given, the model changes nothing. The ORM's handling of an empty update set is not modelled.
- Affiliate.NewestPending: the newest pending referral is the last one in table order, standing for `orderBy(desc(createdAt))`. Creation times never decrease, but `createdAt` is a second-precision timestamp (drizzle/schema.ts:209), so two clicks in the same second tie and MySQL may return either first; the model resolves such ties by table order, which is one of the answers MySQL may give.
- Affiliate.AffiliateStore.GetReferrals: newest first is reverse table order, with same-second ties resolved the same way.
- `getCommissions` (server/api/trpc/routers/affiliate.ts:181-203) is not modelled. It is the same lookup as `getReferrals` over a table that no modelled procedure writes.
- `getApp` and `deleteApp` (server/services/digitalocean.ts:131-144, 161-172) are not modelled. No modelled procedure calls them.
- Common.MessageOf: MySQL's duplicate-key text ("Duplicate entry '<value>' for key '<index>'") comes from the server, not this code; the model's text is a placeholder that names only the column.
- Db.Store.UpsertUser: an upsert that updates an existing row leaves `nextUserId` as it is. InnoDB may consume an auto-increment value there, leaving a gap in the ids; the model only promises that ids rise.
- Db.ApplySubscriptionPatch: `updateSubscription` and `updateAIInstance` accept any `Partial` of the insert type (server/db.ts:118-123, 142-147). The patches here cover the columns the modelled procedures set: eight subscription columns and three instance columns (status, app id, error message).
- `createCheckout`, the lead procedures and the OAuth routes of server/routers.ts are not modelled.
- Input validation by zod is not modelled. The model takes inputs that already have the schema's shape.
- DeploymentProgress.Tracker: nothing in the component ever sets `error`, so the error branch of the effect is modelled but never reached.
- Onboarding.Wizard.HandleBack: the source puts no lower bound on the step. The model does not add one.
- ServerCore.FindAvailablePort: port probing is a total predicate. A probe that hangs is not modelled.
