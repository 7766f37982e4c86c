/**
 * The affiliate procedures over the `affiliates` and `referrals` tables:
 * code generation with a bounded retry on collision, account creation,
 * payment details, statistics, click tracking and linking a click to a
 * signed-up user. `Math.random().toString(36)` texts and the clock are
 * parameters.
 */
module Affiliate {
  import opened Common
  import opened Text
  import opened Schema

  // ------------------------------------------------------------ the code

  predicate IsAsciiAlnum(c: char) { 'a' <= c <= 'z' || 'A' <= c <= 'Z' || '0' <= c <= '9' }

  /** A character of `/^[A-Z0-9]+$/`. */
  predicate IsCodeChar(c: char) { 'A' <= c <= 'Z' || '0' <= c <= '9' }

  /** `s.substring(start, end)`, with both bounds clamped to the string. */
  function Substring(s: string, start: nat, end: nat): (t: string)
    requires start <= end
    ensures |t| <= end - start
  {
    var a := if start < |s| then start else |s|;
    var b := if end < |s| then end else |s|;
    s[a..b]
  }

  /** The name with everything but ASCII letters and digits removed, upper-cased, cut to 6. */
  function CleanName(name: string): (c: string)
    ensures |c| <= 6
    ensures forall i :: 0 <= i < |c| ==> IsCodeChar(c[i])
    ensures var kept := Filter(name, IsAsciiAlnum);
      |c| == (if |kept| < 6 then |kept| else 6) && c == ToUpperAscii(kept)[..|c|]
  {
    var up := ToUpperAscii(Filter(name, IsAsciiAlnum));
    if |up| <= 6 then up else up[..6]
  }

  /** Characters 2 to 5 of the base-36 text of a random fraction, upper-cased. */
  function RandomSuffix(randomText: string): (s: string)
    ensures |s| <= 4
  {
    ToUpperAscii(Substring(randomText, 2, 6))
  }

  /** What `Math.random().toString(36)` looks like: "0." then base-36 digits. */
  predicate IsBase36Fraction(t: string) {
    |t| >= 3 && t[0] == '0' && t[1] == '.'
    && forall i :: 2 <= i < |t| ==> '0' <= t[i] <= '9' || 'a' <= t[i] <= 'z'
  }

  /** `generateAffiliateCode(name)` with the random draw as `randomText`. */
  function GenerateAffiliateCode(name: string, randomText: string): (code: string)
    ensures |code| <= 10
    ensures |CleanName(name)| <= |code| && code[..|CleanName(name)|] == CleanName(name)
  {
    CleanName(name) + RandomSuffix(randomText)
  }

  /** For a well-formed random text every code is non-empty and matches `/^[A-Z0-9]+$/`. */
  lemma AffiliateCodeFormat(name: string, randomText: string)
    requires IsBase36Fraction(randomText)
    ensures var code := GenerateAffiliateCode(name, randomText);
      |code| > 0 && forall i :: 0 <= i < |code| ==> IsCodeChar(code[i])
  {
    var raw := Substring(randomText, 2, 6);
    assert |raw| >= 1;
    assert forall i :: 0 <= i < |raw| ==> raw[i] == randomText[2 + i];
    var suffix := RandomSuffix(randomText);
    assert forall i :: 0 <= i < |suffix| ==> IsCodeChar(suffix[i]);
  }

  // ------------------------------------------------------------ lookups

  function AffiliateOfUser(rows: seq<Affiliate>, userId: int): (r: Option<Affiliate>)
    ensures r.Some? ==> r.value in rows && r.value.userId == userId
    ensures r.None? <==> forall i :: 0 <= i < |rows| ==> rows[i].userId != userId
  {
    match FirstIndex(rows, (a: Affiliate) => a.userId == userId)
    case Some(k) => Some(rows[k])
    case None => None
  }

  function AffiliateByCode(rows: seq<Affiliate>, code: string): (r: Option<Affiliate>)
    ensures r.Some? ==> r.value in rows && r.value.affiliateCode == code
    ensures r.None? <==> !Taken(rows, code)
  {
    match FirstIndex(rows, (a: Affiliate) => a.affiliateCode == code)
    case Some(k) => Some(rows[k])
    case None => None
  }

  /** The affiliate's referrals, in table order. */
  function ReferralsOf(rows: seq<Referral>, affiliateId: int): (r: seq<Referral>)
    ensures |r| <= |rows|
    ensures forall i :: 0 <= i < |r| ==> r[i] in rows && r[i].affiliateId == affiliateId
    ensures forall i :: 0 <= i < |rows| && rows[i].affiliateId == affiliateId ==> rows[i] in r
  {
    Filter(rows, (x: Referral) => x.affiliateId == affiliateId)
  }

  /** Some account already holds the code. */
  predicate Taken(rows: seq<Affiliate>, code: string) {
    exists i :: 0 <= i < |rows| && rows[i].affiliateCode == code
  }

  /** The eleven codes `createAffiliate` may draw, in order. */
  function Candidates(name: string, draw: nat -> string): (codes: seq<string>)
    ensures |codes| == 11
    ensures forall m :: 0 <= m < 11 ==> codes[m] == GenerateAffiliateCode(name, draw(m))
  {
    seq(11, m requires 0 <= m < 11 => GenerateAffiliateCode(name, draw(m)))
  }

  /**
   * The candidate `createAffiliate` settles on from the `k`-th on: the
   * first whose code is free, checked at most ten times; otherwise the
   * eleventh, which is not checked.
   */
  function ChosenIndex(rows: seq<Affiliate>, codes: seq<string>, k: nat): (j: nat)
    requires |codes| == 11 && k <= 10
    ensures k <= j <= 10
    ensures forall m :: k <= m < j ==> Taken(rows, codes[m])
    ensures j < 10 ==> !Taken(rows, codes[j])
    decreases 10 - k
  {
    if k == 10 || !Taken(rows, codes[k]) then k else ChosenIndex(rows, codes, k + 1)
  }

  function ChosenCode(rows: seq<Affiliate>, name: string, draw: nat -> string): string {
    var codes := Candidates(name, draw);
    codes[ChosenIndex(rows, codes, 0)]
  }

  /** The chosen candidate collides only when all eleven candidates collide. */
  lemma ChosenCodeCollides(rows: seq<Affiliate>, codes: seq<string>)
    requires |codes| == 11
    ensures Taken(rows, codes[ChosenIndex(rows, codes, 0)]) <==> forall m :: 0 <= m <= 10 ==> Taken(rows, codes[m])
  {
    var j := ChosenIndex(rows, codes, 0);
    if Taken(rows, codes[j]) {
      assert j == 10;
    }
  }

  /**
   * The retry loop of `createAffiliate`: draw a code, and while it is
   * taken and fewer than ten checks were made, draw the next.
   */
  method DrawCode(rows: seq<Affiliate>, seed: string, draw: nat -> string) returns (code: string)
    ensures code == ChosenCode(rows, seed, draw)
  {
    ghost var codes := Candidates(seed, draw);
    code := GenerateAffiliateCode(seed, draw(0));
    var attempts := 0;
    while attempts < 10
      invariant 0 <= attempts <= 10
      invariant code == codes[attempts]
      invariant ChosenIndex(rows, codes, attempts) == ChosenIndex(rows, codes, 0)
      decreases 10 - attempts
    {
      if AffiliateByCode(rows, code).None? {
        break;
      }
      attempts := attempts + 1;
      code := GenerateAffiliateCode(seed, draw(attempts));
    }
  }

  /**
   * Inserting an account: the unique indexes on `userId` and
   * `affiliateCode` refuse a row that repeats either.
   */
  function InsertAffiliate(rows: seq<Affiliate>, id: nat, ins: AffiliateInsert): (r: Result<seq<Affiliate>>)
    ensures AffiliateOfUser(rows, ins.userId).Some? ==> r == Fail(DuplicateEntry("userId"))
    ensures AffiliateOfUser(rows, ins.userId).None? && Taken(rows, ins.affiliateCode) ==>
      r == Fail(DuplicateEntry("affiliateCode"))
    ensures AffiliateOfUser(rows, ins.userId).None? && !Taken(rows, ins.affiliateCode) ==>
      r == Ok(rows + [NewAffiliate(id, ins)])
  {
    if AffiliateOfUser(rows, ins.userId).Some? then Fail(DuplicateEntry("userId"))
    else if AffiliateByCode(rows, ins.affiliateCode).Some? then Fail(DuplicateEntry("affiliateCode"))
    else Ok(rows + [NewAffiliate(id, ins)])
  }

  /** Rows with the affiliate whose id is `id` given the payment details. */
  function SetPaymentInfo(rows: seq<Affiliate>, id: nat, info: PaymentInfo): (r: seq<Affiliate>)
    ensures |r| == |rows|
    ensures forall i :: 0 <= i < |rows| && rows[i].id == id ==> r[i] == WithPaymentInfo(rows[i], info)
    ensures forall i :: 0 <= i < |rows| && rows[i].id != id ==> r[i] == rows[i]
  {
    seq(|rows|, i requires 0 <= i < |rows| => if rows[i].id == id then WithPaymentInfo(rows[i], info) else rows[i])
  }

  /** Rows with the referral whose id is `id` signed up. */
  function SignUpById(rows: seq<Referral>, id: nat, user: User, now: int): (r: seq<Referral>)
    ensures |r| == |rows|
    ensures forall i :: 0 <= i < |rows| && rows[i].id == id ==> r[i] == SignUp(rows[i], user, now)
    ensures forall i :: 0 <= i < |rows| && rows[i].id != id ==> r[i] == rows[i]
  {
    seq(|rows|, i requires 0 <= i < |rows| => if rows[i].id == id then SignUp(rows[i], user, now) else rows[i])
  }

  /** `ctx.user.name || ctx.user.email`. */
  function CodeSeed(user: User): string {
    if user.name.Some? && user.name.value != "" then user.name.value else user.email
  }

  datatype ConversionRate = NoReferrals | Ratio(subscribed: nat, total: nat)

  datatype Stats = Stats(totalReferrals: nat, signedUpReferrals: nat, subscribedReferrals: nat, conversionRate: ConversionRate)

  predicate IsSignedUp(x: Referral) { x.status == ReferralStatus.SignedUp || x.status == Subscribed }
  predicate IsSubscribed(x: Referral) { x.status == Subscribed }

  /** The statistics of a list of referrals: subscribed ≤ signed up ≤ total. */
  function StatsOf(refs: seq<Referral>): (s: Stats)
    ensures s.totalReferrals == |refs|
    ensures s.signedUpReferrals == Count(refs, IsSignedUp) && s.subscribedReferrals == Count(refs, IsSubscribed)
    ensures s.subscribedReferrals <= s.signedUpReferrals <= s.totalReferrals
    ensures s.conversionRate == NoReferrals <==> |refs| == 0
    ensures s.conversionRate.Ratio? ==> s.conversionRate == Ratio(s.subscribedReferrals, s.totalReferrals)
  {
    var signedUp := Count(refs, IsSignedUp);
    var subscribed := Count(refs, IsSubscribed);
    CountMonotone(refs, IsSubscribed, IsSignedUp);
    Stats(|refs|, signedUp, subscribed, if |refs| > 0 then Ratio(subscribed, |refs|) else NoReferrals)
  }

  /** The first `n` of the affiliate's referrals, newest first. */
  function NewestFirst(refs: seq<Referral>, n: nat): (r: seq<Referral>)
    ensures |r| == if |refs| < n then |refs| else n
    ensures forall i :: 0 <= i < |r| ==> r[i] == refs[|refs| - 1 - i]
  {
    if |refs| == 0 || n == 0 then [] else [refs[|refs| - 1]] + NewestFirst(refs[..|refs| - 1], n - 1)
  }

  /** The referral row after its signup: only the user, email, status and signup time change. */
  function SignUp(x: Referral, user: User, now: int): (r: Referral)
    ensures r.id == x.id && r.affiliateId == x.affiliateId && r.clickedAt == x.clickedAt
    ensures r.ipAddress == x.ipAddress && r.userAgent == x.userAgent && r.subscriptionId == x.subscriptionId
    ensures r.status == ReferralStatus.SignedUp && r.referredUserId == Some(user.id as int)
    ensures r.referredEmail == Some(user.email) && r.signedUpAt == Some(now) && r.subscribedAt == x.subscribedAt
  {
    x.(referredUserId := Some(user.id as int), referredEmail := Some(user.email),
       status := ReferralStatus.SignedUp, signedUpAt := Some(now))
  }

  /** Index of the newest pending referral of the affiliate (rows are in creation order). */
  function NewestPending(rows: seq<Referral>, affiliateId: int): (r: Option<nat>)
    ensures r.Some? ==>
      r.value < |rows| && rows[r.value].affiliateId == affiliateId && rows[r.value].status == ReferralStatus.Pending
    ensures r.Some? ==> forall j :: r.value < j < |rows| ==>
      !(rows[j].affiliateId == affiliateId && rows[j].status == ReferralStatus.Pending)
    ensures r.None? <==> forall j :: 0 <= j < |rows| ==>
      !(rows[j].affiliateId == affiliateId && rows[j].status == ReferralStatus.Pending)
  {
    LastIndex(rows, (x: Referral) => x.affiliateId == affiliateId && x.status == ReferralStatus.Pending)
  }

  /** The input of `updatePaymentInfo`; a `None` field is left out of the update. */
  datatype PaymentInfo = PaymentInfo(paypalEmail: Option<string>, bankDetails: Option<Option<Json>>)

  function WithPaymentInfo(a: Affiliate, info: PaymentInfo): (r: Affiliate)
    ensures r.id == a.id && r.userId == a.userId && r.affiliateCode == a.affiliateCode && r.status == a.status
    ensures r.commissionRate == a.commissionRate && r.totalEarnings == a.totalEarnings
    ensures r.pendingEarnings == a.pendingEarnings && r.paidEarnings == a.paidEarnings
    ensures info.paypalEmail.Some? ==> r.paypalEmail == info.paypalEmail
    ensures info.paypalEmail.None? ==> r.paypalEmail == a.paypalEmail
    ensures info.bankDetails.Some? ==> r.bankDetails == info.bankDetails.value
    ensures info.bankDetails.None? ==> r.bankDetails == a.bankDetails
  {
    a.(paypalEmail := if info.paypalEmail.Some? then info.paypalEmail else a.paypalEmail,
       bankDetails := info.bankDetails.GetOr(a.bankDetails))
  }

  const Unavailable := TrpcError(InternalServerError, "Database unavailable")

  // ------------------------------------------------------------ the store

  /** Auto-increment ids: rising in table order and below the next id. */
  ghost predicate AffiliateIds(rows: seq<Affiliate>, next: nat) {
    && (forall i, j :: 0 <= i < j < |rows| ==> rows[i].id < rows[j].id)
    && (forall i :: 0 <= i < |rows| ==> rows[i].id < next)
  }

  /** Appending a row that takes the next id keeps the ids rising. */
  lemma AppendAffiliateIds(rows: seq<Affiliate>, next: nat, a: Affiliate)
    requires AffiliateIds(rows, next) && a.id == next
    ensures AffiliateIds(rows + [a], next + 1)
  {
  }

  /**
   * Setting the payment details of the row at `k`, found by its id,
   * changes that row alone and keeps every key unique and every id in place.
   */
  lemma {:induction false} SetPaymentInfoKeepsStore(rows: seq<Affiliate>, next: nat, k: nat, info: PaymentInfo)
    requires UniqueAffiliates(rows) && AffiliateIds(rows, next) && k < |rows|
    ensures var r := SetPaymentInfo(rows, rows[k].id, info);
      && UniqueAffiliates(r) && AffiliateIds(r, next)
      && r[k] == WithPaymentInfo(rows[k], info)
      && forall i :: 0 <= i < |rows| && i != k ==> r[i] == rows[i]
  {
    var r := SetPaymentInfo(rows, rows[k].id, info);
    forall i | 0 <= i < |rows| && i != k
      ensures rows[i].id != rows[k].id
    {
      if i < k { assert rows[i].id < rows[k].id; } else { assert rows[k].id < rows[i].id; }
    }
    assert forall i :: 0 <= i < |rows| ==>
      r[i].id == rows[i].id && r[i].userId == rows[i].userId && r[i].affiliateCode == rows[i].affiliateCode;
  }

  ghost predicate ReferralIds(rows: seq<Referral>, next: nat) {
    && (forall i, j :: 0 <= i < j < |rows| ==> rows[i].id < rows[j].id)
    && (forall i :: 0 <= i < |rows| ==> rows[i].id < next)
  }

  lemma AppendReferralIds(rows: seq<Referral>, next: nat, x: Referral)
    requires ReferralIds(rows, next) && x.id == next
    ensures ReferralIds(rows + [x], next + 1)
  {
  }

  /** An accepted insert keeps both unique keys and the rising ids. */
  lemma InsertAffiliateKeepsStore(rows: seq<Affiliate>, next: nat, ins: AffiliateInsert)
    requires UniqueAffiliates(rows) && AffiliateIds(rows, next) && InsertAffiliate(rows, next, ins).Ok?
    ensures UniqueAffiliates(InsertAffiliate(rows, next, ins).value)
    ensures AffiliateIds(InsertAffiliate(rows, next, ins).value, next + 1)
  {
    AppendAffiliateIds(rows, next, NewAffiliate(next, ins));
  }

  class AffiliateStore {
    var available: bool
    var affiliates: seq<Affiliate>
    var referrals: seq<Referral>
    var nextAffiliateId: nat
    var nextReferralId: nat

    /** One account per user, unique codes, and auto-increment ids rising in table order. */
    ghost predicate Valid()
      reads this
    {
      && UniqueAffiliates(affiliates)
      && AffiliateIds(affiliates, nextAffiliateId)
      && ReferralIds(referrals, nextReferralId)
    }

    constructor(available: bool)
      ensures Valid() && this.available == available && affiliates == [] && referrals == []
    {
      this.available := available;
      affiliates, referrals := [], [];
      nextAffiliateId, nextReferralId := 1, 1;
    }

    /** `getMyAffiliate`. */
    method GetMyAffiliate(user: User) returns (r: Result<Option<Affiliate>>)
      ensures !available ==> r == Fail(Unavailable)
      ensures available ==> r == Ok(AffiliateOfUser(affiliates, user.id))
    {
      if !available { return Fail(Unavailable); }
      r := Ok(AffiliateOfUser(affiliates, user.id));
    }

    /**
     * `createAffiliate`: refuses a second account for the user; otherwise
     * draws codes until one is free (at most ten checks), inserts the
     * account as active with a 30.00 rate, and returns the stored code. A
     * last draw that is still taken fails on the unique key.
     */
    method CreateAffiliate(user: User, draw: nat -> string) returns (r: Result<string>)
      requires Valid()
      modifies this
      ensures Valid() && available == old(available) && referrals == old(referrals)
      ensures !available ==> r == Fail(Unavailable) && affiliates == old(affiliates)
      ensures available && AffiliateOfUser(old(affiliates), user.id).Some? ==>
        r == Fail(TrpcError(BadRequest, "You already have an affiliate account")) && affiliates == old(affiliates)
      ensures available && AffiliateOfUser(old(affiliates), user.id).None? ==>
        var code := ChosenCode(old(affiliates), CodeSeed(user), draw);
        && (Taken(old(affiliates), code) ==>
              r == Fail(DuplicateEntry("affiliateCode")) && affiliates == old(affiliates))
        && (!Taken(old(affiliates), code) ==>
              && r == Ok(code)
              && affiliates == old(affiliates)
                 + [NewAffiliate(old(nextAffiliateId), AffiliateInsert(user.id, code, Some(AffiliateStatus.Active), Some("30.00")))])
    {
      if !available { return Fail(Unavailable); }
      if AffiliateOfUser(affiliates, user.id).Some? {
        return Fail(TrpcError(BadRequest, "You already have an affiliate account"));
      }
      var affiliateCode := DrawCode(affiliates, CodeSeed(user), draw);
      var ins := AffiliateInsert(user.id, affiliateCode, Some(AffiliateStatus.Active), Some("30.00"));
      var inserted := Insert(ins);
      if inserted.Fail? {
        return Fail(inserted.failure);
      }
      r := Ok(affiliateCode);
    }

    /** `insert(affiliates).values(ins)`: the unique keys decide, and an accepted row takes the next id. */
    method Insert(ins: AffiliateInsert) returns (r: Result<Unit>)
      requires Valid()
      modifies this
      ensures Valid() && available == old(available) && referrals == old(referrals)
      ensures match InsertAffiliate(old(affiliates), old(nextAffiliateId), ins)
        case Fail(f) => r == Fail(f) && affiliates == old(affiliates)
        case Ok(rows) => r == Ok(Unit) && affiliates == rows
    {
      var inserted := InsertAffiliate(affiliates, nextAffiliateId, ins);
      if inserted.Fail? {
        return Fail(inserted.failure);
      }
      InsertAffiliateKeepsStore(affiliates, nextAffiliateId, ins);
      affiliates := inserted.value;
      nextAffiliateId := nextAffiliateId + 1;
      r := Ok(Unit);
    }

    /** `updatePaymentInfo`: only the user's own account changes, and only in the fields given. */
    method UpdatePaymentInfo(user: User, info: PaymentInfo) returns (r: Result<Unit>)
      requires Valid()
      modifies this
      ensures Valid() && available == old(available) && referrals == old(referrals)
      ensures !available ==> r == Fail(Unavailable) && affiliates == old(affiliates)
      ensures available && AffiliateOfUser(old(affiliates), user.id).None? ==>
        r == Fail(TrpcError(NotFound, "Affiliate account not found")) && affiliates == old(affiliates)
      ensures available && AffiliateOfUser(old(affiliates), user.id).Some? ==>
        && r == Ok(Unit)
        && affiliates == SetPaymentInfo(old(affiliates), AffiliateOfUser(old(affiliates), user.id).value.id, info)
        && forall i :: 0 <= i < |affiliates| && old(affiliates)[i].userId != user.id ==> affiliates[i] == old(affiliates)[i]
    {
      if !available { return Fail(Unavailable); }
      var mine := AffiliateOfUser(affiliates, user.id);
      if mine.None? {
        return Fail(TrpcError(NotFound, "Affiliate account not found"));
      }
      ghost var k :| 0 <= k < |affiliates| && affiliates[k] == mine.value;
      SetPaymentInfoKeepsStore(affiliates, nextAffiliateId, k, info);
      affiliates := SetPaymentInfo(affiliates, mine.value.id, info);
      r := Ok(Unit);
    }

    /** `getStats`: `None` for a user without an account. */
    method GetStats(user: User) returns (r: Result<Option<Stats>>)
      ensures !available ==> r == Fail(Unavailable)
      ensures available && AffiliateOfUser(affiliates, user.id).None? ==> r == Ok(None)
      ensures available && AffiliateOfUser(affiliates, user.id).Some? ==>
        r == Ok(Some(StatsOf(ReferralsOf(referrals, AffiliateOfUser(affiliates, user.id).value.id))))
    {
      if !available { return Fail(Unavailable); }
      var mine := AffiliateOfUser(affiliates, user.id);
      if mine.None? { return Ok(None); }
      r := Ok(Some(StatsOf(ReferralsOf(referrals, mine.value.id))));
    }

    /** `getReferrals`: the user's fifty newest referrals, newest first. */
    method GetReferrals(user: User) returns (r: Result<seq<Referral>>)
      ensures !available ==> r == Fail(Unavailable)
      ensures available && AffiliateOfUser(affiliates, user.id).None? ==> r == Ok([])
      ensures available && AffiliateOfUser(affiliates, user.id).Some? ==>
        r == Ok(NewestFirst(ReferralsOf(referrals, AffiliateOfUser(affiliates, user.id).value.id), 50))
    {
      if !available { return Fail(Unavailable); }
      var mine := AffiliateOfUser(affiliates, user.id);
      if mine.None? { return Ok([]); }
      r := Ok(NewestFirst(ReferralsOf(referrals, mine.value.id), 50));
    }

    /** `trackClick`: an unknown or inactive code is refused; otherwise one pending referral is appended. */
    method TrackClick(affiliateCode: string, ipAddress: Option<string>, userAgent: Option<string>, now: int)
      returns (r: Result<Unit>)
      requires Valid()
      modifies this
      ensures Valid() && available == old(available) && affiliates == old(affiliates)
      ensures !available ==> r == Fail(Unavailable) && referrals == old(referrals)
      ensures available ==>
        var a := AffiliateByCode(affiliates, affiliateCode);
        && (a.None? || a.value.status != AffiliateStatus.Active ==>
              r == Fail(TrpcError(NotFound, "Invalid affiliate code")) && referrals == old(referrals))
        && (a.Some? && a.value.status == AffiliateStatus.Active ==>
              && r == Ok(Unit)
              && referrals == old(referrals)
                 + [NewReferral(old(nextReferralId), ReferralInsert(a.value.id, Some(ReferralStatus.Pending), ipAddress, userAgent), now)])
    {
      if !available { return Fail(Unavailable); }
      var a := AffiliateByCode(affiliates, affiliateCode);
      if a.None? || a.value.status != AffiliateStatus.Active {
        return Fail(TrpcError(NotFound, "Invalid affiliate code"));
      }
      var click := NewReferral(nextReferralId, ReferralInsert(a.value.id, Some(ReferralStatus.Pending), ipAddress, userAgent), now);
      AppendReferralIds(referrals, nextReferralId, click);
      referrals := referrals + [click];
      nextReferralId := nextReferralId + 1;
      r := Ok(Unit);
    }

    /**
     * `linkReferralToUser`: `false` for an unknown code; otherwise the
     * newest pending referral of that affiliate, if any, records the
     * signup, and no other row changes.
     */
    method LinkReferralToUser(user: User, affiliateCode: string, now: int) returns (r: Result<bool>)
      requires Valid()
      modifies this
      ensures Valid() && available == old(available) && affiliates == old(affiliates)
      ensures !available ==> r == Fail(Unavailable) && referrals == old(referrals)
      ensures available && AffiliateByCode(affiliates, affiliateCode).None? ==>
        r == Ok(false) && referrals == old(referrals)
      ensures available && AffiliateByCode(affiliates, affiliateCode).Some? ==>
        && r == Ok(true)
        && match NewestPending(old(referrals), AffiliateByCode(affiliates, affiliateCode).value.id)
           case None => referrals == old(referrals)
           case Some(k) => referrals == old(referrals)[k := SignUp(old(referrals)[k], user, now)]
    {
      if !available { return Fail(Unavailable); }
      var a := AffiliateByCode(affiliates, affiliateCode);
      if a.None? { return Ok(false); }
      var pending := NewestPending(referrals, a.value.id);
      if pending.Some? {
        var k := pending.value;
        var id := referrals[k].id;
        ghost var before := referrals;
        referrals := SignUpById(referrals, id, user, now);
        forall i | 0 <= i < |before| && i != k
          ensures before[i].id != id
        {
          if i < k { assert before[i].id < before[k].id; } else { assert before[k].id < before[i].id; }
        }
        assert referrals == before[k := SignUp(before[k], user, now)];
      }
      r := Ok(true);
    }
  }

  /** A click followed by a link for the same code turns that click into a signup. */
  lemma ClickThenLink(rows: seq<Referral>, x: Referral, user: User, now: int)
    requires x.status == ReferralStatus.Pending
    ensures NewestPending(rows + [x], x.affiliateId) == Some(|rows|)
  {
  }
}
