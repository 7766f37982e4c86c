/**
 * The persistence helpers: the user upsert with its insert/update field
 * merge, and create/get/update for subscriptions, AI instances and billing
 * records. The database is an in-memory store; `available` is false when no
 * database is configured, in which case each helper takes its fallback.
 */
module Db {
  import opened Common
  import opened Schema

  // ----------------------------------------------------------- user upsert

  /** A property of a JavaScript object: left out, given as null, or set. */
  datatype Field<T> = Undefined | Null | Present(value: T)

  /** The argument of `upsertUser`: a partial user row with its `openId`. */
  datatype UserInput = UserInput(
    openId: string, name: Field<string>, email: Field<string>, passwordHash: Field<string>,
    loginMethod: Field<string>, lastSignedIn: Option<int>, role: Option<Role>)

  /** The `values` of the insert. For a nullable column, `None` leaves the key out and `Some(None)` writes null. */
  datatype UserValues = UserValues(
    openId: string, email: string, name: Option<Option<string>>, passwordHash: Option<Option<string>>,
    loginMethod: Option<Option<string>>, lastSignedIn: int, role: Role)

  /** The `set` applied when the insert hits an existing row; it never holds `openId` or `email`. */
  datatype UserUpdateSet = UserUpdateSet(
    name: Option<Option<string>>, passwordHash: Option<Option<string>>,
    loginMethod: Option<Option<string>>, lastSignedIn: int, role: Role)

  /** `if (f !== undefined) key = f ?? null`: the key is written only when the property is given. */
  function Nullable(f: Field<string>): (r: Option<Option<string>>)
    ensures f.Undefined? <==> r.None?
    ensures f.Null? ==> r == Some(None)
    ensures f.Present? ==> r == Some(Some(f.value))
  {
    match f
    case Undefined => None
    case Null => Some(None)
    case Present(v) => Some(Some(v))
  }

  function TempEmail(openId: string): string {
    openId + "@temp.openclaw.local"
  }

  /** The role both sets carry: the given one, else admin exactly for the owner's openId. */
  function UpsertRole(user: UserInput, ownerOpenId: string): (role: Role)
    ensures user.role.Some? ==> role == user.role.value
    ensures user.role.None? ==> (role == AdminRole <==> user.openId == ownerOpenId)
  {
    match user.role
    case Some(r) => r
    case None => if user.openId == ownerOpenId then AdminRole else UserRole
  }

  /** The insert `values` of `upsertUser`. */
  function InsertValues(user: UserInput, ownerOpenId: string, now: int): (v: UserValues)
    ensures v.openId == user.openId
    ensures user.email.Present? && user.email.value != "" ==> v.email == user.email.value
    ensures !(user.email.Present? && user.email.value != "") ==> v.email == TempEmail(user.openId)
    ensures v.name == Nullable(user.name) && v.passwordHash == Nullable(user.passwordHash)
    ensures v.loginMethod == Nullable(user.loginMethod)
    ensures user.lastSignedIn.Some? ==> v.lastSignedIn == user.lastSignedIn.value
    ensures user.lastSignedIn.None? ==> v.lastSignedIn == now
    ensures v.role == UpsertRole(user, ownerOpenId)
  {
    UserValues(
      user.openId,
      if user.email.Present? && user.email.value != "" then user.email.value else TempEmail(user.openId),
      Nullable(user.name), Nullable(user.passwordHash), Nullable(user.loginMethod),
      user.lastSignedIn.GetOr(now), UpsertRole(user, ownerOpenId))
  }

  /** The `onDuplicateKeyUpdate` set of `upsertUser`: the same columns as the insert, less `openId` and `email`. */
  function UpdateSetOf(user: UserInput, ownerOpenId: string, now: int): (s: UserUpdateSet)
    ensures var v := InsertValues(user, ownerOpenId, now);
      s.name == v.name && s.passwordHash == v.passwordHash && s.loginMethod == v.loginMethod
      && s.lastSignedIn == v.lastSignedIn && s.role == v.role
  {
    UserUpdateSet(Nullable(user.name), Nullable(user.passwordHash), Nullable(user.loginMethod),
      user.lastSignedIn.GetOr(now), UpsertRole(user, ownerOpenId))
  }

  /**
   * Builds the two sets by successive conditional assignments, as
   * `upsertUser` does; each column is settled in turn and both sets take
   * the same value.
   */
  method BuildUpsert(user: UserInput, ownerOpenId: string, now: int)
    returns (values: UserValues, updateSet: UserUpdateSet)
    ensures values == InsertValues(user, ownerOpenId, now)
    ensures updateSet == UpdateSetOf(user, ownerOpenId, now)
  {
    var email := if user.email.Present? && user.email.value != "" then user.email.value else TempEmail(user.openId);
    var name, passwordHash, loginMethod := None, None, None;
    if !user.name.Undefined? {
      name := Some(if user.name.Present? then Some(user.name.value) else None);
    }
    assert name == Nullable(user.name);
    if !user.passwordHash.Undefined? {
      passwordHash := Some(if user.passwordHash.Present? then Some(user.passwordHash.value) else None);
    }
    assert passwordHash == Nullable(user.passwordHash);
    if !user.loginMethod.Undefined? {
      loginMethod := Some(if user.loginMethod.Present? then Some(user.loginMethod.value) else None);
    }
    assert loginMethod == Nullable(user.loginMethod);
    var lastSignedIn;
    if user.lastSignedIn.Some? {
      lastSignedIn := user.lastSignedIn.value;
    } else {
      lastSignedIn := now;
    }
    var role;
    if user.role.Some? {
      role := user.role.value;
    } else if user.openId == ownerOpenId {
      role := AdminRole;
    } else {
      role := UserRole;
    }
    assert role == UpsertRole(user, ownerOpenId);
    values := UserValues(user.openId, email, name, passwordHash, loginMethod, lastSignedIn, role);
    updateSet := UserUpdateSet(name, passwordHash, loginMethod, lastSignedIn, role);
  }

  /** The row the insert creates; a nullable column left out is null. */
  function NewUser(id: nat, v: UserValues): (u: User)
    ensures u.id == id && u.openId == v.openId && u.email == v.email
    ensures u.name == v.name.GetOr(None) && u.role == v.role && u.lastSignedIn == v.lastSignedIn
    ensures u.passwordHash == v.passwordHash.GetOr(None) && u.loginMethod == v.loginMethod.GetOr(None)
  {
    UserRow(id, v.openId, v.name.GetOr(None), v.email, v.passwordHash.GetOr(None),
      v.loginMethod.GetOr(None), v.role, v.lastSignedIn)
  }

  /** The existing row after the update set: identity and email stay, the set's columns change. */
  function ApplyUserUpdate(u: User, s: UserUpdateSet): (r: User)
    ensures r.id == u.id && r.openId == u.openId && r.email == u.email
    ensures s.name.None? ==> r.name == u.name
    ensures s.name.Some? ==> r.name == s.name.value
    ensures s.passwordHash.None? ==> r.passwordHash == u.passwordHash
    ensures s.passwordHash.Some? ==> r.passwordHash == s.passwordHash.value
    ensures s.loginMethod.None? ==> r.loginMethod == u.loginMethod
    ensures s.loginMethod.Some? ==> r.loginMethod == s.loginMethod.value
    ensures r.lastSignedIn == s.lastSignedIn && r.role == s.role
  {
    u.(name := s.name.GetOr(u.name), passwordHash := s.passwordHash.GetOr(u.passwordHash),
       loginMethod := s.loginMethod.GetOr(u.loginMethod), lastSignedIn := s.lastSignedIn, role := s.role)
  }

  /**
   * The row an insert of `v` collides with. Both `openId` and `email` are
   * unique keys; the duplicate is looked for index by index, in the order
   * the table declares them, so a row holding the openId takes the update
   * before a row that only shares the email.
   */
  function ConflictIndex(users: seq<User>, v: UserValues): (r: Option<nat>)
    ensures r.Some? ==> r.value < |users| && (users[r.value].openId == v.openId || users[r.value].email == v.email)
    ensures (exists i :: 0 <= i < |users| && users[i].openId == v.openId) ==>
      r.Some? && users[r.value].openId == v.openId
    ensures r.None? <==> forall i :: 0 <= i < |users| ==> users[i].openId != v.openId && users[i].email != v.email
  {
    match FirstIndex(users, (u: User) => u.openId == v.openId)
    case Some(k) => Some(k)
    case None => FirstIndex(users, (u: User) => u.email == v.email)
  }

  // ------------------------------------------------------------- patches

  /** The columns an `updateSubscription` call sets; `None` leaves a column as it is. */
  datatype SubscriptionPatch = SubscriptionPatch(
    tier: Option<Tier>, status: Option<SubscriptionStatus>, setupFeePaid: Option<bool>,
    stripeSubscriptionId: Option<Option<string>>, stripeCustomerId: Option<Option<string>>,
    monthlyPrice: Option<Option<string>>, renewalDate: Option<Option<int>>, cancelledAt: Option<Option<int>>)

  function ApplySubscriptionPatch(s: Subscription, p: SubscriptionPatch): (r: Subscription)
    ensures r.id == s.id && r.userId == s.userId && r.startDate == s.startDate
    ensures p.tier.None? ==> r.tier == s.tier
    ensures p.tier.Some? ==> r.tier == p.tier.value
    ensures p.status.None? ==> r.status == s.status
    ensures p.status.Some? ==> r.status == p.status.value
    ensures p.setupFeePaid.None? ==> r.setupFeePaid == s.setupFeePaid
    ensures p.setupFeePaid.Some? ==> r.setupFeePaid == p.setupFeePaid.value
    ensures p.stripeSubscriptionId.None? ==> r.stripeSubscriptionId == s.stripeSubscriptionId
    ensures p.stripeSubscriptionId.Some? ==> r.stripeSubscriptionId == p.stripeSubscriptionId.value
    ensures p.stripeCustomerId.None? ==> r.stripeCustomerId == s.stripeCustomerId
    ensures p.stripeCustomerId.Some? ==> r.stripeCustomerId == p.stripeCustomerId.value
    ensures p.monthlyPrice.None? ==> r.monthlyPrice == s.monthlyPrice
    ensures p.monthlyPrice.Some? ==> r.monthlyPrice == p.monthlyPrice.value
    ensures p.renewalDate.None? ==> r.renewalDate == s.renewalDate
    ensures p.renewalDate.Some? ==> r.renewalDate == p.renewalDate.value
    ensures p.cancelledAt.None? ==> r.cancelledAt == s.cancelledAt
    ensures p.cancelledAt.Some? ==> r.cancelledAt == p.cancelledAt.value
  {
    s.(tier := p.tier.GetOr(s.tier), status := p.status.GetOr(s.status),
       setupFeePaid := p.setupFeePaid.GetOr(s.setupFeePaid),
       stripeSubscriptionId := p.stripeSubscriptionId.GetOr(s.stripeSubscriptionId),
       stripeCustomerId := p.stripeCustomerId.GetOr(s.stripeCustomerId),
       monthlyPrice := p.monthlyPrice.GetOr(s.monthlyPrice),
       renewalDate := p.renewalDate.GetOr(s.renewalDate),
       cancelledAt := p.cancelledAt.GetOr(s.cancelledAt))
  }

  /** `update(subscriptions).set(p).where(eq(subscriptions.id, id))`. */
  function PatchSubscriptions(rows: seq<Subscription>, id: nat, p: SubscriptionPatch): (r: seq<Subscription>)
    ensures |r| == |rows|
    ensures forall i :: 0 <= i < |rows| && rows[i].id != id ==> r[i] == rows[i]
    ensures forall i :: 0 <= i < |rows| && rows[i].id == id ==> r[i] == ApplySubscriptionPatch(rows[i], p)
  {
    seq(|rows|, i requires 0 <= i < |rows| =>
      if rows[i].id == id then ApplySubscriptionPatch(rows[i], p) else rows[i])
  }

  /** The columns an `updateAIInstance` call sets; `None` leaves a column as it is. */
  datatype InstancePatch = InstancePatch(
    status: Option<InstanceStatus>, doAppId: Option<Option<string>>, errorMessage: Option<Option<string>>)

  function ApplyInstancePatch(x: AIInstance, p: InstancePatch): (r: AIInstance)
    ensures r.id == x.id && r.userId == x.userId && r.subscriptionId == x.subscriptionId
    ensures r.aiRole == x.aiRole && r.config == x.config && r.telegramBotToken == x.telegramBotToken
    ensures p.status.None? ==> r.status == x.status
    ensures p.status.Some? ==> r.status == p.status.value
    ensures p.doAppId.None? ==> r.doAppId == x.doAppId
    ensures p.doAppId.Some? ==> r.doAppId == p.doAppId.value
    ensures p.errorMessage.None? ==> r.errorMessage == x.errorMessage
    ensures p.errorMessage.Some? ==> r.errorMessage == p.errorMessage.value
  {
    x.(status := p.status.GetOr(x.status), doAppId := p.doAppId.GetOr(x.doAppId),
       errorMessage := p.errorMessage.GetOr(x.errorMessage))
  }

  /** `update(aiInstances).set(p).where(eq(aiInstances.id, id))`. */
  function PatchInstances(rows: seq<AIInstance>, id: nat, p: InstancePatch): (r: seq<AIInstance>)
    ensures |r| == |rows|
    ensures forall i :: 0 <= i < |rows| && rows[i].id != id ==> r[i] == rows[i]
    ensures forall i :: 0 <= i < |rows| && rows[i].id == id ==> r[i] == ApplyInstancePatch(rows[i], p)
  {
    seq(|rows|, i requires 0 <= i < |rows| =>
      if rows[i].id == id then ApplyInstancePatch(rows[i], p) else rows[i])
  }

  /** Patching the row just appended changes that row only. */
  lemma PatchNewestInstance(rows: seq<AIInstance>, x: AIInstance, p: InstancePatch)
    requires forall i :: 0 <= i < |rows| ==> rows[i].id < x.id
    ensures PatchInstances(rows + [x], x.id, p) == rows + [ApplyInstancePatch(x, p)]
  {
    var r := PatchInstances(rows + [x], x.id, p);
    assert forall i :: 0 <= i < |rows| ==> r[i] == (rows + [x])[i] == rows[i];
  }

  // ---------------------------------------------------------------- lookups

  /** `select().from(subscriptions).where(eq(userId)).limit(1)`. */
  function SubscriptionOf(rows: seq<Subscription>, userId: int): (r: Option<Subscription>)
    ensures r.Some? ==> r.value in rows && r.value.userId == userId
    ensures r.Some? ==>
      exists k :: 0 <= k < |rows| && rows[k] == r.value && forall j :: 0 <= j < k ==> rows[j].userId != userId
    ensures r.None? <==> forall i :: 0 <= i < |rows| ==> rows[i].userId != userId
  {
    match FirstIndex(rows, (s: Subscription) => s.userId == userId)
    case Some(k) => Some(rows[k])
    case None => None
  }

  /** `select().from(aiInstances).where(eq(userId)).limit(1)`. */
  function InstanceOf(rows: seq<AIInstance>, userId: int): (r: Option<AIInstance>)
    ensures r.Some? ==> r.value in rows && r.value.userId == userId
    ensures r.Some? ==>
      exists k :: 0 <= k < |rows| && rows[k] == r.value && forall j :: 0 <= j < k ==> rows[j].userId != userId
    ensures r.None? <==> forall i :: 0 <= i < |rows| ==> rows[i].userId != userId
  {
    match FirstIndex(rows, (x: AIInstance) => x.userId == userId)
    case Some(k) => Some(rows[k])
    case None => None
  }

  /** The user's billing records, in table order. */
  function BillingOf(rows: seq<BillingRecord>, userId: int): (r: seq<BillingRecord>)
    ensures forall i :: 0 <= i < |r| ==> r[i] in rows && r[i].userId == userId
    ensures forall i :: 0 <= i < |rows| && rows[i].userId == userId ==> rows[i] in r
  {
    Filter(rows, (b: BillingRecord) => b.userId == userId)
  }

  function UserByOpenId(rows: seq<User>, openId: string): (r: Option<User>)
    ensures r.Some? ==> r.value in rows && r.value.openId == openId
    ensures r.None? <==> forall i :: 0 <= i < |rows| ==> rows[i].openId != openId
  {
    match FirstIndex(rows, (u: User) => u.openId == openId)
    case Some(k) => Some(rows[k])
    case None => None
  }

  // ------------------------------------------------------ auto-increment ids

  /** The ids of `users` rise with table order and stay below `next`. */
  ghost predicate UserIds(rows: seq<User>, next: nat) {
    && (forall i, j :: 0 <= i < j < |rows| ==> rows[i].id < rows[j].id)
    && (forall i :: 0 <= i < |rows| ==> rows[i].id < next)
  }

  lemma AppendUserIds(rows: seq<User>, next: nat, u: User)
    requires UserIds(rows, next) && u.id == next
    ensures UserIds(rows + [u], next + 1)
  {
  }

  ghost predicate SubscriptionIds(rows: seq<Subscription>, next: nat) {
    && (forall i, j :: 0 <= i < j < |rows| ==> rows[i].id < rows[j].id)
    && (forall i :: 0 <= i < |rows| ==> rows[i].id < next)
  }

  lemma AppendSubscriptionIds(rows: seq<Subscription>, next: nat, s: Subscription)
    requires SubscriptionIds(rows, next) && s.id == next
    ensures SubscriptionIds(rows + [s], next + 1)
  {
  }

  ghost predicate InstanceIds(rows: seq<AIInstance>, next: nat) {
    && (forall i, j :: 0 <= i < j < |rows| ==> rows[i].id < rows[j].id)
    && (forall i :: 0 <= i < |rows| ==> rows[i].id < next)
  }

  lemma AppendInstanceIds(rows: seq<AIInstance>, next: nat, x: AIInstance)
    requires InstanceIds(rows, next) && x.id == next
    ensures InstanceIds(rows + [x], next + 1)
  {
  }

  ghost predicate BillingIds(rows: seq<BillingRecord>, next: nat) {
    && (forall i, j :: 0 <= i < j < |rows| ==> rows[i].id < rows[j].id)
    && (forall i :: 0 <= i < |rows| ==> rows[i].id < next)
  }

  lemma AppendBillingIds(rows: seq<BillingRecord>, next: nat, b: BillingRecord)
    requires BillingIds(rows, next) && b.id == next
    ensures BillingIds(rows + [b], next + 1)
  {
  }

  /** The duplicate-key update keeps both unique keys and every id. */
  lemma UpdateUserKeepsKeys(rows: seq<User>, next: nat, k: nat, changes: UserUpdateSet)
    requires UniqueUsers(rows) && UserIds(rows, next) && k < |rows|
    ensures var r := rows[k := ApplyUserUpdate(rows[k], changes)];
      UniqueUsers(r) && UserIds(r, next)
  {
    var r := rows[k := ApplyUserUpdate(rows[k], changes)];
    assert forall i :: 0 <= i < |rows| ==>
      r[i].id == rows[i].id && r[i].openId == rows[i].openId && r[i].email == rows[i].email;
  }

  /** A row whose openId and email no row holds keeps both keys unique. */
  lemma InsertUserKeepsKeys(rows: seq<User>, next: nat, v: UserValues)
    requires UniqueUsers(rows) && UserIds(rows, next) && ConflictIndex(rows, v).None?
    ensures UniqueUsers(rows + [NewUser(next, v)]) && UserIds(rows + [NewUser(next, v)], next + 1)
  {
    AppendUserIds(rows, next, NewUser(next, v));
  }

  const DatabaseNotAvailable := Thrown("Database not available")

  // ------------------------------------------------------------------ store

  class Store {
    var available: bool
    var users: seq<User>
    var subscriptions: seq<Subscription>
    var instances: seq<AIInstance>
    var billingRecords: seq<BillingRecord>
    var nextUserId: nat
    var nextSubscriptionId: nat
    var nextInstanceId: nat
    var nextBillingId: nat

    /** Unique keys hold, and auto-increment ids rise with table order and stay below the next id. */
    ghost predicate Valid()
      reads this
    {
      && UniqueUsers(users)
      && UserIds(users, nextUserId)
      && SubscriptionIds(subscriptions, nextSubscriptionId)
      && InstanceIds(instances, nextInstanceId)
      && BillingIds(billingRecords, nextBillingId)
    }

    constructor(available: bool)
      ensures Valid() && this.available == available
      ensures users == [] && subscriptions == [] && instances == [] && billingRecords == []
    {
      this.available := available;
      users, subscriptions, instances, billingRecords := [], [], [], [];
      nextUserId, nextSubscriptionId, nextInstanceId, nextBillingId := 1, 1, 1, 1;
    }

    /**
     * `upsertUser`: an empty openId throws before anything else; without a
     * database nothing happens; otherwise the insert lands, or the row
     * `ConflictIndex` picks takes the update set.
     */
    method UpsertUser(user: UserInput, ownerOpenId: string, now: int) returns (r: Result<Unit>)
      requires Valid()
      modifies this
      ensures Valid() && available == old(available)
      ensures subscriptions == old(subscriptions) && instances == old(instances)
      ensures billingRecords == old(billingRecords)
      ensures nextSubscriptionId == old(nextSubscriptionId) && nextInstanceId == old(nextInstanceId)
      ensures nextBillingId == old(nextBillingId)
      ensures nextUserId == old(nextUserId) +
        if user.openId != "" && available && ConflictIndex(old(users), InsertValues(user, ownerOpenId, now)).None? then 1 else 0
      ensures user.openId == "" ==> r == Fail(Thrown("User openId is required for upsert")) && users == old(users)
      ensures user.openId != "" ==> r.Ok?
      ensures !available ==> users == old(users)
      ensures user.openId != "" && available ==>
        var v := InsertValues(user, ownerOpenId, now);
        match ConflictIndex(old(users), v)
        case Some(k) => users == old(users)[k := ApplyUserUpdate(old(users)[k], UpdateSetOf(user, ownerOpenId, now))]
        case None => users == old(users) + [NewUser(old(nextUserId), v)]
    {
      if user.openId == "" {
        return Fail(Thrown("User openId is required for upsert"));
      }
      if !available {
        return Ok(Unit);
      }
      var values, updateSet := BuildUpsert(user, ownerOpenId, now);
      r := Ok(Unit);
      match ConflictIndex(users, values)
      case Some(k) =>
        UpdateUserKeepsKeys(users, nextUserId, k, updateSet);
        users := users[k := ApplyUserUpdate(users[k], updateSet)];
      case None =>
        InsertUserKeepsKeys(users, nextUserId, values);
        users := users + [NewUser(nextUserId, values)];
        nextUserId := nextUserId + 1;
    }

    method GetUserByOpenId(openId: string) returns (r: Option<User>)
      ensures !available ==> r.None?
      ensures available ==> r == UserByOpenId(users, openId)
    {
      if !available { return None; }
      r := UserByOpenId(users, openId);
    }

    /** `createSubscription`: returns the new row's id. */
    method CreateSubscription(ins: SubscriptionInsert) returns (r: Result<nat>)
      requires Valid()
      modifies this
      ensures Valid() && available == old(available)
      ensures users == old(users) && instances == old(instances) && billingRecords == old(billingRecords)
      ensures !available ==> r == Fail(DatabaseNotAvailable) && subscriptions == old(subscriptions)
      ensures available ==>
        r == Ok(old(nextSubscriptionId)) && subscriptions == old(subscriptions) + [NewSubscription(old(nextSubscriptionId), ins)]
      ensures nextUserId == old(nextUserId) && nextInstanceId == old(nextInstanceId) && nextBillingId == old(nextBillingId)
      ensures nextSubscriptionId == old(nextSubscriptionId) + if available then 1 else 0
    {
      if !available { return Fail(DatabaseNotAvailable); }
      AppendSubscriptionIds(subscriptions, nextSubscriptionId, NewSubscription(nextSubscriptionId, ins));
      subscriptions := subscriptions + [NewSubscription(nextSubscriptionId, ins)];
      r := Ok(nextSubscriptionId);
      nextSubscriptionId := nextSubscriptionId + 1;
    }

    method GetSubscriptionByUserId(userId: int) returns (r: Option<Subscription>)
      ensures !available ==> r.None?
      ensures available ==> r == SubscriptionOf(subscriptions, userId)
    {
      if !available { return None; }
      r := SubscriptionOf(subscriptions, userId);
    }

    method UpdateSubscription(id: nat, p: SubscriptionPatch) returns (r: Result<Unit>)
      requires Valid()
      modifies this
      ensures Valid() && available == old(available)
      ensures users == old(users) && instances == old(instances) && billingRecords == old(billingRecords)
      ensures !available ==> r == Fail(DatabaseNotAvailable) && subscriptions == old(subscriptions)
      ensures available ==> r.Ok? && subscriptions == PatchSubscriptions(old(subscriptions), id, p)
      ensures nextUserId == old(nextUserId) && nextSubscriptionId == old(nextSubscriptionId)
      ensures nextInstanceId == old(nextInstanceId) && nextBillingId == old(nextBillingId)
    {
      if !available { return Fail(DatabaseNotAvailable); }
      subscriptions := PatchSubscriptions(subscriptions, id, p);
      r := Ok(Unit);
    }

    /** `createAIInstance`: returns the new row's id. */
    method CreateAIInstance(ins: InstanceInsert) returns (r: Result<nat>)
      requires Valid()
      modifies this
      ensures Valid() && available == old(available)
      ensures users == old(users) && subscriptions == old(subscriptions) && billingRecords == old(billingRecords)
      ensures !available ==> r == Fail(DatabaseNotAvailable) && instances == old(instances)
      ensures available ==>
        r == Ok(old(nextInstanceId)) && instances == old(instances) + [NewInstance(old(nextInstanceId), ins)]
      ensures nextUserId == old(nextUserId) && nextSubscriptionId == old(nextSubscriptionId) && nextBillingId == old(nextBillingId)
      ensures nextInstanceId == old(nextInstanceId) + if available then 1 else 0
    {
      if !available { return Fail(DatabaseNotAvailable); }
      AppendInstanceIds(instances, nextInstanceId, NewInstance(nextInstanceId, ins));
      instances := instances + [NewInstance(nextInstanceId, ins)];
      r := Ok(nextInstanceId);
      nextInstanceId := nextInstanceId + 1;
    }

    method GetAIInstanceByUserId(userId: int) returns (r: Option<AIInstance>)
      ensures !available ==> r.None?
      ensures available ==> r == InstanceOf(instances, userId)
    {
      if !available { return None; }
      r := InstanceOf(instances, userId);
    }

    method UpdateAIInstance(id: nat, p: InstancePatch) returns (r: Result<Unit>)
      requires Valid()
      modifies this
      ensures Valid() && available == old(available)
      ensures users == old(users) && subscriptions == old(subscriptions) && billingRecords == old(billingRecords)
      ensures !available ==> r == Fail(DatabaseNotAvailable) && instances == old(instances)
      ensures available ==> r.Ok? && instances == PatchInstances(old(instances), id, p)
      ensures nextUserId == old(nextUserId) && nextSubscriptionId == old(nextSubscriptionId)
      ensures nextInstanceId == old(nextInstanceId) && nextBillingId == old(nextBillingId)
    {
      if !available { return Fail(DatabaseNotAvailable); }
      instances := PatchInstances(instances, id, p);
      r := Ok(Unit);
    }

    /** `createBillingRecord`: returns the new row's id. */
    method CreateBillingRecord(ins: BillingInsert) returns (r: Result<nat>)
      requires Valid()
      modifies this
      ensures Valid() && available == old(available)
      ensures users == old(users) && subscriptions == old(subscriptions) && instances == old(instances)
      ensures !available ==> r == Fail(DatabaseNotAvailable) && billingRecords == old(billingRecords)
      ensures available ==>
        r == Ok(old(nextBillingId)) && billingRecords == old(billingRecords) + [NewBillingRecord(old(nextBillingId), ins)]
      ensures nextUserId == old(nextUserId) && nextSubscriptionId == old(nextSubscriptionId) && nextInstanceId == old(nextInstanceId)
      ensures nextBillingId == old(nextBillingId) + if available then 1 else 0
    {
      if !available { return Fail(DatabaseNotAvailable); }
      AppendBillingIds(billingRecords, nextBillingId, NewBillingRecord(nextBillingId, ins));
      billingRecords := billingRecords + [NewBillingRecord(nextBillingId, ins)];
      r := Ok(nextBillingId);
      nextBillingId := nextBillingId + 1;
    }

    method GetBillingRecordsByUserId(userId: int) returns (r: seq<BillingRecord>)
      ensures !available ==> r == []
      ensures available ==> r == BillingOf(billingRecords, userId)
    {
      if !available { return []; }
      r := BillingOf(billingRecords, userId);
    }
  }
}
