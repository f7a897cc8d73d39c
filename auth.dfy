/** `src/lib/auth.ts`: the plan price and duration tables, the subscription record
    that `createSubscription` inserts, and `createDeliveryAddress`. */
module Auth {
  import opened Wrappers
  import opened Backend

  /** The three subscription plans, `"day" | "week" | "month"`. */
  datatype Plan = Day | Week | Month

  /** The `period` string a plan is stored and displayed under. */
  function PeriodName(p: Plan): string {
    match p
    case Day => "day"
    case Week => "week"
    case Month => "month"
  }

  /** The position of a plan in the order day < week < month. */
  function Rank(p: Plan): nat {
    match p
    case Day => 0
    case Week => 1
    case Month => 2
  }

  /** The `prices` table. */
  function Price(p: Plan): nat {
    match p
    case Day => 299
    case Week => 1499
    case Month => 4999
  }

  /** The `durationInDays` table. */
  function DurationInDays(p: Plan): nat {
    match p
    case Day => 1
    case Week => 7
    case Month => 30
  }

  /** `24 * 60 * 60 * 1000`: a day is always this many milliseconds (no calendar). */
  const MillisPerDay: int := 24 * 60 * 60 * 1000

  /** `Date.now() + durationInDays[period] * 24 * 60 * 60 * 1000`, in milliseconds. */
  function ActiveUntil(now: int, p: Plan): (t: int)
    ensures t > now
  {
    now + DurationInDays(p) * MillisPerDay
  }

  /** The default of the `cuisineType` parameter. */
  const DefaultCuisine: string := "All Cuisines"

  /** The name stored when the signed-in user has no (or an empty) full name. */
  const AnonymousName: string := "Anonymous"

  /** `user?.user_metadata?.full_name || "Anonymous"`: `||` also replaces the empty
      string, which is falsy. */
  function UserName(authUser: Option<User>): string {
    if authUser.Some? && authUser.value.fullName.Some? && authUser.value.fullName.value != "" then
      authUser.value.fullName.value
    else
      AnonymousName
  }

  /** `user?.email`: undefined when nobody is signed in. */
  function UserEmail(authUser: Option<User>): Option<string> {
    if authUser.Some? then authUser.value.email else None
  }

  /** The record `createSubscription` inserts. `cuisineType` and `deliveryAddressId`
      are `None` when the caller passed `undefined`; only `cuisineType` has a default.
      `authUser` is what `getUser` reported, `now` is `Date.now()`. */
  function SubscriptionRecord(
    userId: string, period: Plan, cuisineType: Option<string>, deliveryAddressId: Option<string>,
    authUser: Option<User>, now: int): SubscriptionRow
  {
    SubscriptionRow(
      userId := userId,
      userName := UserName(authUser),
      userEmail := UserEmail(authUser),
      period := PeriodName(period),
      price := Price(period),
      cuisineType := cuisineType.GetOr(DefaultCuisine),
      deliveryAddressId := deliveryAddressId,
      activeUntil := ActiveUntil(now, period))
  }

  /** What the two functions throw. */
  datatype AuthError = NotAuthenticated | BackendError(message: string)

  /** The message of the thrown error. */
  function ErrorMessage(e: AuthError): string {
    match e
    case NotAuthenticated => "User not authenticated"
    case BackendError(m) => m
  }

  /** The argument of `createDeliveryAddress` (and of the address form's `onSubmit`). */
  datatype AddressInput = AddressInput(
    addressLine1: string,
    addressLine2: string,
    area: string,
    pincode: string,
    landmark: string)

  /** The row inserted for `user`, with the id the backend generates. */
  function AddressRowFor(user: User, a: AddressInput, id: string): AddressRow {
    AddressRow(id, user.id, a.addressLine1, a.addressLine2, a.area, a.pincode, a.landmark)
  }

  /** Reading the five address columns of a row back. */
  function AddressFields(row: AddressRow): AddressInput {
    AddressInput(row.addressLine1, row.addressLine2, row.area, row.pincode, row.landmark)
  }

  /** The outcome of `createDeliveryAddress` given what `getUser` reports, the id the
      backend generates and the error the insert reports, if any. */
  function DeliveryAddressOutcome(
    authUser: Option<User>, a: AddressInput, newId: string, insertError: Option<string>): (r: Result<AddressRow, AuthError>)
    ensures r == Failure(NotAuthenticated) <==> authUser.None?
    ensures authUser.None? ==> ErrorMessage(r.error) == "User not authenticated"
    ensures r.Success? <==> authUser.Some? && insertError.None?
    ensures authUser.Some? && insertError.Some? ==> r == Failure(BackendError(insertError.value))
    ensures r.Success? ==> AddressFields(r.value) == a && r.value.userId == authUser.value.id && r.value.id == newId
  {
    if authUser.None? then Failure(NotAuthenticated)
    else if insertError.Some? then Failure(BackendError(insertError.value))
    else Success(AddressRowFor(authUser.value, a, newId))
  }

  /** `createDeliveryAddress`: refuses when nobody is signed in, otherwise inserts the
      row and returns it, or rethrows the backend's error. */
  method CreateDeliveryAddress(db: Database, a: AddressInput, newId: string, insertError: Option<string>)
    returns (r: Result<AddressRow, AuthError>)
    modifies db`addresses
    ensures r == DeliveryAddressOutcome(old(db.authUser), a, newId, insertError)
    ensures db.addresses == old(db.addresses) + (if r.Success? then [r.value] else [])
  {
    var user := db.authUser;
    if user.None? {
      return Failure(NotAuthenticated);
    }
    var row := AddressRowFor(user.value, a, newId);
    if insertError.Some? {
      return Failure(BackendError(insertError.value));
    }
    db.addresses := db.addresses + [row];
    r := Success(row);
  }

  /** `createSubscription`: never checks that somebody is signed in; inserts the record
      or rethrows the backend's error. Its own result (the insert's `data`, which is
      `null` without `.select()`) is modelled as `()`. */
  method CreateSubscription(
    db: Database, userId: string, period: Plan, cuisineType: Option<string>, deliveryAddressId: Option<string>,
    now: int, insertError: Option<string>)
    returns (r: Result<(), AuthError>)
    modifies db`subscriptions
    ensures r == if insertError.None? then Success(()) else Failure(BackendError(insertError.value))
    ensures db.subscriptions == old(db.subscriptions) +
      (if r.Success? then [SubscriptionRecord(userId, period, cuisineType, deliveryAddressId, old(db.authUser), now)] else [])
  {
    var user := db.authUser;
    var row := SubscriptionRecord(userId, period, cuisineType, deliveryAddressId, user, now);
    if insertError.Some? {
      return Failure(BackendError(insertError.value));
    }
    db.subscriptions := db.subscriptions + [row];
    r := Success(());
  }

  // Properties of the tables and of the inserted records.

  /** The two plan tables and the length of a day, as constants. */
  lemma PlanTables()
    ensures Price(Day) == 299 && Price(Week) == 1499 && Price(Month) == 4999
    ensures DurationInDays(Day) == 1 && DurationInDays(Week) == 7 && DurationInDays(Month) == 30
    ensures MillisPerDay == 86_400_000
  {
  }

  /** The month plan lasts 30 fixed days whatever the calendar month. */
  lemma MonthIsThirtyDays(now: int)
    ensures ActiveUntil(now, Month) - now == 2_592_000_000
  {
  }

  /** A longer plan costs strictly more and runs strictly longer. */
  lemma LongerPlansCostMore(now: int, p: Plan, q: Plan)
    requires Rank(p) < Rank(q)
    ensures Price(p) < Price(q)
    ensures DurationInDays(p) < DurationInDays(q)
    ensures ActiveUntil(now, p) < ActiveUntil(now, q)
  {
  }

  /** What every field of the inserted subscription record holds. */
  lemma SubscriptionRecordFields(
    userId: string, period: Plan, cuisineType: Option<string>, deliveryAddressId: Option<string>,
    authUser: Option<User>, now: int)
    ensures var row := SubscriptionRecord(userId, period, cuisineType, deliveryAddressId, authUser, now);
      && row.userId == userId
      && row.userName == UserName(authUser)
      && row.userEmail == UserEmail(authUser)
      && row.period == PeriodName(period)
      && row.price == Price(period)
      && row.activeUntil - now == DurationInDays(period) * 86_400_000
      && row.activeUntil > now
      && (cuisineType.None? ==> row.cuisineType == "All Cuisines")
      && (cuisineType.Some? ==> row.cuisineType == cuisineType.value)
      && row.deliveryAddressId == deliveryAddressId
  {
  }

  /** Without a signed-in user the record is still built: the name falls back to
      "Anonymous" and the e-mail is undefined, while `user_id` is the argument. */
  lemma SubscriptionWithoutUser(
    userId: string, period: Plan, cuisineType: Option<string>, deliveryAddressId: Option<string>, now: int)
    ensures var row := SubscriptionRecord(userId, period, cuisineType, deliveryAddressId, None, now);
      row.userName == "Anonymous" && row.userEmail.None? && row.userId == userId
  {
  }

  /** A signed-in user's non-empty full name and e-mail are stored; an empty full name
      falls back to "Anonymous" like a missing one. */
  lemma SubscriptionNamesUser(u: User)
    ensures u.fullName.Some? && u.fullName.value != "" ==> UserName(Some(u)) == u.fullName.value
    ensures u.fullName.None? || u.fullName.value == "" ==> UserName(Some(u)) == "Anonymous"
    ensures UserEmail(Some(u)) == u.email
  {
  }

  /** Plan "week", cuisine "Bengali", user "u1": price 1499 and seven days of access. */
  lemma WeekBengaliScenario(authUser: Option<User>, addressId: Option<string>, now: int)
    ensures var row := SubscriptionRecord("u1", Week, Some("Bengali"), addressId, authUser, now);
      row.price == 1499 && row.activeUntil == now + 604_800_000 && row.userId == "u1"
      && row.cuisineType == "Bengali" && row.period == "week"
  {
  }

  /** A stored address reads back with exactly the five fields that were submitted. */
  lemma AddressRoundTrip(user: User, a: AddressInput, id: string)
    ensures AddressFields(AddressRowFor(user, a, id)) == a
    ensures AddressRowFor(user, a, id).userId == user.id
  {
  }
}
