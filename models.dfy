/**
 * The tables of the profile store as records, the Gender enum, and the `age` property of a
 * profile. Row ids of the integer-keyed tables are autoincrement values; account ids are uuids,
 * represented by their canonical text.
 */
module Models {
  import opened Wrappers

  type AccountId = string

  /** A point in time (`created_at` defaults to the current UTC time); only its order matters. */
  type Instant = int

  datatype Gender = Male | Female

  /** The stored value of each Gender member. */
  function GenderValue(g: Gender): (v: string)
  {
    match g
    case Male => "m"
    case Female => "f"
  }

  /** `Gender(v)`: accepts exactly the two member values. */
  function GenderFromValue(v: string): (r: Option<Gender>)
    ensures r.Some? <==> v == "m" || v == "f"
    ensures r.Some? ==> GenderValue(r.value) == v
  {
    if v == "m" then Some(Male) else if v == "f" then Some(Female) else None
  }

  /** Gender has exactly two members, with distinct values that read back as themselves. */
  lemma GenderRoundTrip(g: Gender)
    ensures GenderFromValue(GenderValue(g)) == Some(g)
    ensures g == Male || g == Female
    ensures GenderValue(Male) != GenderValue(Female)
  {
  }

  datatype Date = Date(year: int, month: int, day: int)

  /** Python's `(a.month, a.day) < (b.month, b.day)` on tuples. */
  predicate MonthDayBefore(a: Date, b: Date)
  {
    a.month < b.month || (a.month == b.month && a.day < b.day)
  }

  /** Strict order of dates: by year, then month, then day. */
  predicate Before(a: Date, b: Date)
  {
    a.year < b.year || (a.year == b.year && MonthDayBefore(a, b))
  }

  /** The `n`-th anniversary of `dob`. */
  function Anniversary(dob: Date, n: int): Date
  {
    Date(dob.year + n, dob.month, dob.day)
  }

  /**
   * `UsersProfiles.age` on the day `today`: None without a date of birth; otherwise the number of
   * anniversaries of the date of birth that have been reached, i.e. the `a` with the `a`-th
   * anniversary on or before today and the next one after today.
   */
  function Age(dateOfBirth: Option<Date>, today: Date): (r: Option<int>)
    ensures r.None? <==> dateOfBirth.None?
    ensures r.Some? ==> !Before(today, Anniversary(dateOfBirth.value, r.value))
    ensures r.Some? ==> Before(today, Anniversary(dateOfBirth.value, r.value + 1))
  {
    match dateOfBirth
    case None => None
    case Some(dob) =>
      Some(today.year - dob.year - (if MonthDayBefore(today, dob) then 1 else 0))
  }

  /** On or after the date of birth the age is not negative. */
  lemma AgeNotNegative(dob: Date, today: Date)
    requires !Before(today, dob)
    ensures Age(Some(dob), today).value >= 0
  {
  }

  /** Within one year, the age goes up by exactly one when the birthday is reached. */
  lemma AgeStepsOnBirthday(dob: Date, dayBefore: Date, onOrAfter: Date)
    requires dayBefore.year == onOrAfter.year
    requires MonthDayBefore(dayBefore, dob) && !MonthDayBefore(onOrAfter, dob)
    ensures Age(Some(dob), onOrAfter).value == Age(Some(dob), dayBefore).value + 1
  {
  }

  /** `users_accounts`. */
  datatype Account = Account(
    id: AccountId,
    username: string,
    password: string,
    email: string,
    isOpenAccount: bool,
    primeStatus: bool,
    createdAt: Instant)

  /** A new account row: the column defaults make it open and not prime. */
  function NewAccount(id: AccountId, username: string, passwordHash: string, email: string,
                      now: Instant): (a: Account)
    ensures a.isOpenAccount && !a.primeStatus
    ensures a.id == id && a.username == username && a.password == passwordHash
    ensures a.email == email && a.createdAt == now
  {
    Account(id, username, passwordHash, email, true, false, now)
  }

  /**
   * `users_profiles`; `cityId` references `cities`. Its column is declared `Mapped[int]`, not
   * Optional, so it is NOT NULL: a row can only hold an existing city's id.
   */
  datatype Profile = Profile(
    id: int,
    accountId: AccountId,
    firstName: string,
    lastName: string,
    description: string,
    gender: Gender,
    dateOfBirth: Date,
    cityId: int)

  /** `cities` (the region and federal-district references are kept as plain ids). */
  datatype City = City(id: int, name: string, regionId: int, federalDistrictId: int)

  /** `users_avatars`. */
  datatype Avatar = Avatar(id: int, accountId: AccountId, mediaUrl: string, createdAt: Instant)

  /** `users_back_pads`. */
  datatype BackPad = BackPad(id: int, accountId: AccountId, mediaUrl: string, createdAt: Instant)

  /** `account_statistics`. */
  datatype Statistic = Statistic(id: int, accountId: AccountId, totalEvents: int, totalFriends: int)

  /** A value written into a profile column by a partial update. */
  datatype ColumnValue = Text(text: string) | CityRef(city: Option<int>)

  /** Avatars ordered as the `usersAvatars` relationship orders them: newest first. */
  predicate NewestFirst(s: seq<Avatar>)
  {
    forall i, j :: 0 <= i < j < |s| ==> s[j].createdAt <= s[i].createdAt
  }

  /**
   * An account with its eagerly loaded relationships: profile, avatars (newest first), back-pad,
   * statistics and favourite category ids.
   */
  datatype AccountAggregate = AccountAggregate(
    account: Account,
    profile: Option<Profile>,
    avatars: seq<Avatar>,
    backPad: Option<BackPad>,
    statistic: Option<Statistic>,
    categories: set<int>)
}
