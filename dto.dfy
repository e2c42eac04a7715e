/**
 * The request and response records of the profile endpoints and their field constraints.
 * A pattern `^[...]+$` with a minimum length becomes "long enough and every character in the
 * class". EmailStr's address syntax check belongs to a library and is a parameter here.
 */
module Dto {
  import opened Wrappers
  import opened Models

  predicate LatinLetter(c: char)
  {
    ('a' <= c <= 'z') || ('A' <= c <= 'Z')
  }

  predicate DecimalDigit(c: char)
  {
    '0' <= c <= '9'
  }

  /** The class `[a-zA-Z_.0-9]`. */
  predicate UsernameChar(c: char)
  {
    LatinLetter(c) || DecimalDigit(c) || c == '_' || c == '.'
  }

  /** The class `[a-zA-Z_.0-9&^#!]`. */
  predicate PasswordChar(c: char)
  {
    UsernameChar(c) || c == '&' || c == '^' || c == '#' || c == '!'
  }

  /** The class `[а-яёЁА-Яa-zA-Z\-]`: Latin letters, the Russian alphabet's two ranges, ё, Ё and '-'. */
  predicate NameChar(c: char)
  {
    || LatinLetter(c)
    || ('\U{0430}' <= c <= '\U{044F}')
    || ('\U{0410}' <= c <= '\U{042F}')
    || c == '\U{0451}' || c == '\U{0401}'
    || c == '-'
  }

  predicate ValidUsername(s: string)
  {
    |s| >= 4 && forall i :: 0 <= i < |s| ==> UsernameChar(s[i])
  }

  predicate ValidPassword(s: string)
  {
    |s| >= 4 && forall i :: 0 <= i < |s| ==> PasswordChar(s[i])
  }

  predicate ValidName(s: string)
  {
    |s| >= 2 && forall i :: 0 <= i < |s| ==> NameChar(s[i])
  }

  predicate ValidCity(s: string)
  {
    |s| >= 2
  }

  predicate ValidFirebaseToken(s: string)
  {
    |s| >= 6
  }

  predicate ValidEmail(s: string, isEmail: string -> bool)
  {
    |s| >= 5 && isEmail(s)
  }

  /** The password alphabet contains the username alphabet, so a valid username is a valid password. */
  lemma UsernameIsPassword(s: string)
    requires ValidUsername(s)
    ensures ValidPassword(s)
  {
  }

  /** `GenderType(v)`: exactly "m" and "f" are accepted. */
  function ParseGenderType(v: string): (r: Option<Gender>)
    ensures r.Some? <==> v == "m" || v == "f"
    ensures r == Some(Male) <==> v == "m"
    ensures r == Some(Female) <==> v == "f"
  {
    GenderFromValue(v)
  }

  /** The field defaults of UserCreateModel. */
  const DefaultUsername := "username"
  const DefaultPassword := "password"
  const DefaultFirstName := "John"
  const DefaultLastName := "Doe"
  const DefaultGender := "m"
  const DefaultCity := "\U{0420}\U{043E}\U{0441}\U{0442}\U{043E}\U{0432}-\U{043D}\U{0430}-\U{0414}\U{043E}\U{043D}\U{0443}"
  const DefaultFirebaseToken := "firebase"

  /** The defaults are not validated, but each of them would pass its field's constraint. */
  lemma DefaultsSatisfyConstraints()
    ensures ValidUsername(DefaultUsername) && ValidPassword(DefaultPassword)
    ensures ValidName(DefaultFirstName) && ValidName(DefaultLastName)
    ensures ParseGenderType(DefaultGender) == Some(Male)
    ensures ValidCity(DefaultCity) && ValidFirebaseToken(DefaultFirebaseToken)
  {
    assert forall i :: 0 <= i < |DefaultFirstName| ==> LatinLetter(DefaultFirstName[i]);
    assert forall i :: 0 <= i < |DefaultLastName| ==> LatinLetter(DefaultLastName[i]);
  }

  /**
   * What the `gender` attribute of a validated UserCreateModel holds: the GenderType member of a
   * given value, or, when the body leaves the field out, the unvalidated default, a plain str.
   */
  datatype GenderField = Member(gender: Gender) | RawDefault(raw: string)

  /** A validated UserCreateModel. */
  datatype UserCreateModel = UserCreateModel(
    username: string,
    password: string,
    email: string,
    firstName: string,
    lastName: string,
    gender: GenderField,
    dateOfBirth: Date,
    city: string,
    description: string,
    firebaseToken: string)

  /** A UserCreateModel request body before validation; None is a field left out of the body. */
  datatype UserCreateRequest = UserCreateRequest(
    username: Option<string>,
    password: Option<string>,
    email: Option<string>,
    firstName: Option<string>,
    lastName: Option<string>,
    gender: Option<string>,
    dateOfBirth: Option<Date>,
    city: Option<string>,
    description: Option<string>,
    firebaseToken: Option<string>)

  /** The fields in declaration order. */
  const CreateFields: seq<string> := ["username", "password", "email", "firstName", "lastName",
                                      "gender", "dateOfBirth", "city", "description", "firebaseToken"]

  function OrDefault(v: Option<string>, default: string): string
  {
    if v.Some? then v.value else default
  }

  /**
   * Whether one field of the request is acceptable: a field with a default may be left out (the
   * default is not checked); email, dateOfBirth and description are required.
   */
  predicate FieldOk(req: UserCreateRequest, isEmail: string -> bool, field: string)
  {
    match field
    case "username" => req.username.None? || ValidUsername(req.username.value)
    case "password" => req.password.None? || ValidPassword(req.password.value)
    case "email" => req.email.Some? && ValidEmail(req.email.value, isEmail)
    case "firstName" => req.firstName.None? || ValidName(req.firstName.value)
    case "lastName" => req.lastName.None? || ValidName(req.lastName.value)
    case "gender" => req.gender.None? || ParseGenderType(req.gender.value).Some?
    case "dateOfBirth" => req.dateOfBirth.Some?
    case "city" => req.city.None? || ValidCity(req.city.value)
    case "description" => req.description.Some?
    case "firebaseToken" => req.firebaseToken.None? || ValidFirebaseToken(req.firebaseToken.value)
    case _ => true
  }

  /** The names among `fields` that fail, in order. */
  function Failing(req: UserCreateRequest, isEmail: string -> bool, fields: seq<string>): (errs: seq<string>)
    ensures forall f :: f in errs <==> f in fields && !FieldOk(req, isEmail, f)
  {
    if fields == [] then []
    else
      (if FieldOk(req, isEmail, fields[0]) then [] else [fields[0]])
      + Failing(req, isEmail, fields[1..])
  }

  /**
   * Validation of a UserCreateModel body: accepted exactly when every field is acceptable, and
   * then every field holds the given value or its default; otherwise the error lists exactly the
   * failing fields.
   */
  function ValidateUserCreate(req: UserCreateRequest, isEmail: string -> bool): (r: Result<UserCreateModel, seq<string>>)
    ensures r.Ok? <==> forall f :: f in CreateFields ==> FieldOk(req, isEmail, f)
    ensures r.Err? ==> r.error != [] && forall f :: f in r.error <==> f in CreateFields && !FieldOk(req, isEmail, f)
    ensures r.Ok? ==> (r.value.username == OrDefault(req.username, DefaultUsername)
                   && r.value.password == OrDefault(req.password, DefaultPassword)
                   && Some(r.value.email) == req.email
                   && r.value.firstName == OrDefault(req.firstName, DefaultFirstName)
                   && r.value.lastName == OrDefault(req.lastName, DefaultLastName)
                   && (req.gender.Some? ==> r.value.gender.Member?
                                            && Some(r.value.gender.gender) == ParseGenderType(req.gender.value))
                   && (req.gender.None? ==> r.value.gender == RawDefault(DefaultGender))
                   && Some(r.value.dateOfBirth) == req.dateOfBirth
                   && r.value.city == OrDefault(req.city, DefaultCity)
                   && Some(r.value.description) == req.description
                   && r.value.firebaseToken == OrDefault(req.firebaseToken, DefaultFirebaseToken))
  {
    var errs := Failing(req, isEmail, CreateFields);
    if errs != [] then
      assert errs[0] in errs;
      Err(errs)
    else
      assert FieldOk(req, isEmail, "email") && FieldOk(req, isEmail, "dateOfBirth");
      assert FieldOk(req, isEmail, "description") && FieldOk(req, isEmail, "gender");
      var gender := if req.gender.Some? then Member(ParseGenderType(req.gender.value).value)
                    else RawDefault(DefaultGender);
      Ok(UserCreateModel(
        OrDefault(req.username, DefaultUsername),
        OrDefault(req.password, DefaultPassword),
        req.email.value,
        OrDefault(req.firstName, DefaultFirstName),
        OrDefault(req.lastName, DefaultLastName),
        gender,
        req.dateOfBirth.value,
        OrDefault(req.city, DefaultCity),
        req.description.value,
        OrDefault(req.firebaseToken, DefaultFirebaseToken)))
  }

  /** A model whose every field meets its constraint. */
  predicate ValidModel(m: UserCreateModel, isEmail: string -> bool)
  {
    && ValidUsername(m.username) && ValidPassword(m.password) && ValidEmail(m.email, isEmail)
    && ValidName(m.firstName) && ValidName(m.lastName) && m.gender.Member?
    && ValidCity(m.city) && ValidFirebaseToken(m.firebaseToken)
  }

  /** The request body that states every field of `m`. */
  function RequestOf(m: UserCreateModel): UserCreateRequest
    requires m.gender.Member?
  {
    UserCreateRequest(Some(m.username), Some(m.password), Some(m.email), Some(m.firstName),
                      Some(m.lastName), Some(GenderValue(m.gender.gender)), Some(m.dateOfBirth),
                      Some(m.city), Some(m.description), Some(m.firebaseToken))
  }

  /** Sending a valid model's fields validates back to that model. */
  lemma ValidateRoundTrip(m: UserCreateModel, isEmail: string -> bool)
    requires ValidModel(m, isEmail)
    ensures ValidateUserCreate(RequestOf(m), isEmail) == Ok(m)
  {
    var req := RequestOf(m);
    GenderRoundTrip(m.gender.gender);
    assert forall f :: f in CreateFields ==> FieldOk(req, isEmail, f);
  }

  /**
   * As written, a body that leaves gender out validates to the unvalidated default, the plain
   * str "m": no GenderType member, so the model is not one a client can send back.
   */
  lemma OmittedGenderStaysRaw(req: UserCreateRequest, isEmail: string -> bool)
    requires ValidateUserCreate(req, isEmail).Ok? && req.gender.None?
    ensures ValidateUserCreate(req, isEmail).value.gender == RawDefault("m")
    ensures !ValidModel(ValidateUserCreate(req, isEmail).value, isEmail)
  {
  }

  /**
   * Validation as the gender default evidently intends (a GenderType default, or a validated
   * one): the same acceptance and the same fields, except that an omitted gender is male.
   */
  function ValidateUserCreateWithDefaults(req: UserCreateRequest, isEmail: string -> bool)
    : (r: Result<UserCreateModel, seq<string>>)
    ensures r.Ok? <==> ValidateUserCreate(req, isEmail).Ok?
    ensures r.Err? ==> r.error == ValidateUserCreate(req, isEmail).error
    ensures r.Ok? ==> r.value.gender.Member?
    ensures r.Ok? && req.gender.None? ==> r.value.gender == Member(Male)
    ensures r.Ok? ==> r.value == ValidateUserCreate(req, isEmail).value.(gender := r.value.gender)
  {
    var v := ValidateUserCreate(req, isEmail);
    if v.Err? then v
    else Ok(v.value.(gender := Member(if req.gender.Some? then v.value.gender.gender else Male)))
  }

  /** The field values an accepted body yields, given or default, each meet their constraint. */
  lemma AcceptedFieldsMeetConstraints(req: UserCreateRequest, isEmail: string -> bool)
    requires forall f :: f in CreateFields ==> FieldOk(req, isEmail, f)
    ensures ValidUsername(OrDefault(req.username, DefaultUsername))
    ensures ValidPassword(OrDefault(req.password, DefaultPassword))
    ensures req.email.Some? && ValidEmail(req.email.value, isEmail)
    ensures ValidName(OrDefault(req.firstName, DefaultFirstName))
    ensures ValidName(OrDefault(req.lastName, DefaultLastName))
    ensures ValidCity(OrDefault(req.city, DefaultCity))
    ensures ValidFirebaseToken(OrDefault(req.firebaseToken, DefaultFirebaseToken))
  {
    DefaultsSatisfyConstraints();
    assert FieldOk(req, isEmail, CreateFields[0]) && FieldOk(req, isEmail, CreateFields[1]);
    assert FieldOk(req, isEmail, CreateFields[2]) && FieldOk(req, isEmail, CreateFields[3]);
    assert FieldOk(req, isEmail, CreateFields[4]) && FieldOk(req, isEmail, CreateFields[7]);
    assert FieldOk(req, isEmail, CreateFields[9]);
  }

  /** Every model the corrected validation accepts meets all its constraints and validates back to itself. */
  lemma WithDefaultsRoundTrip(req: UserCreateRequest, isEmail: string -> bool)
    requires ValidateUserCreateWithDefaults(req, isEmail).Ok?
    ensures ValidModel(ValidateUserCreateWithDefaults(req, isEmail).value, isEmail)
    ensures var m := ValidateUserCreateWithDefaults(req, isEmail).value;
      ValidateUserCreate(RequestOf(m), isEmail) == Ok(m)
  {
    var v := ValidateUserCreate(req, isEmail);
    var m := ValidateUserCreateWithDefaults(req, isEmail).value;
    assert v.Ok? && m == v.value.(gender := m.gender);
    AcceptedFieldsMeetConstraints(req, isEmail);
    ValidateRoundTrip(m, isEmail);
  }

  /** UpdateUsersView: every field optional and unconstrained; None is a field left out. */
  datatype UpdateUsersView = UpdateUsersView(
    username: Option<string>,
    firstName: Option<string>,
    lastName: Option<string>,
    city: Option<string>,
    description: Option<string>)

  /** A field of a JSON body as sent: left out, an explicit null, or a string. */
  datatype JsonField = Absent | JsonNull | Given(text: string)

  /** The attribute a pydantic field takes: the string, or its None default. */
  function FieldValue(f: JsonField): (v: Option<string>)
    ensures v.Some? <==> f.Given?
    ensures f.Given? ==> v.value == f.text
  {
    if f.Given? then Some(f.text) else None
  }

  /** `[name]` when the field is an explicit null that a plain `str` field refuses. */
  function NullError(name: string, f: JsonField): seq<string>
  {
    if f.JsonNull? then [name] else []
  }

  /**
   * Validation of an UpdateUsersView body. `username` is `str | None` and takes null; the other
   * four are `str` with a None default, so leaving them out is fine but an explicit null fails.
   */
  function ValidateUpdate(username: JsonField, firstName: JsonField, lastName: JsonField,
                          city: JsonField, description: JsonField): (r: Result<UpdateUsersView, seq<string>>)
    ensures r.Ok? <==> !firstName.JsonNull? && !lastName.JsonNull? && !city.JsonNull? && !description.JsonNull?
    ensures r.Err? ==> forall n :: n in r.error <==>
      || (n == "firstName" && firstName.JsonNull?) || (n == "lastName" && lastName.JsonNull?)
      || (n == "city" && city.JsonNull?) || (n == "description" && description.JsonNull?)
    ensures r.Ok? ==> r.value.username == FieldValue(username) && r.value.firstName == FieldValue(firstName)
    ensures r.Ok? ==> r.value.lastName == FieldValue(lastName) && r.value.city == FieldValue(city)
    ensures r.Ok? ==> r.value.description == FieldValue(description)
  {
    var errs := NullError("firstName", firstName) + NullError("lastName", lastName)
                + NullError("city", city) + NullError("description", description);
    if errs != [] then Err(errs)
    else Ok(UpdateUsersView(FieldValue(username), FieldValue(firstName), FieldValue(lastName),
                            FieldValue(city), FieldValue(description)))
  }

  /** The body a client sends for `v`: every None field left out. */
  function BodyField(v: Option<string>): JsonField
  {
    if v.Some? then Given(v.value) else Absent
  }

  /** Every UpdateUsersView is accepted back from the body that leaves its None fields out. */
  lemma ValidateUpdateRoundTrip(v: UpdateUsersView)
    ensures ValidateUpdate(BodyField(v.username), BodyField(v.firstName), BodyField(v.lastName),
                           BodyField(v.city), BodyField(v.description)) == Ok(v)
  {
  }

  function Entry(key: string, v: Option<string>): map<string, ColumnValue>
  {
    if v.Some? then map[key := Text(v.value)] else map[]
  }

  /** `model_dump(exclude_none=True)`: one entry per field that is not None, holding its text. */
  function ModelDump(v: UpdateUsersView): (r: map<string, ColumnValue>)
    ensures r.Keys <= {"username", "firstName", "lastName", "city", "description"}
    ensures ("username" in r <==> v.username.Some?) && ("firstName" in r <==> v.firstName.Some?)
    ensures ("lastName" in r <==> v.lastName.Some?) && ("city" in r <==> v.city.Some?)
    ensures "description" in r <==> v.description.Some?
    ensures v.username.Some? ==> r["username"] == Text(v.username.value)
    ensures v.firstName.Some? ==> r["firstName"] == Text(v.firstName.value)
    ensures v.lastName.Some? ==> r["lastName"] == Text(v.lastName.value)
    ensures v.city.Some? ==> r["city"] == Text(v.city.value)
    ensures v.description.Some? ==> r["description"] == Text(v.description.value)
  {
    Entry("username", v.username) + Entry("firstName", v.firstName) + Entry("lastName", v.lastName)
    + Entry("city", v.city) + Entry("description", v.description)
  }

  /** UsersAccountStatistic, with both counters defaulting to 0. */
  datatype StatisticView = StatisticView(totalEvents: int, totalFriends: int)

  const DefaultStatisticView := StatisticView(0, 0)

  datatype CityView = CityView(name: string)

  datatype ProfileView = ProfileView(
    firstName: string, lastName: string, age: int, city: CityView, description: string)

  datatype MediaView = MediaView(id: int, mediaUrl: string, createdAt: Instant)

  /** UserView, the profile read model. */
  datatype UserView = UserView(
    id: AccountId,
    username: string,
    profile: ProfileView,
    usersAvatars: seq<MediaView>,
    usersBackPad: MediaView,
    accountStatistic: StatisticView)

  function AvatarViews(s: seq<Avatar>): (r: seq<MediaView>)
    ensures |r| == |s|
    ensures forall i :: 0 <= i < |s| ==> r[i] == MediaView(s[i].id, s[i].mediaUrl, s[i].createdAt)
    ensures forall a :: a in s ==> MediaView(a.id, a.mediaUrl, a.createdAt) in r
  {
    if s == [] then [] else [MediaView(s[0].id, s[0].mediaUrl, s[0].createdAt)] + AvatarViews(s[1..])
  }

  /**
   * `UserView.model_validate(account)`: fails with a ValidationError when a required part is
   * missing (profile, its city, back-pad or statistics); otherwise copies the account, with the
   * profile's age computed for `today` and the avatars in the aggregate's order.
   */
  function ToUserView(agg: AccountAggregate, cities: map<int, City>, today: Date): (r: Result<UserView, string>)
    ensures r.Ok? <==> agg.profile.Some? && agg.profile.value.cityId in cities
                       && agg.backPad.Some? && agg.statistic.Some?
    ensures r.Ok? ==> r.value.id == agg.account.id && r.value.username == agg.account.username
    ensures r.Ok? ==> r.value.profile.age == Age(Some(agg.profile.value.dateOfBirth), today).value
    ensures r.Ok? ==> r.value.profile.city.name == cities[agg.profile.value.cityId].name
    ensures r.Ok? ==> r.value.profile.firstName == agg.profile.value.firstName
                      && r.value.profile.lastName == agg.profile.value.lastName
                      && r.value.profile.description == agg.profile.value.description
    ensures r.Ok? ==> r.value.usersAvatars == AvatarViews(agg.avatars)
    ensures r.Ok? ==> r.value.usersBackPad
                      == MediaView(agg.backPad.value.id, agg.backPad.value.mediaUrl, agg.backPad.value.createdAt)
    ensures r.Ok? ==> r.value.accountStatistic
                      == StatisticView(agg.statistic.value.totalEvents, agg.statistic.value.totalFriends)
  {
    if agg.profile.None? || agg.profile.value.cityId !in cities || agg.backPad.None? || agg.statistic.None?
    then Err("ValidationError")
    else
      var p := agg.profile.value;
      var b := agg.backPad.value;
      var s := agg.statistic.value;
      Ok(UserView(
        agg.account.id,
        agg.account.username,
        ProfileView(p.firstName, p.lastName, Age(Some(p.dateOfBirth), today).value,
                    CityView(cities[p.cityId].name), p.description),
        AvatarViews(agg.avatars),
        MediaView(b.id, b.mediaUrl, b.createdAt),
        StatisticView(s.totalEvents, s.totalFriends)))
  }

  /** EmailSenderData. */
  datatype EmailSenderData = EmailSenderData(
    email: string, target: string, username: Option<string>, verificationCode: string)

  /** FirebaseToken. */
  datatype FirebaseToken = FirebaseToken(
    target: string, firebaseToken: string, username: string, userId: string, mediaUrl: Option<string>)

  /** UpdateAvatar. */
  datatype UpdateAvatar = UpdateAvatar(userId: string, newMediaUrl: string, target: string)

  /** DropUser, the account-drop notification record, whose target defaults to "drop_user". */
  datatype DropUser = DropUser(userId: string, target: string)

  /** A message handed to the publisher. */
  datatype Payload =
    | EmailMessage(emailData: EmailSenderData)
    | TokenMessage(tokenData: FirebaseToken)
    | AvatarMessage(avatarData: UpdateAvatar)
    | DropMessage(dropData: DropUser)
}
