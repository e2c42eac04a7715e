/**
 * DatabaseInterface: the operations of the profile store, over in-memory tables. Each operation
 * is one transaction: it either commits all of its writes or, when it raises, none of them.
 * Row ids of the integer-keyed tables come from per-table sequences; the new account's uuid,
 * the password hash function and the current time are inputs.
 */
module Database {
  import opened Wrappers
  import opened Models
  import opened Exceptions
  import Dto
  import CloudStorage

  /**
   * An account with the rows that reference it one-to-one (`uselist=False`): its profile,
   * back-pad and statistics. `create_user` inserts all four in one transaction and deletes
   * cascade from the account, so every account has exactly one of each.
   */
  datatype UserRecord = UserRecord(account: Account, profile: Profile, backPad: BackPad, statistic: Statistic)

  predicate UsernameTaken(users: map<AccountId, UserRecord>, username: string)
  {
    exists a :: a in users && users[a].account.username == username
  }

  predicate CityNamed(cities: map<int, City>, name: string)
  {
    exists c :: c in cities && cities[c].name == name
  }

  /** A result of `select(Cities.id).where(Cities.name == name).scalar()`. */
  predicate CityLookup(cities: map<int, City>, name: Option<string>, r: Option<int>)
  {
    match r
    case Some(c) => name.Some? && c in cities && cities[c].name == name.value
    case None => name.None? || !CityNamed(cities, name.value)
  }

  /** `row.accountId == org_id` and `row.id == avatar_id`: the row a scoped avatar delete removes. */
  predicate Owns(avatars: map<int, Avatar>, avatarId: int, orgId: AccountId)
  {
    avatarId in avatars && avatars[avatarId].accountId == orgId
  }

  /** `url` is the URL of a newest avatar of `id` (ties in `created_at` may give any of them). */
  predicate IsNewestAvatarUrl(avatars: map<int, Avatar>, id: AccountId, url: string)
  {
    exists k :: k in avatars && avatars[k].accountId == id && avatars[k].mediaUrl == url
      && forall j :: j in avatars && avatars[j].accountId == id ==> avatars[j].createdAt <= avatars[k].createdAt
  }

  /**
   * The profile columns an UpdateUsersView can reach, after "city" has become "city_id". The
   * row's other columns (id, accountId, gender, dateOfBirth) are not modelled as update targets.
   */
  const WritableColumns: set<string> := {"firstName", "lastName", "description", "city_id"}

  /** Every key is a writable profile column and carries the kind of value that column takes. */
  predicate Writable(values: map<string, ColumnValue>)
  {
    && values.Keys <= WritableColumns
    && ("firstName" in values ==> values["firstName"].Text?)
    && ("lastName" in values ==> values["lastName"].Text?)
    && ("description" in values ==> values["description"].Text?)
    && ("city_id" in values ==> values["city_id"].CityRef?)
  }

  /**
   * The update would leave the row's city_id empty (NOT NULL violation) or pointing at no city
   * (foreign key violation).
   */
  predicate CityIdRejected(values: map<string, ColumnValue>, cities: map<int, City>)
    requires Writable(values)
  {
    "city_id" in values && (values["city_id"].city.None? || values["city_id"].city.value !in cities)
  }

  /** The profile with every supplied column overwritten and every other column kept. */
  function ApplyValues(p: Profile, values: map<string, ColumnValue>): (q: Profile)
    requires Writable(values)
    requires "city_id" in values ==> values["city_id"].city.Some?
    ensures q.id == p.id && q.accountId == p.accountId
    ensures q.gender == p.gender && q.dateOfBirth == p.dateOfBirth
  {
    p.(firstName := if "firstName" in values then values["firstName"].text else p.firstName,
       lastName := if "lastName" in values then values["lastName"].text else p.lastName,
       description := if "description" in values then values["description"].text else p.description,
       cityId := if "city_id" in values then values["city_id"].city.value else p.cityId)
  }


  /** Each supplied column takes its new value; each other column keeps the old one. */
  lemma ApplyValuesWritesSupplied(p: Profile, values: map<string, ColumnValue>)
    requires Writable(values)
    requires "city_id" in values ==> values["city_id"].city.Some?
    ensures "firstName" in values ==> ApplyValues(p, values).firstName == values["firstName"].text
    ensures "firstName" !in values ==> ApplyValues(p, values).firstName == p.firstName
    ensures "lastName" in values ==> ApplyValues(p, values).lastName == values["lastName"].text
    ensures "lastName" !in values ==> ApplyValues(p, values).lastName == p.lastName
    ensures "description" in values ==> ApplyValues(p, values).description == values["description"].text
    ensures "description" !in values ==> ApplyValues(p, values).description == p.description
    ensures "city_id" in values ==> ApplyValues(p, values).cityId == values["city_id"].city.value
    ensures "city_id" !in values ==> ApplyValues(p, values).cityId == p.cityId
  {
  }

  /** An empty update leaves the row as it is, and repeating an update changes nothing more. */
  lemma ApplyValuesIdempotent(p: Profile, values: map<string, ColumnValue>)
    requires Writable(values)
    requires "city_id" in values ==> values["city_id"].city.Some?
    ensures ApplyValues(p, map[]) == p
    ensures ApplyValues(ApplyValues(p, values), values) == ApplyValues(p, values)
  {
  }

  /** The statistics row after `update_statistic(field, increase)`: only the named counter moves by one. */
  function Adjust(s: Statistic, field: string, increase: bool): (r: Statistic)
    ensures r.id == s.id && r.accountId == s.accountId
  {
    var delta := if increase then 1 else -1;
    if field == "events" then s.(totalEvents := s.totalEvents + delta)
    else if field == "friends" then s.(totalFriends := s.totalFriends + delta)
    else s
  }

  /** "events" and "friends" move their own counter by one and leave the other alone. */
  lemma AdjustMovesOneCounter(s: Statistic, increase: bool)
    ensures Adjust(s, "events", increase).totalEvents == s.totalEvents + (if increase then 1 else -1)
    ensures Adjust(s, "events", increase).totalFriends == s.totalFriends
    ensures Adjust(s, "friends", increase).totalFriends == s.totalFriends + (if increase then 1 else -1)
    ensures Adjust(s, "friends", increase).totalEvents == s.totalEvents
  {
  }

  /** An increase followed by a decrease of the same counter restores the row, and vice versa. */
  lemma AdjustRoundTrip(s: Statistic, field: string)
    ensures Adjust(Adjust(s, field, true), field, false) == s
    ensures Adjust(Adjust(s, field, false), field, true) == s
  {
  }

  /** Any other field name changes nothing. */
  lemma AdjustOtherField(s: Statistic, field: string, increase: bool)
    requires field != "events" && field != "friends"
    ensures Adjust(s, field, increase) == s
  {
  }

  /**
   * The first entry of `m` that satisfies `p`, as `.scalar()` gives it (in no particular order),
   * or None when there is none.
   */
  method FindKey<K(==), V>(m: map<K, V>, p: V -> bool) returns (r: Option<K>)
    ensures r.Some? ==> r.value in m && p(m[r.value])
    ensures r.None? ==> forall k :: k in m ==> !p(m[k])
  {
    var rest := m.Keys;
    while rest != {}
      invariant rest <= m.Keys
      invariant forall k :: k in m && k !in rest ==> !p(m[k])
      decreases rest
    {
      assert (forall k :: k !in rest) ==> rest == {};
      var k :| k in rest;
      if p(m[k]) {
        return Some(k);
      }
      rest := rest - {k};
    }
    return None;
  }

  /** A user's rows reference the account, carry ids the sequences issued, and name an existing city. */
  ghost predicate RecordOk(a: AccountId, u: UserRecord, cities: map<int, City>, np: nat, nb: nat, ns: nat)
  {
    && u.account.id == a && u.profile.accountId == a && u.backPad.accountId == a && u.statistic.accountId == a
    && u.profile.id < np && u.backPad.id < nb && u.statistic.id < ns
    && u.profile.cityId in cities
  }

  /** Every user is consistent and usernames are unique. */
  ghost predicate UsersOk(users: map<AccountId, UserRecord>, cities: map<int, City>, np: nat, nb: nat, ns: nat)
  {
    && (forall a :: a in users ==> RecordOk(a, users[a], cities, np, nb, ns))
    && (forall a, b :: a in users && b in users && users[a].account.username == users[b].account.username ==> a == b)
  }

  /** Avatars are keyed by row id, below the sequence, and each references an existing account. */
  ghost predicate AvatarsOk(avatars: map<int, Avatar>, next: nat, accounts: set<AccountId>)
  {
    forall k :: k in avatars ==> avatars[k].id == k && k < next && avatars[k].accountId in accounts
  }

  /** Every favourite category row references an existing account. */
  ghost predicate FavouritesOk(favourites: set<(AccountId, int)>, accounts: set<AccountId>)
  {
    forall f :: f in favourites ==> f.0 in accounts
  }

  /** The avatars left after the cascade from deleting account `id`. */
  function AvatarsWithout(avatars: map<int, Avatar>, id: AccountId): (r: map<int, Avatar>)
    ensures forall k :: k in r <==> k in avatars && avatars[k].accountId != id
    ensures forall k :: k in r ==> r[k] == avatars[k]
  {
    map k | k in avatars && avatars[k].accountId != id :: avatars[k]
  }

  /** The favourites left after the cascade from deleting account `id`. */
  function FavouritesWithout(favourites: set<(AccountId, int)>, id: AccountId): (r: set<(AccountId, int)>)
    ensures forall f :: f in r <==> f in favourites && f.0 != id
  {
    set f | f in favourites && f.0 != id
  }

  /** Deleting an account that owns nothing leaves its dependent tables as they are. */
  lemma {:induction false} DeleteAbsentAccount(avatars: map<int, Avatar>, favourites: set<(AccountId, int)>,
                                               accounts: set<AccountId>, na: nat, id: AccountId)
    requires id !in accounts && AvatarsOk(avatars, na, accounts) && FavouritesOk(favourites, accounts)
    ensures AvatarsWithout(avatars, id) == avatars
    ensures FavouritesWithout(favourites, id) == favourites
  {
    forall k | k in avatars
      ensures k in AvatarsWithout(avatars, id)
    {
      assert avatars[k].accountId in accounts;
    }
    assert AvatarsWithout(avatars, id).Keys == avatars.Keys;
  }

  const IntegrityUnique := PyException("IntegrityError", "duplicate key value violates unique constraint")
  const IntegrityNotNull := PyException("IntegrityError", "null value in column \"city_id\" violates not-null constraint")
  const IntegrityForeignKey := PyException("IntegrityError", "insert or update violates foreign key constraint")
  /** `"m".value`: the unvalidated gender default is a str, which has no `value` attribute. */
  const GenderAttributeError := PyException("AttributeError", "'str' object has no attribute 'value'")
  /** The database's answer to an UPDATE whose SET clause is empty. */
  const EmptySet := PyException("ProgrammingError", "syntax error at or near \"WHERE\"")

  /** `values_to_update.get("city")` as a city name. */
  function CityName(values: map<string, ColumnValue>): Option<string>
  {
    if "city" in values && values["city"].Text? then Some(values["city"].text) else None
  }

  /** The tables of the profile store. */
  class ProfileStore {
    var cities: map<int, City>
    var users: map<AccountId, UserRecord>
    var avatars: map<int, Avatar>
    var favourites: set<(AccountId, int)>
    var nextProfileId: nat
    var nextAvatarId: nat
    var nextBackPadId: nat
    var nextStatisticId: nat

    ghost predicate Valid()
      reads this
    {
      && UsersOk(users, cities, nextProfileId, nextBackPadId, nextStatisticId)
      && AvatarsOk(avatars, nextAvatarId, users.Keys)
      && FavouritesOk(favourites, users.Keys)
    }

    /** `create_tables`: empty account tables beside the (already seeded) geography. */
    constructor (cities: map<int, City>)
      ensures Valid()
      ensures this.cities == cities && users == map[] && avatars == map[] && favourites == {}
    {
      this.cities := cities;
      users, avatars, favourites := map[], map[], {};
      nextProfileId, nextAvatarId, nextBackPadId, nextStatisticId := 1, 1, 1, 1;
    }

    /**
     * `create_user`: looks the city up by name and inserts the account with its profile, default
     * avatar, default back-pad and zeroed statistics; returns the id and the default avatar URL.
     * A taken username or id violates a unique constraint when the account is flushed. Then
     * `body.gender.value` fails with AttributeError when the gender is the unvalidated default
     * str. Last, a city name that matches no city leaves the NOT NULL city_id empty at commit:
     * IntegrityError. On any error nothing is written.
     */
    method CreateUser(body: Dto.UserCreateModel, newId: AccountId, hasher: string -> string,
                      now: Instant, cfg: CloudStorage.MediaConfig)
      returns (r: Result<(AccountId, string), PyException>)
      requires Valid()
      modifies this
      ensures Valid()
      ensures r.Err? <==> newId in old(users) || UsernameTaken(old(users), body.username)
                          || body.gender.RawDefault? || !CityNamed(cities, body.city)
      ensures r.Err? ==> unchanged(this)
      ensures r.Err? ==> r.error == if newId in old(users) || UsernameTaken(old(users), body.username) then IntegrityUnique
                                    else if body.gender.RawDefault? then GenderAttributeError
                                    else IntegrityNotNull
      ensures r.Ok? ==> r.value == (newId, CloudStorage.DefaultAvatar(cfg))
      ensures r.Ok? ==> newId in users && users == old(users)[newId := users[newId]]
      ensures r.Ok? ==> var u := users[newId];
        && u.account == NewAccount(newId, body.username, hasher(body.password), body.email, now)
        && u.profile == Profile(old(nextProfileId), newId, body.firstName, body.lastName, body.description,
                                body.gender.gender, body.dateOfBirth, u.profile.cityId)
        && u.profile.cityId in cities && cities[u.profile.cityId].name == body.city
        && u.backPad == BackPad(old(nextBackPadId), newId, CloudStorage.DefaultBackPad(cfg), now)
        && u.statistic == Statistic(old(nextStatisticId), newId, 0, 0)
      ensures r.Ok? ==> avatars == old(avatars)[old(nextAvatarId) := Avatar(old(nextAvatarId), newId, CloudStorage.DefaultAvatar(cfg), now)]
      ensures r.Ok? ==> nextProfileId == old(nextProfileId) + 1 && nextAvatarId == old(nextAvatarId) + 1
                        && nextBackPadId == old(nextBackPadId) + 1 && nextStatisticId == old(nextStatisticId) + 1
      ensures cities == old(cities) && favourites == old(favourites)
    {
      var city := FindKey(cities, (c: City) => c.name == body.city);
      var taken := FindKey(users, (u: UserRecord) => u.account.username == body.username);
      if newId in users || taken.Some? {
        return Err(IntegrityUnique);
      }
      if body.gender.RawDefault? {
        return Err(GenderAttributeError);
      }
      if city.None? {
        return Err(IntegrityNotNull);
      }
      var record := UserRecord(
        NewAccount(newId, body.username, hasher(body.password), body.email, now),
        Profile(nextProfileId, newId, body.firstName, body.lastName, body.description,
                body.gender.gender, body.dateOfBirth, city.value),
        BackPad(nextBackPadId, newId, CloudStorage.DefaultBackPad(cfg), now),
        Statistic(nextStatisticId, newId, 0, 0));
      InsertUser(record, Avatar(nextAvatarId, newId, CloudStorage.DefaultAvatar(cfg), now));
      return Ok((newId, CloudStorage.DefaultAvatar(cfg)));
    }

    /** The inserts of `create_user` once its checks have passed: the user's rows and one avatar. */
    method InsertUser(record: UserRecord, avatar: Avatar)
      requires Valid()
      requires record.account.id !in users && !UsernameTaken(users, record.account.username)
      requires RecordOk(record.account.id, record, cities, nextProfileId + 1, nextBackPadId + 1, nextStatisticId + 1)
      requires avatar.id == nextAvatarId && avatar.accountId == record.account.id
      modifies this
      ensures Valid()
      ensures users == old(users)[record.account.id := record] && avatars == old(avatars)[avatar.id := avatar]
      ensures nextProfileId == old(nextProfileId) + 1 && nextAvatarId == old(nextAvatarId) + 1
      ensures nextBackPadId == old(nextBackPadId) + 1 && nextStatisticId == old(nextStatisticId) + 1
      ensures cities == old(cities) && favourites == old(favourites)
    {
      users := users[record.account.id := record];
      avatars := avatars[avatar.id := avatar];
      nextProfileId, nextAvatarId := nextProfileId + 1, nextAvatarId + 1;
      nextBackPadId, nextStatisticId := nextBackPadId + 1, nextStatisticId + 1;
    }

    /**
     * The city-name lookup of `create_user` and `update_user_profile`: some city with that name,
     * or None when no city has it.
     */
    method FindCity(name: string) returns (r: Option<int>)
      ensures CityLookup(cities, Some(name), r)
    {
      r := FindKey(cities, (c: City) => c.name == name);
    }

    /** `check_username`: true exactly when no account has the username. */
    method CheckUsername(username: string) returns (available: bool)
      ensures available <==> !UsernameTaken(users, username)
    {
      var found := FindKey(users, (u: UserRecord) => u.account.username == username);
      available := found.None?;
    }

    /** A key among `keys` whose avatar is at least as new as every other. */
    method PickNewest(keys: set<int>) returns (k: int)
      requires keys != {} && keys <= avatars.Keys
      ensures k in keys
      ensures forall j :: j in keys ==> avatars[j].createdAt <= avatars[k].createdAt
    {
      assert (forall j :: j !in keys) ==> keys == {};
      k :| k in keys;
      var rest := keys - {k};
      while rest != {}
        invariant rest <= keys && k in keys
        invariant forall j :: j in keys && j !in rest ==> avatars[j].createdAt <= avatars[k].createdAt
        decreases rest
      {
        assert (forall j :: j !in rest) ==> rest == {};
        var j :| j in rest;
        if avatars[k].createdAt < avatars[j].createdAt {
          k := j;
        }
        rest := rest - {j};
      }
    }

    /** The avatars of account `id`, newest first (the `usersAvatars` relationship order). */
    method AvatarsOf(id: AccountId) returns (s: seq<Avatar>)
      requires AvatarsOk(avatars, nextAvatarId, users.Keys)
      ensures NewestFirst(s)
      ensures forall i :: 0 <= i < |s| ==> s[i].id in avatars && avatars[s[i].id] == s[i] && s[i].accountId == id
      ensures forall k :: k in avatars && avatars[k].accountId == id ==> avatars[k] in s
      ensures forall i, j :: 0 <= i < j < |s| ==> s[i].id != s[j].id
    {
      var rest := set k | k in avatars && avatars[k].accountId == id;
      s := [];
      while rest != {}
        invariant forall k :: k in rest ==> k in avatars && avatars[k].accountId == id
        invariant forall i :: 0 <= i < |s| ==> s[i].id in avatars && avatars[s[i].id] == s[i] && s[i].accountId == id && s[i].id !in rest
        invariant forall k :: k in avatars && avatars[k].accountId == id && k !in rest ==> avatars[k] in s
        invariant forall i, j :: 0 <= i < j < |s| ==> s[i].id != s[j].id
        invariant NewestFirst(s)
        invariant forall i, k :: 0 <= i < |s| && k in rest ==> avatars[k].createdAt <= s[i].createdAt
        decreases rest
      {
        var k := PickNewest(rest);
        s := s + [avatars[k]];
        rest := rest - {k};
      }
    }

    /**
     * `get_user_by_id`: the account with its relationships, avatars newest first. A missing id
     * leaves the result list empty and `user[0]` raises IndexError.
     */
    method GetUserById(id: AccountId) returns (r: Result<AccountAggregate, PyException>)
      requires Valid()
      ensures r.Err? <==> id !in users
      ensures r.Err? ==> r.error == PyException("IndexError", "list index out of range")
      ensures r.Ok? ==> var u := users[id];
        && r.value.account == u.account && r.value.profile == Some(u.profile)
        && r.value.backPad == Some(u.backPad) && r.value.statistic == Some(u.statistic)
      ensures r.Ok? ==> NewestFirst(r.value.avatars)
      ensures r.Ok? ==> forall i :: 0 <= i < |r.value.avatars| ==>
                          var a := r.value.avatars[i]; a.id in avatars && avatars[a.id] == a && a.accountId == id
      ensures r.Ok? ==> forall k :: k in avatars && avatars[k].accountId == id ==> avatars[k] in r.value.avatars
      ensures r.Ok? ==> forall i, j :: 0 <= i < j < |r.value.avatars| ==> r.value.avatars[i].id != r.value.avatars[j].id
      ensures r.Ok? ==> r.value.categories == set f | f in favourites && f.0 == id :: f.1
    {
      if id !in users {
        return Err(PyException("IndexError", "list index out of range"));
      }
      var list := AvatarsOf(id);
      var u := users[id];
      var categories := set f | f in favourites && f.0 == id :: f.1;
      return Ok(AccountAggregate(u.account, Some(u.profile), list, Some(u.backPad), Some(u.statistic), categories));
    }

    /**
     * `update_user_profile`: when `flag` is set, the dict's "city" is looked up, written back as
     * "city_id" and deleted (KeyError if it was absent); then the profile row of `id`, if there
     * is one, gets the resulting values. `written` is the dict as the call leaves it. A key that
     * is not one of the columns an update can reach (such as "username") fails to compile; an
     * empty dict gives an UPDATE without a SET column, which the database rejects; a city_id
     * that is empty or names no city violates a constraint when the row exists. On any error
     * nothing is written.
     */
    method UpdateUserProfile(id: AccountId, valuesToUpdate: map<string, ColumnValue>, flag: bool)
      returns (r: Result<(), PyException>, written: map<string, ColumnValue>)
      requires Valid()
      modifies this
      ensures Valid()
      ensures !flag ==> written == valuesToUpdate
      ensures flag ==> "city_id" in written && written["city_id"].CityRef?
                       && CityLookup(cities, CityName(valuesToUpdate), written["city_id"].city)
      ensures flag && "city" in valuesToUpdate ==>
                written == (valuesToUpdate - {"city"})["city_id" := written["city_id"]]
      ensures flag && "city" !in valuesToUpdate ==>
                written == valuesToUpdate["city_id" := CityRef(None)]
                && r == Err(PyException("KeyError", "'city'"))
      ensures r.Ok? <==> !(flag && "city" !in valuesToUpdate) && Writable(written) && written != map[]
                         && !(id in old(users) && CityIdRejected(written, cities))
      ensures Writable(written) && written == map[] ==> r == Err(EmptySet)
      ensures r.Ok? && id in old(users) ==>
                users == old(users)[id := old(users)[id].(profile := ApplyValues(old(users)[id].profile, written))]
      ensures r.Err? || id !in old(users) ==> users == old(users)
      ensures r.Err? ==> r.error.className in {"KeyError", "CompileError", "ProgrammingError", "IntegrityError"}
      ensures cities == old(cities) && avatars == old(avatars) && favourites == old(favourites)
      ensures nextProfileId == old(nextProfileId) && nextAvatarId == old(nextAvatarId)
      ensures nextBackPadId == old(nextBackPadId) && nextStatisticId == old(nextStatisticId)
    {
      written := valuesToUpdate;
      if flag {
        var city: Option<int> := None;
        var name := CityName(written);
        if name.Some? {
          city := FindCity(name.value);
        }
        written := written["city_id" := CityRef(city)];
        if "city" !in written {
          return Err(PyException("KeyError", "'city'")), written;
        }
        written := written - {"city"};
      }
      if !Writable(written) {
        return Err(PyException("CompileError", "Unconsumed column names")), written;
      }
      if written == map[] {
        return Err(EmptySet), written;
      }
      if id in users && CityIdRejected(written, cities) {
        return Err(if written["city_id"].city.None? then IntegrityNotNull else IntegrityForeignKey), written;
      }
      if id in users {
        users := users[id := users[id].(profile := ApplyValues(users[id].profile, written))];
      }
      return Ok(()), written;
    }

    /**
     * `delete_user` (and `drop_user`, which has the same body): the account goes and, by the
     * ON DELETE CASCADE foreign keys, every row that references it. An absent id changes nothing.
     */
    method DeleteUser(id: AccountId)
      requires Valid()
      modifies this
      ensures Valid()
      ensures users == old(users) - {id}
      ensures avatars == AvatarsWithout(old(avatars), id)
      ensures favourites == FavouritesWithout(old(favourites), id)
      ensures cities == old(cities)
      ensures nextProfileId == old(nextProfileId) && nextAvatarId == old(nextAvatarId)
      ensures nextBackPadId == old(nextBackPadId) && nextStatisticId == old(nextStatisticId)
      ensures id !in old(users) ==> unchanged(this)
    {
      if id !in users {
        DeleteAbsentAccount(avatars, favourites, users.Keys, nextAvatarId, id);
        assert users - {id} == users;
      }
      users := users - {id};
      avatars := AvatarsWithout(avatars, id);
      favourites := FavouritesWithout(favourites, id);
    }

    /** `drop_user`: the same cascading delete as `delete_user`. */
    method DropUser(id: AccountId)
      requires Valid()
      modifies this
      ensures Valid()
      ensures users == old(users) - {id}
      ensures avatars == AvatarsWithout(old(avatars), id)
      ensures favourites == FavouritesWithout(old(favourites), id)
      ensures cities == old(cities)
      ensures id !in old(users) ==> unchanged(this)
    {
      DeleteUser(id);
    }

    /**
     * `add_new_avatar`: appends one avatar row with URL AVATARS_LINK + "/" + file name and
     * returns that URL; an account that does not exist violates the foreign key.
     */
    method AddNewAvatar(fileName: string, id: AccountId, now: Instant, cfg: CloudStorage.MediaConfig)
      returns (r: Result<string, PyException>)
      requires Valid()
      modifies this
      ensures Valid()
      ensures r.Err? <==> id !in users
      ensures r.Err? ==> r.error == IntegrityForeignKey && unchanged(this)
      ensures r.Ok? ==> r.value == CloudStorage.AvatarUrl(cfg, fileName)
      ensures r.Ok? ==> avatars == old(avatars)[old(nextAvatarId) := Avatar(old(nextAvatarId), id, r.value, now)]
                        && nextAvatarId == old(nextAvatarId) + 1
      ensures cities == old(cities) && users == old(users) && favourites == old(favourites)
      ensures nextProfileId == old(nextProfileId) && nextBackPadId == old(nextBackPadId)
      ensures nextStatisticId == old(nextStatisticId)
    {
      var mediaUrl := CloudStorage.MediaPrefix(cfg, fileName, true, false).value;
      if id !in users {
        return Err(IntegrityForeignKey);
      }
      avatars := avatars[nextAvatarId := Avatar(nextAvatarId, id, mediaUrl, now)];
      nextAvatarId := nextAvatarId + 1;
      return Ok(mediaUrl);
    }

    /**
     * `delete_avatar`: deletes the avatar with this id only if `org_id` owns it, then reads the
     * account's newest remaining avatar URL (None if there is none) and asks the storage to
     * delete the removed avatar's object. When nothing was deleted the link is None and
     * `None.replace` raises AttributeError, which the `except IndexError` does not catch.
     */
    method DeleteAvatar(avatarId: int, orgId: AccountId, storage: CloudStorage.MediaStorage, clientFails: bool)
      returns (r: Result<Option<string>, PyException>)
      requires Valid()
      modifies this, storage
      ensures Valid()
      ensures avatars == if Owns(old(avatars), avatarId, orgId) then old(avatars) - {avatarId} else old(avatars)
      ensures r.Err? <==> !Owns(old(avatars), avatarId, orgId)
      ensures r.Err? ==> r.error.className == "AttributeError" && storage.objects == old(storage.objects)
      ensures r.Ok? ==> (storage.objects ==
        if clientFails then old(storage.objects)
        else old(storage.objects) - CloudStorage.AsSet(CloudStorage.AvatarDeletion(storage.config, old(avatars)[avatarId].mediaUrl)))
      ensures r.Ok? ==> (r.value.None? <==> forall k :: k in avatars ==> avatars[k].accountId != orgId)
      ensures r.Ok? && r.value.Some? ==> IsNewestAvatarUrl(avatars, orgId, r.value.value)
      ensures cities == old(cities) && users == old(users) && favourites == old(favourites)
      ensures nextProfileId == old(nextProfileId) && nextAvatarId == old(nextAvatarId)
      ensures nextBackPadId == old(nextBackPadId) && nextStatisticId == old(nextStatisticId)
    {
      var link: Option<string> := None;
      if Owns(avatars, avatarId, orgId) {
        link := Some(avatars[avatarId].mediaUrl);
        avatars := avatars - {avatarId};
      }
      var remaining := AvatarsOf(orgId);
      var newLink: Option<string> := None;
      if |remaining| > 0 {
        newLink := Some(remaining[0].mediaUrl);
        forall j | j in avatars && avatars[j].accountId == orgId
          ensures avatars[j].createdAt <= avatars[remaining[0].id].createdAt
        {
          var i :| 0 <= i < |remaining| && remaining[i] == avatars[j];
          assert i == 0 || remaining[i].createdAt <= remaining[0].createdAt;
        }
      }
      var raised := storage.DeleteAvatar(link, clientFails);
      if raised.Some? {
        return Err(raised.value);
      }
      return Ok(newLink);
    }

    /**
     * `update_back_pad`: reads the account's back-pad URL, asks the storage to delete that
     * object, then points the row at BACK_PADS_LINK + "/" + file name and returns that URL. With
     * no back-pad row the link is None and `None.replace` raises AttributeError.
     */
    method UpdateBackPad(fileName: string, id: AccountId, storage: CloudStorage.MediaStorage, clientFails: bool)
      returns (r: Result<string, PyException>)
      requires Valid()
      modifies this, storage
      ensures Valid()
      ensures r.Err? <==> id !in users
      ensures r.Err? ==> r.error.className == "AttributeError" && unchanged(this) && storage.objects == old(storage.objects)
      ensures r.Ok? ==> r.value == CloudStorage.BackPadUrl(storage.config, fileName)
      ensures r.Ok? ==> id in old(users)
      ensures r.Ok? ==> users == old(users)[id := old(users)[id].(backPad := old(users)[id].backPad.(mediaUrl := r.value))]
      ensures r.Ok? ==> (storage.objects == if clientFails then old(storage.objects)
             else old(storage.objects) - CloudStorage.AsSet(CloudStorage.BackPadDeletion(storage.config, old(users)[id].backPad.mediaUrl)))
      ensures cities == old(cities) && avatars == old(avatars) && favourites == old(favourites)
      ensures nextProfileId == old(nextProfileId) && nextAvatarId == old(nextAvatarId)
      ensures nextBackPadId == old(nextBackPadId) && nextStatisticId == old(nextStatisticId)
    {
      var oldLink := if id in users then Some(users[id].backPad.mediaUrl) else None;
      var raised := storage.DeleteBackPad(oldLink, clientFails);
      if raised.Some? {
        return Err(raised.value);
      }
      var mediaUrl := CloudStorage.MediaPrefix(storage.config, fileName, false, true).value;
      users := users[id := users[id].(backPad := users[id].backPad.(mediaUrl := mediaUrl))];
      return Ok(mediaUrl);
    }

    /**
     * `update_statistic`: for "events" or "friends", reads the account's counter and writes it
     * back plus or minus one. With no statistics row the read gives None and the arithmetic
     * raises TypeError. Any other field name changes nothing.
     */
    method UpdateStatistic(userId: AccountId, field: string, increase: bool)
      returns (r: Result<(), PyException>)
      requires Valid()
      modifies this
      ensures Valid()
      ensures field != "events" && field != "friends" ==> r.Ok? && unchanged(this)
      ensures (field == "events" || field == "friends") ==> (r.Err? <==> userId !in users)
      ensures r.Err? ==> r.error.className == "TypeError" && unchanged(this)
      ensures r.Ok? && (field == "events" || field == "friends") ==> userId in old(users)
      ensures r.Ok? && (field == "events" || field == "friends") ==>
                users == old(users)[userId := old(users)[userId].(statistic := Adjust(old(users)[userId].statistic, field, increase))]
      ensures cities == old(cities) && avatars == old(avatars) && favourites == old(favourites)
      ensures nextProfileId == old(nextProfileId) && nextAvatarId == old(nextAvatarId)
      ensures nextBackPadId == old(nextBackPadId) && nextStatisticId == old(nextStatisticId)
    {
      if field != "events" && field != "friends" {
        return Ok(());
      }
      if userId !in users {
        var op := if increase then "+" else "-";
        return Err(PyException("TypeError", "unsupported operand type(s) for " + op + ": 'NoneType' and 'int'"));
      }
      users := users[userId := users[userId].(statistic := Adjust(users[userId].statistic, field, increase))];
      return Ok(());
    }
  }
}
