/**
 * The profile endpoints as compositions of store and storage calls. A handler returns what the
 * client receives (a response, or the HTTPException raised) and the background tasks it added,
 * in order; `RunTask` is what running one of those tasks after the response does. The random
 * numbers, the request ids, the clock and the authenticated principal are inputs.
 */
module Routers {
  import opened Wrappers
  import opened Exceptions
  import opened Models
  import opened Strings
  import Decorators
  import CrossSec
  import Dto
  import CloudStorage
  import Database

  /** A JSON value in a response body. */
  datatype JsonValue = JInt(n: int) | JBool(b: bool) | JStr(s: string)

  /** What a route sends back. */
  datatype Response =
    | Json(statusCode: int, content: map<string, JsonValue>)  // a JSONResponse
    | View(view: Dto.UserView)                                // a UserView, status 200
    | Null(statusCode: int)                                   // the handler returned None: body `null`

  /** A message as handed to the broker: routing key and payload. */
  datatype Message = Message(routingKey: string, payload: Dto.Payload)

  /** A background task added with `bg_tasks.add_task`. */
  datatype Task =
    | Publish(payload: Dto.Payload, queue: Option<string>)                // publish_message(data[, queue])
    | SignUpFanout(emailData: Dto.EmailSenderData, tokenData: Dto.FirebaseToken,
                   userId: AccountId, user: Dto.UserCreateModel)          // create_user's gathered tasks
    | DeleteProcess(avatarId: int, orgId: AccountId)                      // delete_avatar's delete_process

  /**
   * `getattr(Exchanges, queue).value`: the Exchanges members are notification =
   * "notification-service" and email = "smtp-service". Leaving the queue argument out is a
   * TypeError; a name that is no member is an AttributeError.
   */
  function RoutingKey(queue: Option<string>): (r: Result<string, PyException>)
    ensures r.Ok? <==> queue == Some("notification") || queue == Some("email")
    ensures queue == Some("notification") ==> r == Ok("notification-service")
    ensures queue == Some("email") ==> r == Ok("smtp-service")
    ensures queue.None? ==> r.Err? && r.error.className == "TypeError"
  {
    match queue
    case None => Err(PyException("TypeError", "publish_message() missing 1 required positional argument: 'queue'"))
    case Some(q) =>
      if q == "notification" then Ok("notification-service")
      else if q == "email" then Ok("smtp-service")
      else Err(PyException("AttributeError", q))
  }

  /** The two exchanges are distinct: a routing key determines the queue it came from. */
  lemma RoutingKeyInjective(a: Option<string>, b: Option<string>)
    requires RoutingKey(a).Ok? && RoutingKey(a) == RoutingKey(b)
    ensures a == b
  {
  }

  /** `publish_message(data, queue)`: the message it sends, or what it raises before sending. */
  function Publication(payload: Dto.Payload, queue: Option<string>): (r: Result<Message, PyException>)
    ensures r.Ok? <==> RoutingKey(queue).Ok?
    ensures r.Ok? ==> r.value == Message(RoutingKey(queue).value, payload)
    ensures r.Err? ==> r.error == RoutingKey(queue).error
  {
    match RoutingKey(queue)
    case Ok(key) => Ok(Message(key, payload))
    case Err(e) => Err(e)
  }

  /** `flag` of `update_user_profile`: set exactly when the request's city is truthy (a non-empty string). */
  function CityFlag(update: Dto.UpdateUsersView): bool
  {
    update.city.Some? && update.city.value != ""
  }

  /**
   * A verification code drawn from [10000, 100000] (both ends included) has five digits, except
   * for the upper end, which has six.
   */
  lemma VerificationCodeDigits(code: nat)
    requires 10000 <= code <= 100000
    ensures |NatToDecimal(code)| == if code == 100000 then 6 else 5
  {
    var d := code / 10 / 10 / 10 / 10;
    assert |NatToDecimal(d)| == if code == 100000 then 2 else 1;
  }

  /** The avatar file name `{id}-avatar-{n}.png`. */
  function AvatarFileName(id: AccountId, n: nat): string
  {
    id + "-avatar-" + NatToDecimal(n) + ".png"
  }

  /** The back-pad file name `{id}-back_pad.png`: one fixed key per user. */
  function BackPadFileName(id: AccountId): string
  {
    id + "-back_pad.png"
  }

  predicate NoSlash(s: string)
  {
    forall i :: 0 <= i < |s| ==> s[i] != '/'
  }

  /** Avatar file names of one user differ exactly when the random numbers differ. */
  lemma AvatarFileNameInjective(id: AccountId, m: nat, n: nat)
    ensures AvatarFileName(id, m) == AvatarFileName(id, n) <==> m == n
  {
    if AvatarFileName(id, m) == AvatarFileName(id, n) {
      var a, b := AvatarFileName(id, m), AvatarFileName(id, n);
      var lo := |id + "-avatar-"|;
      assert a[lo..|a| - 4] == NatToDecimal(m);
      assert b[lo..|b| - 4] == NatToDecimal(n);
      DecimalInjective(m, n);
    }
  }

  /** The character just before ".png" in an avatar file name is a digit. */
  lemma AvatarFileNameDigit(id: AccountId, n: nat)
    ensures var f := AvatarFileName(id, n); |f| >= 5 && '0' <= f[|f| - 5] <= '9'
  {
    var d := NatToDecimal(n);
    var f := AvatarFileName(id, n);
    assert f == (id + "-avatar-" + d) + ".png";
    assert f[|f| - 5] == d[|d| - 1];
  }

  /**
   * An avatar uploaded by `add_users_avatars` is found again from its link: deleting the URL
   * removes exactly the uploaded object (for an id without "/", as a uuid's text is).
   */
  lemma AvatarLinkRoundTrip(cfg: CloudStorage.MediaConfig, id: AccountId, n: nat)
    requires NoSlash(id)
    ensures CloudStorage.AvatarDeletion(cfg, CloudStorage.AvatarUrl(cfg, AvatarFileName(id, n)))
         == Some(CloudStorage.StoredObject(cfg.avatarsBucket, AvatarFileName(id, n)))
  {
    var f := AvatarFileName(id, n);
    var d := NatToDecimal(n);
    assert f == id + ("-avatar-" + d + ".png");
    assert NoSlash(f) by {
      forall i | 0 <= i < |f|
        ensures f[i] != '/'
      {
        if i < |id| {
          assert f[i] == id[i];
        } else if |id| + 8 <= i < |id| + 8 + |d| {
          assert f[i] == d[i - |id| - 8];
        }
      }
    }
    CloudStorage.SlashPrefixAbsent(f, cfg.avatarsLink);
    AvatarFileNameDigit(id, n);
    assert f != CloudStorage.DefaultAvatarName by {
      if |f| == |CloudStorage.DefaultAvatarName| {
        assert f[18] != CloudStorage.DefaultAvatarName[18];
      }
    }
    CloudStorage.DeletionRoundTrip(cfg, f);
  }

  /** A user's back-pad link is found again from its URL and is never the default placeholder. */
  lemma BackPadLinkRoundTrip(cfg: CloudStorage.MediaConfig, id: AccountId)
    requires NoSlash(id)
    ensures CloudStorage.BackPadDeletion(cfg, CloudStorage.BackPadUrl(cfg, BackPadFileName(id)))
         == Some(CloudStorage.StoredObject(cfg.backPadsBucket, BackPadFileName(id)))
  {
    var f := BackPadFileName(id);
    assert NoSlash(f) by {
      forall i | 0 <= i < |f|
        ensures f[i] != '/'
      {
        if i < |id| {
          assert f[i] == id[i];
        }
      }
    }
    CloudStorage.SlashPrefixAbsent(f, cfg.backPadsLink);
    assert f != CloudStorage.DefaultBackPadName by {
      if |f| == |CloudStorage.DefaultBackPadName| {
        assert f[|f| - 8] == '_' != CloudStorage.DefaultBackPadName[17];
      }
    }
    CloudStorage.DeletionRoundTrip(cfg, f);
  }

  /** The back-pads bucket after `add_users_back_pad` as written: upload the new object, then delete the old link's. */
  function BackPadObjectsAsWritten(cfg: CloudStorage.MediaConfig, objects: set<CloudStorage.StoredObject>,
                                   oldLink: string, fileName: string): set<CloudStorage.StoredObject>
  {
    (objects + {CloudStorage.StoredObject(cfg.backPadsBucket, fileName)})
      - CloudStorage.AsSet(CloudStorage.BackPadDeletion(cfg, oldLink))
  }

  /** The back-pads bucket when the old link's object is deleted first and the new one uploaded after. */
  function BackPadObjectsCorrected(cfg: CloudStorage.MediaConfig, objects: set<CloudStorage.StoredObject>,
                                   oldLink: string, fileName: string): set<CloudStorage.StoredObject>
  {
    (objects - CloudStorage.AsSet(CloudStorage.BackPadDeletion(cfg, oldLink)))
      + {CloudStorage.StoredObject(cfg.backPadsBucket, fileName)}
  }

  /**
   * As written, once a user's back-pad has been replaced its link is their fixed key's URL, so
   * the next replacement uploads under that key and then deletes it: the new back-pad is gone.
   */
  lemma SecondBackPadReplacementDeletesUpload(cfg: CloudStorage.MediaConfig,
                                              objects: set<CloudStorage.StoredObject>, id: AccountId)
    requires NoSlash(id)
    ensures var f := BackPadFileName(id);
      CloudStorage.StoredObject(cfg.backPadsBucket, f)
        !in BackPadObjectsAsWritten(cfg, objects, CloudStorage.BackPadUrl(cfg, f), f)
  {
    BackPadLinkRoundTrip(cfg, id);
  }

  /**
   * Deleting first, the new back-pad is always stored, the old link's object is gone unless it
   * is the new one, and every other object stays.
   */
  lemma CorrectedBackPadKeepsUpload(cfg: CloudStorage.MediaConfig, objects: set<CloudStorage.StoredObject>,
                                    oldLink: string, fileName: string)
    ensures var after := BackPadObjectsCorrected(cfg, objects, oldLink, fileName);
      var uploaded := CloudStorage.StoredObject(cfg.backPadsBucket, fileName);
      && uploaded in after
      && (forall o :: o in after <==> o == uploaded || (o in objects && Some(o) != CloudStorage.BackPadDeletion(cfg, oldLink)))
  {
  }

  /** The error body of `router_decorator` for a non-HTTP exception. */
  function Failed<T>(e: PyException, requestId: string): (r: Outcome<T>)
    ensures r == Raising(Http(Decorators.Wrapped(e, requestId)))
  {
    Decorators.RouterDecorator(Raising(Error(e)), requestId)
  }

  /** Every exception the store raises has a class name outside STATUS_MAP, so it reaches the client as 500. */
  lemma StoreErrorsAre500()
    ensures forall name :: name in {"IntegrityError", "IndexError", "KeyError", "CompileError",
                                    "ProgrammingError", "AttributeError", "TypeError", "ValidationError"}
                           ==> Decorators.StatusFor(name) == 500
  {
  }

  /** `check_available_username`: 200 with whether no account has the username. */
  method CheckAvailableUsername(store: Database.ProfileStore, username: string, requestId: string)
    returns (out: Outcome<Response>)
    ensures out == Returned(Json(200, map["statusCode" := JInt(200),
                                          "isAvailable" := JBool(!Database.UsernameTaken(store.users, username))]))
  {
    var available := store.CheckUsername(username);
    out := Decorators.RouterDecorator(Returned(Json(200, map["statusCode" := JInt(200), "isAvailable" := JBool(available)])),
                                      requestId);
  }

  /**
   * `create_user`: inserts the user, then schedules the sign-up fan-out (verification e-mail,
   * firebase token with the default avatar URL, community registration) and answers 201 with the
   * verification code. A database error is raised as 500 and schedules nothing; so is the
   * AttributeError of a body that leaves gender out.
   */
  method CreateUser(store: Database.ProfileStore, storage: CloudStorage.MediaStorage, body: Dto.UserCreateModel,
                    newId: AccountId, hasher: string -> string, now: Instant, code: nat, requestId: string)
    returns (out: Outcome<Response>, tasks: seq<Task>)
    requires store.Valid()
    requires 10000 <= code <= 100000
    modifies store
    ensures store.Valid()
    ensures out.Raising? <==> newId in old(store.users) || Database.UsernameTaken(old(store.users), body.username)
                              || body.gender.RawDefault? || !Database.CityNamed(store.cities, body.city)
    ensures out.Raising? ==> out.raised.Http? && out.raised.http.statusCode == 500
                             && tasks == [] && unchanged(store)
    ensures out.Returned? ==> newId in store.users && store.users == old(store.users)[newId := store.users[newId]]
                              && store.users[newId].account.username == body.username
    ensures out.Returned? ==> out.value == Json(201, map["statusCode" := JInt(201), "status" := JStr("created"),
                                                         "id" := JStr(newId), "confirmCode" := JInt(code),
                                                         "dropLink" := JStr(" ")])
    ensures out.Returned? ==> |tasks| == 1 && tasks[0].SignUpFanout?
    ensures out.Returned? ==> tasks[0] == SignUpFanout(
              Dto.EmailSenderData(body.email, "verification", None, NatToDecimal(code)),
              Dto.FirebaseToken("token", body.firebaseToken, body.username, newId,
                                Some(CloudStorage.DefaultAvatar(storage.config))),
              newId, body)
    ensures out.Returned? ==> DecimalValue(tasks[0].emailData.verificationCode) == code
  {
    var r := store.CreateUser(body, newId, hasher, now, storage.config);
    if r.Err? {
      StoreErrorsAre500();
      return Failed(r.error, requestId), [];
    }
    var (userId, link) := r.value;
    var emailData := Dto.EmailSenderData(body.email, "verification", None, NatToDecimal(code));
    var tokenData := Dto.FirebaseToken("token", body.firebaseToken, body.username, userId, Some(link));
    tasks := [SignUpFanout(emailData, tokenData, userId, body)];
    DecimalRoundTrip(code);
    out := Returned(Json(201, map["statusCode" := JInt(201), "status" := JStr("created"), "id" := JStr(userId),
                                  "confirmCode" := JInt(code), "dropLink" := JStr(" ")]));
  }

  /**
   * `get_user_profile` (and the service route `user_profile`): the account as a UserView. A
   * missing account raises IndexError in the store, which reaches the client as 500.
   */
  method GetUserProfile(store: Database.ProfileStore, userId: AccountId, today: Date, requestId: string)
    returns (out: Outcome<Dto.UserView>)
    requires store.Valid()
    ensures out.Raising? <==> userId !in store.users
    ensures out.Raising? ==> out == Raising(Http(HttpException(500,
              RequestError(500, "list index out of range", requestId))))
    ensures out.Returned? ==> var u := store.users[userId];
      && out.value.id == userId && out.value.username == u.account.username
      && out.value.profile.firstName == u.profile.firstName && out.value.profile.lastName == u.profile.lastName
      && out.value.profile.city.name == store.cities[u.profile.cityId].name
      && out.value.profile.age == Age(Some(u.profile.dateOfBirth), today).value
      && out.value.profile.description == u.profile.description
      && out.value.usersBackPad == Dto.MediaView(u.backPad.id, u.backPad.mediaUrl, u.backPad.createdAt)
      && out.value.accountStatistic == Dto.StatisticView(u.statistic.totalEvents, u.statistic.totalFriends)
    ensures out.Returned? ==> var v := out.value.usersAvatars;
      && (forall i :: 0 <= i < |v| ==>
            && v[i].id in store.avatars && store.avatars[v[i].id].accountId == userId
            && v[i] == Dto.MediaView(v[i].id, store.avatars[v[i].id].mediaUrl, store.avatars[v[i].id].createdAt))
      && (forall k :: k in store.avatars && store.avatars[k].accountId == userId ==>
            Dto.MediaView(store.avatars[k].id, store.avatars[k].mediaUrl, store.avatars[k].createdAt) in v)
      && (forall i, j :: 0 <= i < j < |v| ==> v[j].createdAt <= v[i].createdAt && v[i].id != v[j].id)
  {
    var r := store.GetUserById(userId);
    if r.Err? {
      StoreErrorsAre500();
      return Failed(r.error, requestId);
    }
    assert Database.RecordOk(userId, store.users[userId], store.cities,
                             store.nextProfileId, store.nextBackPadId, store.nextStatisticId);
    var view := Dto.ToUserView(r.value, store.cities, today);
    out := Decorators.RouterDecorator(Returned(view.value), requestId);
  }

  /**
   * `update_user_profile`: the non-None fields of the request, with the city flag, go to the
   * store's partial update of the caller's profile; 201 "updated". "username" is no profile
   * column and an empty city is dumped but not flagged, so either makes the update fail; a body
   * with no field set gives an UPDATE without a SET column; a city name that matches no city
   * leaves the NOT NULL city_id empty. Every failure is a 500 and writes nothing.
   */
  method UpdateUserProfile(store: Database.ProfileStore, userId: AccountId, update: Dto.UpdateUsersView,
                           requestId: string)
    returns (out: Outcome<Response>)
    requires store.Valid()
    modifies store
    ensures store.Valid()
    ensures out.Returned? <==> update.username.None? && update.city != Some("")
                               && (update.firstName.Some? || update.lastName.Some?
                                   || update.city.Some? || update.description.Some?)
                               && !(userId in old(store.users) && update.city.Some?
                                    && !Database.CityNamed(store.cities, update.city.value))
    ensures out.Returned? ==> out.value == Json(201, map["statusCode" := JInt(201), "status" := JStr("updated")])
    ensures out.Raising? ==> out.raised.Http? && out.raised.http.statusCode == 500 && store.users == old(store.users)
    ensures store.users.Keys == old(store.users).Keys
    ensures forall a :: a in old(store.users) && a != userId ==> store.users[a] == old(store.users)[a]
    ensures userId in old(store.users) ==>
      store.users[userId] == old(store.users)[userId].(profile := store.users[userId].profile)
    ensures userId in old(store.users) && out.Returned? ==>
      Patched(old(store.users)[userId].profile, store.users[userId].profile, update, store.cities)
    ensures store.cities == old(store.cities) && store.avatars == old(store.avatars)
    ensures store.favourites == old(store.favourites)
  {
    var flag := CityFlag(update);
    var values := Dto.ModelDump(update);
    var r, written := store.UpdateUserProfile(userId, values, flag);
    ghost var city := if flag then written["city_id"].city else None;
    DumpWritten(update, store.cities, written, city);
    if userId in old(store.users) && r.Ok? {
      PatchedByWritten(old(store.users)[userId].profile, update, store.cities, written, city);
    }
    if r.Err? {
      StoreErrorsAre500();
      return Failed(r.error, requestId);
    }
    out := Decorators.RouterDecorator(Returned(Json(201, map["statusCode" := JInt(201), "status" := JStr("updated")])),
                                      requestId);
  }

  /**
   * `v` is profile `u` after a successful PATCH with `update`: each given name or description
   * is written, any other is kept, a given city is a city of that name, and the row's identity,
   * gender and birth date stay.
   */
  predicate Patched(u: Profile, v: Profile, update: Dto.UpdateUsersView, cities: map<int, City>)
  {
    && v.id == u.id && v.accountId == u.accountId && v.gender == u.gender && v.dateOfBirth == u.dateOfBirth
    && v.firstName == (if update.firstName.Some? then update.firstName.value else u.firstName)
    && v.lastName == (if update.lastName.Some? then update.lastName.value else u.lastName)
    && v.description == (if update.description.Some? then update.description.value else u.description)
    && (update.city.Some? ==> v.cityId in cities && cities[v.cityId].name == update.city.value)
    && (update.city.None? ==> v.cityId == u.cityId)
  }

  /** Applying the dict a request writes patches the profile as the request asks. */
  lemma PatchedByWritten(u: Profile, update: Dto.UpdateUsersView, cities: map<int, City>,
                         written: map<string, ColumnValue>, city: Option<int>)
    requires !CityFlag(update) ==> written == Dto.ModelDump(update) && city.None?
    requires CityFlag(update) ==> written == (Dto.ModelDump(update) - {"city"})["city_id" := CityRef(city)]
                                  && Database.CityLookup(cities, update.city, city)
    requires Database.Writable(written) && !Database.CityIdRejected(written, cities)
    ensures "city_id" in written ==> written["city_id"].city.Some?
    ensures Patched(u, Database.ApplyValues(u, written), update, cities)
  {
    DumpWritten(update, cities, written, city);
    Database.ApplyValuesWritesSupplied(u, written);
  }

  /**
   * The dict `update_user_profile` writes for a request: the dumped fields, and with the city
   * flag set "city" replaced by "city_id" holding the lookup's result `city`. It names only
   * profile columns exactly when the request has no username and no empty city; then each
   * column is present exactly when its field is, and the city id is unusable exactly when the
   * name matches no city.
   */
  lemma DumpWritten(update: Dto.UpdateUsersView, cities: map<int, City>, written: map<string, ColumnValue>,
                    city: Option<int>)
    requires !CityFlag(update) ==> written == Dto.ModelDump(update) && city.None?
    requires CityFlag(update) ==> written == (Dto.ModelDump(update) - {"city"})["city_id" := CityRef(city)]
                                  && Database.CityLookup(cities, update.city, city)
    ensures Database.Writable(written) <==> update.username.None? && update.city != Some("")
    ensures Database.Writable(written) ==>
      (written != map[] <==> update.firstName.Some? || update.lastName.Some? || update.city.Some?
                             || update.description.Some?)
    ensures Database.Writable(written) ==>
      && ("firstName" in written <==> update.firstName.Some?)
      && (update.firstName.Some? ==> written["firstName"] == ColumnValue.Text(update.firstName.value))
      && ("lastName" in written <==> update.lastName.Some?)
      && (update.lastName.Some? ==> written["lastName"] == ColumnValue.Text(update.lastName.value))
      && ("description" in written <==> update.description.Some?)
      && (update.description.Some? ==> written["description"] == ColumnValue.Text(update.description.value))
      && ("city_id" in written <==> update.city.Some?)
      && (update.city.Some? ==> written["city_id"] == CityRef(city))
      && (Database.CityIdRejected(written, cities) <==> update.city.Some? && !Database.CityNamed(cities, update.city.value))
      && (city.Some? ==> city.value in cities && cities[city.value].name == update.city.value)
  {
    var values := Dto.ModelDump(update);
    if CityFlag(update) {
      assert "username" in written <==> update.username.Some?;
    } else {
      assert "city" in written <==> update.city.Some?;
    }
  }

  /**
   * `delete_user_profile` as written: the decorated inner function is defined but never called,
   * so the handler returns None (200 with a `null` body), deletes nothing and schedules nothing.
   */
  method DeleteUserProfileAsWritten(userId: AccountId) returns (out: Outcome<Response>, tasks: seq<Task>)
    ensures out == Returned(Null(200)) && tasks == []
  {
    out, tasks := Returned(Null(200)), [];
  }

  /**
   * `delete_user_profile` as its inner function evidently intends: delete the account with every
   * row that references it, schedule the drop notification and answer 200 "deleted".
   */
  method DeleteUserProfile(store: Database.ProfileStore, userId: AccountId, requestId: string)
    returns (out: Outcome<Response>, tasks: seq<Task>)
    requires store.Valid()
    modifies store
    ensures store.Valid()
    ensures userId !in store.users && store.users == old(store.users) - {userId}
    ensures store.avatars == Database.AvatarsWithout(old(store.avatars), userId)
    ensures store.favourites == Database.FavouritesWithout(old(store.favourites), userId)
    ensures out == Returned(Json(200, map["statusCode" := JInt(200), "status" := JStr("deleted")]))
    ensures tasks == [Publish(Dto.DropMessage(Dto.DropUser(userId, "drop_user")), Some("notification"))]
  {
    store.DeleteUser(userId);
    tasks := [Publish(Dto.DropMessage(Dto.DropUser(userId, "drop_user")), Some("notification"))];
    out := Decorators.RouterDecorator(Returned(Json(200, map["statusCode" := JInt(200), "status" := JStr("deleted")])),
                                      requestId);
  }

  /**
   * `add_users_avatars`, for the UserView its `get_user_profile` dependency produced: uploads
   * `{id}-avatar-{n}.png`, then appends the avatar row, schedules the avatar notification with the
   * new link and answers 200 with it. The upload comes first, so it stays even when the row
   * cannot be added (an account deleted since the view was read).
   */
  method AddUsersAvatars(store: Database.ProfileStore, storage: CloudStorage.MediaStorage, user: Dto.UserView,
                         n: nat, now: Instant, requestId: string, clientFails: bool)
    returns (out: Outcome<Response>, tasks: seq<Task>)
    requires store.Valid()
    requires 10000 <= n <= 999999
    modifies store, storage
    ensures store.Valid()
    ensures storage.objects == if clientFails then old(storage.objects)
                               else old(storage.objects) + {CloudStorage.StoredObject(storage.config.avatarsBucket, AvatarFileName(user.id, n))}
    ensures out.Raising? <==> user.id !in old(store.users)
    ensures out.Raising? ==> out.raised.Http? && out.raised.http.statusCode == 500 && tasks == [] && unchanged(store)
    ensures out.Returned? ==>
      var link := CloudStorage.AvatarUrl(storage.config, AvatarFileName(user.id, n));
      && store.avatars == old(store.avatars)[old(store.nextAvatarId) := Avatar(old(store.nextAvatarId), user.id, link, now)]
      && tasks == [Publish(Dto.AvatarMessage(Dto.UpdateAvatar(user.id, link, "avatar")), Some("notification"))]
      && out.value == Json(200, map["statusCode" := JInt(200), "status" := JStr("success"), "link" := JStr(link)])
    ensures store.users == old(store.users) && store.favourites == old(store.favourites)
  {
    var fileName := AvatarFileName(user.id, n);
    storage.UploadAvatar(fileName, clientFails);
    var link := store.AddNewAvatar(fileName, user.id, now, storage.config);
    if link.Err? {
      StoreErrorsAre500();
      return Failed(link.error, requestId), [];
    }
    tasks := [Publish(Dto.AvatarMessage(Dto.UpdateAvatar(user.id, link.value, "avatar")), Some("notification"))];
    out := Decorators.RouterDecorator(
      Returned(Json(200, map["statusCode" := JInt(200), "status" := JStr("success"), "link" := JStr(link.value)])),
      requestId);
  }

  /**
   * `delete_avatar`: answers 200 "deleted" at once (under the key "status_code") and leaves the
   * deletion and the notification to a background task; the store is not touched here.
   */
  method DeleteAvatar(userId: AccountId, avatarId: int, requestId: string)
    returns (out: Outcome<Response>, tasks: seq<Task>)
    ensures out == Returned(Json(200, map["status_code" := JInt(200), "status" := JStr("deleted")]))
    ensures tasks == [DeleteProcess(avatarId, userId)]
  {
    tasks := [DeleteProcess(avatarId, userId)];
    out := Decorators.RouterDecorator(Returned(Json(200, map["status_code" := JInt(200), "status" := JStr("deleted")])),
                                      requestId);
  }

  const UpdateAvatarInvalid := PyException("ValidationError", "1 validation error for UpdateAvatar")

  /**
   * `delete_process`: the store's scoped avatar delete, then the avatar notification carrying the
   * newest remaining link. An avatar the user does not own raises AttributeError in the store;
   * deleting the user's last avatar gives None, which UpdateAvatar's required `newMediaUrl`
   * rejects. Either way nothing is published.
   */
  method RunDeleteProcess(store: Database.ProfileStore, storage: CloudStorage.MediaStorage, avatarId: int,
                          orgId: AccountId, clientFails: bool)
    returns (published: seq<Message>, raised: Option<PyException>)
    requires store.Valid()
    modifies store, storage
    ensures store.Valid()
    ensures store.avatars == if Database.Owns(old(store.avatars), avatarId, orgId) then old(store.avatars) - {avatarId}
                             else old(store.avatars)
    ensures !Database.Owns(old(store.avatars), avatarId, orgId) ==>
              raised.Some? && raised.value.className == "AttributeError" && storage.objects == old(storage.objects)
    ensures Database.Owns(old(store.avatars), avatarId, orgId) ==>
              storage.objects == if clientFails then old(storage.objects)
                                 else old(storage.objects) - CloudStorage.AsSet(
                                   CloudStorage.AvatarDeletion(storage.config, old(store.avatars)[avatarId].mediaUrl))
    ensures raised.None? <==> Database.Owns(old(store.avatars), avatarId, orgId)
                              && exists k :: k in store.avatars && store.avatars[k].accountId == orgId
    ensures raised.Some? ==> published == []
    ensures raised.None? ==>
      && |published| == 1 && published[0].routingKey == "notification-service"
      && published[0].payload.AvatarMessage?
      && published[0].payload.avatarData.userId == orgId && published[0].payload.avatarData.target == "avatar"
      && Database.IsNewestAvatarUrl(store.avatars, orgId, published[0].payload.avatarData.newMediaUrl)
    ensures store.users == old(store.users) && store.favourites == old(store.favourites)
  {
    var prev := store.DeleteAvatar(avatarId, orgId, storage, clientFails);
    if prev.Err? {
      return [], Some(prev.error);
    }
    if prev.value.None? {
      return [], Some(UpdateAvatarInvalid);
    }
    var sent := Publication(Dto.AvatarMessage(Dto.UpdateAvatar(orgId, prev.value.value, "avatar")), Some("notification"));
    return [sent.value], None;
  }

  /**
   * Running one background task after the response. A publication sends its message or raises;
   * the sign-up fan-out sends the verification e-mail to "smtp-service" and the token to
   * "notification-service" (the community registration is not part of this model).
   */
  method RunTask(task: Task, store: Database.ProfileStore, storage: CloudStorage.MediaStorage, clientFails: bool)
    returns (published: seq<Message>, raised: Option<PyException>)
    requires store.Valid()
    modifies store, storage
    ensures store.Valid()
    ensures !task.DeleteProcess? ==> unchanged(store) && unchanged(storage)
    ensures task.Publish? ==> var p := Publication(task.payload, task.queue);
      if p.Ok? then published == [p.value] && raised.None? else published == [] && raised == Some(p.error)
    ensures task.SignUpFanout? ==>
      && raised.None?
      && published == [Message("smtp-service", Dto.EmailMessage(task.emailData)),
                       Message("notification-service", Dto.TokenMessage(task.tokenData))]
    ensures task.DeleteProcess? ==>
      store.avatars == if Database.Owns(old(store.avatars), task.avatarId, task.orgId)
                       then old(store.avatars) - {task.avatarId} else old(store.avatars)
  {
    match task
    case Publish(payload, queue) =>
      var p := Publication(payload, queue);
      if p.Ok? {
        published, raised := [p.value], None;
      } else {
        published, raised := [], Some(p.error);
      }
    case SignUpFanout(emailData, tokenData, _, _) =>
      var email := Publication(Dto.EmailMessage(emailData), Some("email"));
      var token := Publication(Dto.TokenMessage(tokenData), Some("notification"));
      published, raised := [email.value, token.value], None;
    case DeleteProcess(avatarId, orgId) =>
      published, raised := RunDeleteProcess(store, storage, avatarId, orgId, clientFails);
  }

  /**
   * `add_users_back_pad` as written: uploads under the user's fixed key `{id}-back_pad.png`,
   * then the store deletes the object of the old link and points the row at the new URL.
   * Without an account the old link is None and the store raises; the upload has happened.
   */
  method AddUsersBackPadAsWritten(store: Database.ProfileStore, storage: CloudStorage.MediaStorage,
                                  userId: AccountId, requestId: string, clientFails: bool)
    returns (out: Outcome<Response>)
    requires store.Valid()
    modifies store, storage
    ensures store.Valid()
    ensures out.Raising? <==> userId !in old(store.users)
    ensures out.Raising? ==>
      && out.raised.Http? && out.raised.http.statusCode == 500 && unchanged(store)
      && storage.objects == if clientFails then old(storage.objects)
                                    else old(storage.objects) + {CloudStorage.StoredObject(storage.config.backPadsBucket, BackPadFileName(userId))}
    ensures out.Returned? ==> var link := CloudStorage.BackPadUrl(storage.config, BackPadFileName(userId));
      && out.value == Json(200, map["statusCode" := JInt(200), "status" := JStr("success"), "link" := JStr(link)])
      && store.users == old(store.users)[userId := old(store.users)[userId].(backPad := old(store.users)[userId].backPad.(mediaUrl := link))]
    ensures out.Returned? && !clientFails ==>
      storage.objects == BackPadObjectsAsWritten(storage.config, old(storage.objects),
                                                 old(store.users)[userId].backPad.mediaUrl, BackPadFileName(userId))
    ensures store.avatars == old(store.avatars) && store.favourites == old(store.favourites)
  {
    var fileName := BackPadFileName(userId);
    storage.UploadBackPads(fileName, clientFails);
    var link := store.UpdateBackPad(fileName, userId, storage, clientFails);
    if link.Err? {
      StoreErrorsAre500();
      return Failed(link.error, requestId);
    }
    out := Decorators.RouterDecorator(
      Returned(Json(200, map["statusCode" := JInt(200), "status" := JStr("success"), "link" := JStr(link.value)])),
      requestId);
  }

  /**
   * `add_users_back_pad` with the store's replacement first and the upload after it, so deleting
   * the old link's object can no longer remove the new back-pad when both share the fixed key.
   */
  method AddUsersBackPad(store: Database.ProfileStore, storage: CloudStorage.MediaStorage,
                         userId: AccountId, requestId: string, clientFails: bool)
    returns (out: Outcome<Response>)
    requires store.Valid()
    modifies store, storage
    ensures store.Valid()
    ensures out.Raising? <==> userId !in old(store.users)
    ensures out.Raising? ==> out.raised.Http? && out.raised.http.statusCode == 500 && unchanged(store)
                             && storage.objects == old(storage.objects)
    ensures out.Returned? ==> var link := CloudStorage.BackPadUrl(storage.config, BackPadFileName(userId));
      && out.value == Json(200, map["statusCode" := JInt(200), "status" := JStr("success"), "link" := JStr(link)])
      && store.users == old(store.users)[userId := old(store.users)[userId].(backPad := old(store.users)[userId].backPad.(mediaUrl := link))]
    ensures out.Returned? && !clientFails ==>
      && storage.objects == BackPadObjectsCorrected(storage.config, old(storage.objects),
                                                    old(store.users)[userId].backPad.mediaUrl, BackPadFileName(userId))
      && CloudStorage.StoredObject(storage.config.backPadsBucket, BackPadFileName(userId)) in storage.objects
    ensures store.avatars == old(store.avatars) && store.favourites == old(store.favourites)
  {
    var fileName := BackPadFileName(userId);
    var link := store.UpdateBackPad(fileName, userId, storage, clientFails);
    if link.Err? {
      StoreErrorsAre500();
      return Failed(link.error, requestId);
    }
    storage.UploadBackPads(fileName, clientFails);
    out := Decorators.RouterDecorator(
      Returned(Json(200, map["statusCode" := JInt(200), "status" := JStr("success"), "link" := JStr(link.value)])),
      requestId);
  }

  /**
   * `drop_unverified_user` as written: drops the account and schedules the drop notification
   * without a queue argument; the handler returns None (200, `null`).
   */
  method DropUnverifiedUserAsWritten(store: Database.ProfileStore, id: AccountId, requestId: string)
    returns (out: Outcome<Response>, tasks: seq<Task>)
    requires store.Valid()
    modifies store
    ensures store.Valid()
    ensures store.users == old(store.users) - {id}
    ensures store.avatars == Database.AvatarsWithout(old(store.avatars), id)
    ensures store.favourites == Database.FavouritesWithout(old(store.favourites), id)
    ensures out == Returned(Null(200))
    ensures tasks == [Publish(Dto.DropMessage(Dto.DropUser(id, "drop_user")), None)]
  {
    store.DropUser(id);
    tasks := [Publish(Dto.DropMessage(Dto.DropUser(id, "drop_user")), None)];
    out := Decorators.RouterDecorator(Returned(Null(200)), requestId);
  }

  /** The task `drop_unverified_user` schedules fails with TypeError when it runs: the drop notice is never sent. */
  lemma DropNoticeAsWrittenIsLost(id: AccountId)
    ensures var p := Publication(Dto.DropMessage(Dto.DropUser(id, "drop_user")), None);
      p.Err? && p.error.className == "TypeError"
  {
  }

  /** `drop_unverified_user` with the queue the other drop notification uses, "notification". */
  method DropUnverifiedUser(store: Database.ProfileStore, id: AccountId, requestId: string)
    returns (out: Outcome<Response>, tasks: seq<Task>)
    requires store.Valid()
    modifies store
    ensures store.Valid()
    ensures id !in store.users && store.users == old(store.users) - {id}
    ensures store.avatars == Database.AvatarsWithout(old(store.avatars), id)
    ensures store.favourites == Database.FavouritesWithout(old(store.favourites), id)
    ensures out == Returned(Null(200))
    ensures tasks == [Publish(Dto.DropMessage(Dto.DropUser(id, "drop_user")), Some("notification"))]
  {
    store.DropUser(id);
    tasks := [Publish(Dto.DropMessage(Dto.DropUser(id, "drop_user")), Some("notification"))];
    out := Decorators.RouterDecorator(Returned(Null(200)), requestId);
  }

  /** With the queue given, the drop notice reaches "notification-service". */
  lemma DropNoticeIsSent(id: AccountId)
    ensures var payload := Dto.DropMessage(Dto.DropUser(id, "drop_user"));
      Publication(payload, Some("notification")) == Ok(Message("notification-service", payload))
  {
  }

  /** `add_fire_base_token`: schedules the caller's device token (no media URL) and answers 200 "success". */
  method AddFireBaseToken(userId: AccountId, username: string, token: string, requestId: string)
    returns (out: Outcome<Response>, tasks: seq<Task>)
    ensures out == Returned(Json(200, map["statusCode" := JInt(200), "status" := JStr("success")]))
    ensures tasks == [Publish(Dto.TokenMessage(Dto.FirebaseToken("token", token, username, userId, None)), Some("notification"))]
  {
    var data := Dto.FirebaseToken("token", token, username, userId, None);
    tasks := [Publish(Dto.TokenMessage(data), Some("notification"))];
    out := Decorators.RouterDecorator(Returned(Json(200, map["statusCode" := JInt(200), "status" := JStr("success")])),
                                      requestId);
  }

  /**
   * `update_statistic`: the store's ±1 on the named counter; the handler returns None, so the
   * route answers 202 with `null`. A user without statistics makes the store raise TypeError: 500.
   */
  method UpdateStatistic(store: Database.ProfileStore, userId: AccountId, field: string, increase: bool,
                         requestId: string)
    returns (out: Outcome<Response>)
    requires store.Valid()
    modifies store
    ensures store.Valid()
    ensures out.Raising? <==> (field == "events" || field == "friends") && userId !in old(store.users)
    ensures out.Raising? ==> out.raised.Http? && out.raised.http.statusCode == 500 && unchanged(store)
    ensures out.Returned? ==> out.value == Null(202)
    ensures out.Returned? && (field == "events" || field == "friends") ==>
      userId in old(store.users) && store.users == old(store.users)[userId := old(store.users)[userId].(
        statistic := Database.Adjust(old(store.users)[userId].statistic, field, increase))]
    ensures field != "events" && field != "friends" ==> unchanged(store)
  {
    var r := store.UpdateStatistic(userId, field, increase);
    if r.Err? {
      StoreErrorsAre500();
      return Failed(r.error, requestId);
    }
    out := Decorators.RouterDecorator(Returned(Null(202)), requestId);
  }

  /** The routes of the `profile` and `service` routers, with their path, query and body inputs. */
  datatype Route =
    | GetUsername(username: string)                                  // GET /profile/{username}
    | PostProfile(body: Dto.UserCreateModel)                         // POST /profile/
    | GetProfile(user: AccountId)                                    // GET /profile/ (token's user)
    | PatchProfile(user: AccountId, update: Dto.UpdateUsersView)     // PATCH /profile/
    | DeleteProfile(user: AccountId)                                 // DELETE /profile/
    | PostAvatar(user: AccountId)                                    // POST /profile/avatar
    | DeleteAvatarById(user: AccountId, avatarId: int)               // DELETE /profile/avatar/{avatar_id}
    | PostBackPad(user: AccountId)                                   // POST /profile/back_pad
    | DeleteDrop(id: AccountId)                                      // DELETE /profile/drop/{_id}
    | PostDevice(user: AccountId, username: string, token: string)   // POST /profile/append/device
    | GetServiceProfile(id: AccountId)                               // GET /profile/{_id} (service)
    | PatchStatistic(userId: AccountId, field: string, increase: bool)  // PATCH /profile/ (service)

  /**
   * What a request brings besides its route: the request ids the decorators draw (one for the
   * `get_user_profile` dependency of the avatar upload), the new account's uuid, the password
   * hash, the clock, the two random numbers, and whether the storage client fails.
   */
  datatype RequestEnv = RequestEnv(
    requestId: string, dependencyRequestId: string, newId: AccountId, hasher: string -> string,
    now: Instant, today: Date, code: nat, avatarNumber: nat, clientFails: bool)

  /**
   * One request: the `header_controller` dependency both routers declare runs first and, when it
   * raises, the handler does not run; otherwise the route's handler runs, as the source writes
   * it. Whatever fails reaches the client as an HTTPException.
   */
  method Serve(route: Route, env: RequestEnv, MODE: int, header: Option<string>, expected: string,
               store: Database.ProfileStore, storage: CloudStorage.MediaStorage)
    returns (out: Outcome<Response>, tasks: seq<Task>)
    requires store.Valid()
    requires 10000 <= env.code <= 100000 && 10000 <= env.avatarNumber <= 999999
    modifies store, storage
    ensures store.Valid()
    ensures CrossSec.HeaderController(MODE, header, expected).Some? ==>
      && out == Raising(Http(CrossSec.HeaderController(MODE, header, expected).value)) && tasks == []
      && unchanged(store) && unchanged(storage)
    ensures out.Raising? ==> out.raised.Http?
  {
    var gate := CrossSec.HeaderController(MODE, header, expected);
    if gate.Some? {
      return Raising(Http(gate.value)), [];
    }
    tasks := [];
    match route
    case GetUsername(username) =>
      out := CheckAvailableUsername(store, username, env.requestId);
    case PostProfile(body) =>
      out, tasks := CreateUser(store, storage, body, env.newId, env.hasher, env.now, env.code, env.requestId);
    case GetProfile(user) =>
      var view := GetUserProfile(store, user, env.today, env.requestId);
      out := if view.Returned? then Returned(View(view.value)) else Raising(view.raised);
    case PatchProfile(user, update) =>
      out := UpdateUserProfile(store, user, update, env.requestId);
    case DeleteProfile(user) =>
      out, tasks := DeleteUserProfileAsWritten(user);
    case PostAvatar(user) =>
      var view := GetUserProfile(store, user, env.today, env.dependencyRequestId);
      if view.Raising? {
        return Raising(view.raised), [];
      }
      out, tasks := AddUsersAvatars(store, storage, view.value, env.avatarNumber, env.now, env.requestId, env.clientFails);
    case DeleteAvatarById(user, avatarId) =>
      out, tasks := DeleteAvatar(user, avatarId, env.requestId);
    case PostBackPad(user) =>
      out := AddUsersBackPadAsWritten(store, storage, user, env.requestId, env.clientFails);
    case DeleteDrop(id) =>
      out, tasks := DropUnverifiedUserAsWritten(store, id, env.requestId);
    case PostDevice(user, username, token) =>
      out, tasks := AddFireBaseToken(user, username, token, env.requestId);
    case GetServiceProfile(id) =>
      var view := GetUserProfile(store, id, env.today, env.requestId);
      out := if view.Returned? then Returned(View(view.value)) else Raising(view.raised);
    case PatchStatistic(userId, field, increase) =>
      out := UpdateStatistic(store, userId, field, increase, env.requestId);
  }

  /**
   * `Serve` with the corrected `delete_user_profile`, `add_users_back_pad` and
   * `drop_unverified_user` in place of the handlers as written; every other route is `Serve`'s.
   */
  method ServeCorrected(route: Route, env: RequestEnv, MODE: int, header: Option<string>, expected: string,
                        store: Database.ProfileStore, storage: CloudStorage.MediaStorage)
    returns (out: Outcome<Response>, tasks: seq<Task>)
    requires store.Valid()
    requires 10000 <= env.code <= 100000 && 10000 <= env.avatarNumber <= 999999
    modifies store, storage
    ensures store.Valid()
    ensures CrossSec.HeaderController(MODE, header, expected).Some? ==>
      && out == Raising(Http(CrossSec.HeaderController(MODE, header, expected).value)) && tasks == []
      && unchanged(store) && unchanged(storage)
    ensures out.Raising? ==> out.raised.Http?
  {
    var gate := CrossSec.HeaderController(MODE, header, expected);
    if gate.Some? || !(route.DeleteProfile? || route.PostBackPad? || route.DeleteDrop?) {
      out, tasks := Serve(route, env, MODE, header, expected, store, storage);
    } else if route.DeleteProfile? {
      out, tasks := DeleteUserProfile(store, route.user, env.requestId);
    } else if route.PostBackPad? {
      out := AddUsersBackPad(store, storage, route.user, env.requestId, env.clientFails);
      tasks := [];
    } else {
      out, tasks := DropUnverifiedUser(store, route.id, env.requestId);
    }
  }
}
