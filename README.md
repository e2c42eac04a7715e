# Profile service: a Dafny model

This project models the core of a profile microservice built on FastAPI, SQLAlchemy and S3. The
service keeps user accounts with their profile, avatars, back-pad (the profile's header image),
statistics counters and favourite categories. It stores media in two S3 buckets and sends
notifications through RabbitMQ.

The model has four layers:

- **The database operations** (`DatabaseInterface`). The class `Database.ProfileStore` holds the
  tables as in-memory maps. Each method is one transaction: it either commits all its writes or,
  when it raises, none of them.
- **The media references and the object store** (`CloudMediaStorageAdapter` and its uploaders).
  A URL is a configured link prefix, "/" and a key. The object store `CloudStorage.MediaStorage`
  is a set of (bucket, key) pairs.
- **The request handlers** (`Routers`). Each handler is a method that returns two things: what
  the client receives (a response, or the HTTPException raised), and the background tasks it
  added, in order. A second method, `RunTask`, runs one such task.
  - `Serve` puts the `header_controller` gate, which both routers declare, in front of every
    route.
  - `Serve` also resolves `add_users_avatars`'s `get_user_profile` dependency.
  - `Serve` runs every handler as the source writes it. `ServeCorrected` runs the corrected
    handlers of the findings below for the three routes they concern.
  - The authenticated principal that `Authenticator.get_user_by_token` should provide becomes a
    user id input (see "Left out" for how the source's dependency behaves).
- **The small pure parts**:
  - the pydantic field constraints of the request bodies;
  - the exception-to-status mapping of `router_decorator`;
  - `raiser_routing_exception`;
  - the `age` property;
  - the Gender enum.

Several inputs are parameters rather than computed:

- The new account's uuid, both random numbers (`random.randint`), the request ids (`uuid4`) and
  the clock become parameters.
- `Hasher.get_hash_password` is an opaque function parameter.
- EmailStr's address check is an opaque predicate.
- A storage client failure is a boolean: such an error is logged and swallowed.

Design decisions:

- **An unresolvable city name fails; it does not leave the reference empty.** `city_id` is
  declared `Mapped[int]`, so the column is NOT NULL (database/models.py:150). When
  `create_user` does not find the city, it therefore fails with an IntegrityError and writes
  nothing. The same holds for `update_user_profile` on an existing row.
- **The verification code can have six digits.** `random.randint(10000, 100000)` includes
  100000, a six-digit code (`Routers.VerificationCodeDigits`).
- **An omitted gender is a plain str.** pydantic does not validate field defaults, so a body
  without `gender` leaves the str "m" in place of a GenderType member, and `body.gender.value`
  in `create_user` (database/interface.py:31) raises AttributeError. The model keeps this (see
  Findings).
- **One-to-one rows are stored with their account.** An account's profile, back-pad and
  statistics are declared `uselist=False` and are only ever inserted together by `create_user`.
  The model stores them with the account as a `Database.UserRecord`, so every account has
  exactly one of each. Avatars and favourite categories are separate tables, kept consistent by
  the `ON DELETE CASCADE` foreign keys.
- **A PATCH with no field set fails.** `model_dump(exclude_none=True)` is then empty and the
  UPDATE has no SET column. The model reads this as a statement the database rejects with a
  ProgrammingError, which reaches the client as 500.
- **`.scalar()` picks any matching row.** A city lookup by name may match several cities; the
  model lets it return any of them.
- **Integrity errors carry short messages.** The messages of the constraint errors are
  abbreviated. Only their class, IntegrityError, matters to the client: it maps to status 500.

## Model

| member | source | states |
|---|---|---|
| Strings.ReplaceAll | helpers/cloud_storage.py:46 | `str.replace` removes every occurrence of the pattern from left to right; removing never makes the string longer |
| Strings.ReplaceAllLeading | helpers/cloud_storage.py:46 | a leading occurrence of the pattern is replaced and the scan continues after it |
| Strings.ReplaceAllAbsent | helpers/cloud_storage.py:46 | a string in which the pattern does not occur is left unchanged |
| Strings.ReplaceAllRemovesOccurrence | helpers/cloud_storage.py:46 | removing a pattern that occurs makes the string strictly shorter |
| Strings.NatToDecimal | endpoints/routers.py:71 | `str(n)` is a non-empty string of decimal digits |
| Strings.DecimalRoundTrip | endpoints/routers.py:67-71 | reading back `str(n)` gives n |
| Strings.DecimalInjective | endpoints/routers.py:177 | distinct numbers have distinct decimal texts |
| Exceptions.RaiserRoutingException | helpers/exceptions.py:10-21 | never returns; raises an HTTPException whose detail has the same status code, status "error", the exception's class name as reason and its text as message |
| Exceptions.RaiserDefaultIs400 | helpers/exceptions.py:10 | the default status is 400 |
| Decorators.StatusFor | helpers/decorators.py:47-49 | a class name that is a key of STATUS_MAP gets its status; any other name gets 500 |
| Decorators.StatusTable | helpers/decorators.py:11-18 | the six entries (409, 400, 404, 498, 403, 401); exactly those names are not 500; "NotFoundError" is 500 because the key is spelled "NotFountError" |
| Decorators.Wrapped | helpers/decorators.py:55-62 | the raised detail carries the mapped status, `str(e)` and this request's id |
| Decorators.RouterDecorator | helpers/decorators.py:42-62 | a result is returned unchanged; an HTTPException passes through; any other exception becomes `Wrapped`; only HTTPExceptions escape |
| Decorators.RoutingExceptionPassesThrough | helpers/decorators.py:44-45 | the exception of `raiser_routing_exception` reaches the client unchanged |
| CrossSec.HeaderController | cross_sec.py:6-12 | passes exactly when mode is on or the header equals X_ACCESS_TOKEN; otherwise 401 with "Missing ..." when the header is absent and "Wrong ..." when it differs |
| Models.GenderFromValue | database/models.py:134-136 | exactly "m" and "f" are Gender values, and each reads back as itself |
| Models.GenderRoundTrip | database/models.py:134-136 | Gender has exactly two members with distinct values, each mapping back to itself |
| Models.Age | database/models.py:161-169 | None without a date of birth; otherwise the number of birthday anniversaries reached on today's date, with (month, day) compared as tuples |
| Models.AgeNotNegative | database/models.py:165-167 | on or after the date of birth the age is at least 0 |
| Models.AgeStepsOnBirthday | database/models.py:165-167 | within a year the age rises by exactly one when the birthday is reached |
| Models.NewAccount | database/models.py:95-105 | a new account is open and not prime and carries the given id, username, hash, e-mail and time |
| Dto.UsernameIsPassword | endpoints/dto.py:20-29 | every valid username is a valid password |
| Dto.ParseGenderType | endpoints/dto.py:14-16 | GenderType accepts exactly "m" (male) and "f" (female) |
| Dto.DefaultsSatisfyConstraints | endpoints/dto.py:19-55 | each unvalidated field default would satisfy its own constraint |
| Dto.Failing | endpoints/dto.py:19-55 | lists exactly the fields that fail their constraint |
| Dto.ValidateUserCreate | endpoints/dto.py:19-55 | a body is accepted exactly when every field meets its constraint: username and password of at least 4 characters from their classes, names of at least 2 from the name class, gender "m" or "f", city of at least 2, token of at least 6, required e-mail, date of birth and description. Accepted fields hold the given values or their defaults, and a given gender is its GenderType member while an omitted one stays the unvalidated str "m". The error lists exactly the failing fields |
| Dto.OmittedGenderStaysRaw | endpoints/dto.py:43-45 | as written, a body without gender validates to the raw str "m", which is no valid model |
| Dto.AcceptedFieldsMeetConstraints | endpoints/dto.py:19-55 | every given or default value of an accepted body meets its field's constraint |
| Dto.ValidateUserCreateWithDefaults | endpoints/dto.py:43-45 | with the default validated, acceptance and fields are as before, the gender is always a GenderType member, and an omitted gender is male |
| Dto.WithDefaultsRoundTrip | endpoints/dto.py:19-55 | every model the corrected validation accepts meets all constraints and validates back to itself |
| Dto.ValidateRoundTrip | endpoints/dto.py:19-55 | a model whose fields all meet their constraints validates back to itself |
| Dto.ValidateUpdate | endpoints/dto.py:98-103 | accepted exactly when none of firstName, lastName, city and description is an explicit null (only `username` is Optional); the error names exactly the null fields; a field left out or null becomes None |
| Dto.FieldValue | endpoints/dto.py:98-103 | a field holds its string exactly when one is given, and None otherwise |
| Dto.ValidateUpdateRoundTrip | endpoints/dto.py:98-103 | every UpdateUsersView is accepted back from the body that leaves its None fields out |
| Dto.ModelDump | endpoints/routers.py:126 | `model_dump(exclude_none=True)` has a key exactly for each field that is not None, holding that field's text |
| Dto.AvatarViews | endpoints/dto.py:70-77 | one view per avatar, in the same order, with its id, URL and time; every avatar has its view in the list |
| Dto.ToUserView | endpoints/dto.py:58-95 | validation fails exactly when the profile, its city, the back-pad or the statistics is missing; otherwise the view copies id, username, names, description, city name, age for today, avatars, back-pad and counters |
| CloudStorage.MediaPrefix | helpers/cloud_storage.py:30-34 | `avatar` gives AVATARS_LINK + "/" + key and wins over `back_pad`, which gives BACK_PADS_LINK + "/" + key; neither gives None |
| CloudStorage.DefaultAvatar | helpers/cloud_storage.py:37-38 | AVATARS_LINK + "/default-avatar-dark.png" |
| CloudStorage.DefaultBackPad | helpers/cloud_storage.py:41-42 | BACK_PADS_LINK + "/default-back-pad-dark.png" |
| CloudStorage.AvatarDeletion | helpers/cloud_storage.py:45-53 | no object for the default key; otherwise the avatars-bucket object of the derived key |
| CloudStorage.BackPadDeletion | helpers/cloud_storage.py:58-66 | no object for the default key; otherwise the back-pads-bucket object of the derived key |
| CloudStorage.SlashPrefixAbsent | helpers/cloud_storage.py:46 | a prefix ending in "/" cannot occur in a key without "/" |
| CloudStorage.KeyRoundTrip | helpers/cloud_storage.py:46 | the key derived from link + "/" + key is key, when the prefix does not occur in key |
| CloudStorage.DefaultsNeverDeleted | helpers/cloud_storage.py:45-48 | deleting the default avatar or default back-pad URL deletes nothing |
| CloudStorage.DeletionRoundTrip | helpers/cloud_storage.py:45-66 | deleting the URL built from a key removes exactly that key's object in its own bucket, unless it is the default |
| CloudStorage.InnerPrefixAlsoRemoved | helpers/cloud_storage.py:46 | every occurrence of the prefix is removed, so a key that contains the prefix is not recovered |
| CloudStorage.MediaStorage.DeleteAvatar | helpers/cloud_storage.py:45-55 | a missing link raises AttributeError; otherwise only the derived avatars-bucket object goes: none for the default, none on a client error |
| CloudStorage.MediaStorage.DeleteBackPad | helpers/cloud_storage.py:58-68 | as DeleteAvatar, for the back-pads prefix, default and bucket |
| CloudStorage.MediaStorage.UploadAvatar | helpers/cloud_storage.py:75-79 | adds (avatars bucket, name); a client error is swallowed and changes nothing |
| CloudStorage.MediaStorage.UploadBackPads | helpers/cloud_storage.py:86-90 | adds (back-pads bucket, name); a client error is swallowed and changes nothing |
| Database.ApplyValues | database/interface.py:79-84 | a partial update keeps the row's id, account, gender and birth date |
| Database.ApplyValuesWritesSupplied | database/interface.py:79-84 | each supplied column takes its value and every other column keeps its old one |
| Database.ApplyValuesIdempotent | database/interface.py:79-84 | an empty update changes nothing, and repeating an update changes nothing more |
| Database.Adjust | database/interface.py:171-211 | the statistics row keeps its id and account |
| Database.AdjustMovesOneCounter | database/interface.py:173-210 | "events" moves totalEvents by +1 or -1 and "friends" moves totalFriends; the other counter stays |
| Database.AdjustRoundTrip | database/interface.py:180-191 | an increase followed by a decrease restores the row, and the other way round |
| Database.AdjustOtherField | database/interface.py:173-211 | any other field name changes nothing |
| Database.FindKey | database/interface.py:14-17 | `.scalar()` gives some row that matches, or None exactly when no row matches |
| Database.AvatarsWithout | database/models.py:201 | the cascade keeps exactly the avatars of other accounts, unchanged |
| Database.FavouritesWithout | database/models.py:176 | the cascade keeps exactly the favourites of other accounts |
| Database.DeleteAbsentAccount | database/interface.py:88-92 | deleting an absent account leaves avatars and favourites as they are |
| Database.ProfileStore.constructor | database/models.py:95-231 | empty account tables next to the given cities satisfy the store invariant |
| Database.ProfileStore.CreateUser | database/interface.py:12-58 | fails, writing nothing, exactly when the id or username is taken (IntegrityError), else when the gender is the raw default (AttributeError), else when no city has the name (IntegrityError). Otherwise it inserts exactly one account (open, not prime, hashed password), a profile pointing at a city of that name, a default avatar, a default back-pad and statistics at 0/0, and returns the id and the default avatar URL |
| Database.ProfileStore.InsertUser | database/interface.py:49-57 | the inserts add exactly the new user's rows and one avatar and keep the invariant |
| Database.ProfileStore.FindCity | database/interface.py:14-17 | the id of a city with that name, or None exactly when no city has it |
| Database.ProfileStore.CheckUsername | database/interface.py:159-168 | true exactly when no account has the username |
| Database.ProfileStore.PickNewest | database/interface.py:116-121 | a newest avatar among the keys given |
| Database.ProfileStore.AvatarsOf | database/models.py:112-116 | exactly the account's avatars, each once, newest first |
| Database.ProfileStore.GetUserById | database/interface.py:61-66 | IndexError ("list index out of range") exactly when the id is absent; otherwise the account with its profile, back-pad, statistics, each of its avatars once newest first, and its categories |
| Database.ProfileStore.UpdateUserProfile | database/interface.py:69-85 | with the flag, "city" is replaced by "city_id" holding the lookup's result; without "city" this is a KeyError. A key outside the four columns an UpdateUsersView can reach (firstName, lastName, description, city_id) is a CompileError. An empty dict is a ProgrammingError. An empty or unknown city id on an existing row is an IntegrityError. Otherwise only the row with that account id gets exactly the supplied columns; with no such row nothing changes |
| Database.ProfileStore.DeleteUser | database/interface.py:88-92 | removes the account and, by cascade, its rows, avatars and favourites; an absent id changes nothing |
| Database.ProfileStore.DropUser | database/interface.py:151-156 | the same cascading delete as `delete_user` |
| Database.ProfileStore.AddNewAvatar | database/interface.py:95-104 | appends exactly one avatar with URL AVATARS_LINK + "/" + file name and returns it; an absent account violates the foreign key and writes nothing |
| Database.ProfileStore.DeleteAvatar | database/interface.py:107-128 | removes the avatar only when both id and owner match; then returns a newest remaining URL of the owner, or None when none remain. When nothing matched, AttributeError is raised and storage is untouched; otherwise the removed avatar's object is deleted from storage |
| Database.ProfileStore.UpdateBackPad | database/interface.py:131-148 | deletes the old link's object and points the row at BACK_PADS_LINK + "/" + file name; without an account, AttributeError and nothing changes |
| Database.ProfileStore.UpdateStatistic | database/interface.py:171-211 | "events" or "friends" moves that counter by one; without a statistics row, TypeError and nothing changes; other fields change nothing |
| Routers.RoutingKey | helpers/publisher.py:21-29 | "notification" gives "notification-service" and "email" gives "smtp-service"; a missing queue is a TypeError; any other name fails |
| Routers.RoutingKeyInjective | helpers/publisher.py:21-23 | the two exchanges have distinct routing keys |
| Routers.Publication | helpers/publisher.py:26-35 | the message goes to the queue's routing key with the payload unchanged, or the routing-key error is raised |
| Routers.VerificationCodeDigits | endpoints/routers.py:67 | a code from [10000, 100000] has 5 digits, except 100000, which has 6 |
| Routers.AvatarFileNameInjective | endpoints/routers.py:177 | one user's avatar file names are equal exactly when the random numbers are |
| Routers.AvatarFileNameDigit | endpoints/routers.py:177 | the file name has a digit right before ".png" |
| Routers.AvatarLinkRoundTrip | endpoints/routers.py:177-179 | deleting an uploaded avatar's link removes exactly the uploaded object |
| Routers.BackPadLinkRoundTrip | endpoints/routers.py:240-242 | the user's fixed back-pad key is not the default, and its URL leads back to it |
| Routers.SecondBackPadReplacementDeletesUpload | endpoints/routers.py:240-242 | as written, a replacement over the user's own key URL deletes the object it just uploaded |
| Routers.CorrectedBackPadKeepsUpload | endpoints/routers.py:240-242 | deleting before uploading always keeps the new back-pad and removes only the old link's object |
| Routers.Failed | helpers/decorators.py:46-62 | a store exception becomes the decorator's HTTPException |
| Routers.StoreErrorsAre500 | helpers/decorators.py:47-49 | every exception class the store raises maps to 500 |
| Routers.CheckAvailableUsername | endpoints/routers.py:26-40 | 200 with isAvailable true exactly when no account has the username |
| Routers.CreateUser | endpoints/routers.py:43-94 | 500, nothing written and nothing scheduled exactly when the id or username is taken, the gender is the raw default, or no city has the name. Otherwise 201 with the new id and the code, and one fan-out task whose e-mail carries the same code as text and whose token message carries the default avatar URL |
| Routers.GetUserProfile | endpoints/routers.py:97-110 | 500 with "list index out of range" exactly when the account is absent. Otherwise the view of that account: id, username, names, description, city name, age for today, back-pad and counters, and exactly its avatars, each once, newest first. The service route `user_profile` (endpoints/routers.py:302-314) is served by the same member |
| Routers.UpdateUserProfile | endpoints/routers.py:113-137 | 201 "updated" exactly when the request has no username, no empty city, at least one field set, and no unknown city for an existing row. Then only the caller's profile is patched as requested; any failure is a 500 that writes nothing |
| Routers.Patched | endpoints/routers.py:122-129 | the profile a successful PATCH leaves |
| Routers.PatchedByWritten | database/interface.py:71-84 | applying the dict written for a request patches the profile as the request asks |
| Routers.DumpWritten | database/interface.py:71-84 | the written dict names only reachable columns exactly when there is no username and no empty city; then it is empty exactly when no field is set, and each column is present exactly when its field is |
| Routers.DeleteUserProfileAsWritten | endpoints/routers.py:140-162 | as written: 200 with `null`, nothing deleted, nothing scheduled |
| Routers.DeleteUserProfile | endpoints/routers.py:149-162 | the account and its rows are gone, one drop notification to "notification" is scheduled, 200 "deleted" |
| Routers.AddUsersAvatars | endpoints/routers.py:165-195 | uploads `{id}-avatar-{n}.png` first (kept even if the row fails). It then adds exactly one avatar with that link, schedules one avatar notification with the link and answers 200 with it. An absent account gives 500 with nothing scheduled |
| Routers.DeleteAvatar | endpoints/routers.py:198-226 | answers 200 "deleted" at once under "status_code" and schedules one delete process; the store is not touched |
| Routers.RunDeleteProcess | endpoints/routers.py:208-215 | the scoped avatar delete; publishes one avatar message with the newest remaining link only when the avatar was owned and others remain; otherwise it raises and publishes nothing |
| Routers.RunTask | endpoints/routers.py:46-62 | a publication sends its message or raises; the sign-up fan-out sends the e-mail to "smtp-service" and the token to "notification-service"; only the delete process touches the store |
| Routers.AddUsersBackPadAsWritten | endpoints/routers.py:229-252 | uploads under `{id}-back_pad.png`, then the store deletes the old link's object: the bucket ends as upload-then-delete; without an account, 500 and the upload stays |
| Routers.AddUsersBackPad | endpoints/routers.py:229-252 | with the replacement before the upload, the new back-pad is always in the bucket afterwards |
| Routers.DropUnverifiedUserAsWritten | endpoints/routers.py:255-267 | cascading delete, 200 with `null`, and one drop notification scheduled without a queue |
| Routers.DropNoticeAsWrittenIsLost | endpoints/routers.py:265 | that task fails with TypeError when it runs, so the notice is never published |
| Routers.DropUnverifiedUser | endpoints/routers.py:255-267 | cascading delete, 200 with `null`, and the drop notification scheduled to "notification" |
| Routers.DropNoticeIsSent | endpoints/routers.py:265 | with the queue given, the notice reaches "notification-service" |
| Routers.AddFireBaseToken | endpoints/routers.py:270-295 | schedules the caller's device token without a media URL to "notification" and answers 200 "success" |
| Routers.UpdateStatistic | endpoints/routers.py:317-324 | 202 with `null` after the store's counter update; 500 exactly when a counter is named and the user has no statistics |
| Routers.Serve | endpoints/routers.py:22-324 | when `header_controller` raises, that 401 is the answer and nothing changes or is scheduled; whichever route runs, only an HTTPException escapes and the store invariant is kept |
| Routers.ServeCorrected | endpoints/routers.py:140-267 | the same gate and HTTPException-only escape, with the corrected profile delete, back-pad upload and drop handlers |

## Left out

- Routers.Serve, Routers.GetUserProfile, Routers.UpdateUserProfile, Routers.DeleteUserProfileAsWritten, Routers.AddUsersAvatars, Routers.DeleteAvatar, Routers.AddUsersBackPadAsWritten, Routers.AddFireBaseToken: the model assumes a principal provider that works. The source's `get_user_by_token` returns `TokenData.model_dump(payload)` (helpers/security.py:43), which calls an instance method with the decoded dict as `self` and raises AttributeError for every token that decodes. That happens in the dependency, outside `router_decorator`, so as written each of these routes answers 500 before its handler runs. The model describes the handlers as they would run with a principal, evidently via `TokenData.model_validate(payload)`.
- Routers.DropUnverifiedUserAsWritten, Routers.DropUnverifiedUser, Routers.GetUserProfile (as the service route), Routers.UpdateStatistic: an account id is its canonical uuid text, compared as a string. A client-supplied id that is no uuid is rejected by the database as a bound parameter (DataError, 500 in the source); the model instead finds no account (200 for the drop routes, IndexError or TypeError for the others). A non-canonical spelling of an existing uuid (upper case, no hyphens) matches its row in the source but not in the model.

- Dto.ValidateUserCreate: EmailStr's normalisation of the address (the domain is lower-cased) is not modelled; the model keeps the address as sent, also in the e-mail task.
- Database.ProfileStore.UpdateUserProfile: a key naming one of the profile's other columns (id, accountId, gender, dateOfBirth) is treated like a name that is no column. No UpdateUsersView can produce such a key.
- Database.ProfileStore.UpdateUserProfile: the exception class of an UPDATE with no SET column is modelled as ProgrammingError; any such non-HTTP exception reaches the client as 500.

- FastAPI routing, dependency injection and response serialisation. Responses are modelled as
  status code plus JSON fields. Request-body validation failures (422) happen before a handler
  runs and belong to pydantic.
- The Redis cache (`@cache(expire=30)`) on the two profile reads: an external store with a
  wall-clock expiry. Each read goes to the store. A stale cached view would reach
  `add_users_avatars`; that handler's contract already covers an account that no longer exists.
- JWT decoding and bcrypt hashing: the principal is an input and the hash an opaque function.
- RabbitMQ I/O: the connection, message framing and delivery. A publication is the
  (routing key, payload) pair that would be sent. Python class attributes of `Exchanges` other
  than its two members are not modelled.
- The community-service registration inside create_user's background task. It is an HTTP call
  with unbounded retry.
- `asyncio.gather` interleaving in that task: the two publications are listed in source order.
- Settings loading and connection pools. MODE, the links, the bucket names and X_ACCESS_TOKEN
  are inputs.
- The geography seeding in `create_tables` (CSV and pandas I/O). Its guard never fires.
- Concurrency: lost updates in `update_statistic` under concurrent requests. The model is
  sequential.
- Logging and timing in `router_decorator`.
- Interleaved storage failures: a storage client error is one boolean for the whole request.
  Botocore's ClientError is not a Boto3Error and would propagate; it is treated like a swallowed
  error.
- Database.ProfileStore.DeleteAvatar: the repeated delete statement (database/interface.py:115)
  is not modelled separately. It matches no row the second time, so it changes nothing.
- Messages of SQLAlchemy and pydantic errors are abbreviated; their class names are exact.
- messages/notifications.py is modelled only as the `Dto.DropUser` record.

## Findings

| source | as written | input that shows it | evidently intended | confidence | as-written member | corrected member |
|---|---|---|---|---|---|---|
| endpoints/dto.py:43-45 | `gender: GenderType = Field("m")` gives a default that pydantic never validates, so an omitted gender stays the str "m" and `body.gender.value` (database/interface.py:31) raises AttributeError | POST /profile/ with a valid body that has no `gender`: 500, no account | an omitted gender means male | high (not executed) | Dto.ValidateUserCreate, Dto.OmittedGenderStaysRaw, Routers.CreateUser | Dto.ValidateUserCreateWithDefaults, Dto.WithDefaultsRoundTrip |
| endpoints/routers.py:240-242 | the back-pad is uploaded under the fixed key `{id}-back_pad.png` before `update_back_pad` deletes the object of the old link | a user whose back-pad was replaced once uploads a new one: the old link is the same key's URL, so the new upload is deleted | the old object is removed and the new back-pad stays stored | high (not executed) | Routers.AddUsersBackPadAsWritten, Routers.SecondBackPadReplacementDeletesUpload | Routers.AddUsersBackPad, Routers.CorrectedBackPadKeepsUpload |
| endpoints/routers.py:149-162 | `_delete_user_profile` is defined but never called, so the handler returns None | any authenticated DELETE /profile/: 200 `null`, the account remains | delete the account, publish the drop notification, answer 200 "deleted" | high (not executed) | Routers.DeleteUserProfileAsWritten | Routers.DeleteUserProfile |
| endpoints/routers.py:265 | `publish_message(data)` is scheduled without its `queue` argument | any DELETE /profile/drop/{id}: the background task raises TypeError and no drop notice is published | publish to the "notification" exchange like the other drop notice (endpoints/routers.py:155) | high (not executed) | Routers.DropUnverifiedUserAsWritten, Routers.DropNoticeAsWrittenIsLost | Routers.DropUnverifiedUser, Routers.DropNoticeIsSent |
