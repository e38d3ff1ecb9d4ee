# Follow graph of the user module — a Dafny model

This project models the user module of a social-networking backend. It covers the
follow graph kept by the user service, the request guards of the user controller
in front of it, and the mapper that turns stored users into responses.

Each user record holds two lists of ids. `following` names the users it follows and
`followers` names the users who follow it. A follow is therefore recorded twice,
once on each side. The model proves that the service keeps the two sides in
agreement (symmetry), that neither list ever holds an id twice, and that the
unique indexes on username and email survive every update. It also proves that
the controller's guard, together with the service, keeps every user out of its own
lists (irreflexivity), provided the guard compares the ids the service looks up
(see "## Findings"). The service alone does not.

Files and modules:

- `wrappers.dfy` — `Wrappers`: `Option` and `Result`.
- `lists.dfy` — `Lists`: the two array expressions the service uses on id lists,
  `filter(f => !f.equals(x))` (`Without`) and `filter(f => other.some(...))`
  (`Retain`), with their laws.
- `users.dfy` — `Users`: the id cast (`Canon`), the stored record (`UserRecord`) and the collection
  (`Directory = map<Id, UserRecord>`). It also has the document shape the mapper
  receives (`UserDoc`) and the three read shapes the service uses: the whole
  document, the document without the password, and the
  username/email/picture projection.
- `dto.dfy` — `Dto`: the update request and the three response shapes. None of
  them has a password field.
- `mapper.dfy` — `Mapper`: the three projections and lemmas about them.
- `directory.dfy` — `UserDirectory`: every service operation as a function of
  the collection's value, the graph invariants, and the lemmas that the
  operations keep them.
- `service.dfy` — `Service`: class `UserService`. It owns the collection in a
  field, and its methods change that field in place. Each method is proved to end
  in exactly the state the matching `UserDirectory` function describes. Each one
  also keeps `Valid()`.
- `controller.dfy` — `Controller`: the follow, unfollow and search guards, and
  the 404 replies of the three lookups. It also composes each guard with the
  service and proves that the invariants hold after any sequence of requests.

Modelling decisions:

- Stored ids are canonical strings: the lower-case hex form of an ObjectId. The
  service casts every id string it is given to an ObjectId (`findById`, `new
  Types.ObjectId`), and the cast accepts hex digits in either case. The model
  writes that cast as `Users.Canon` and applies it where request strings reach
  the service, in the controller handlers; the `UserDirectory` operations and
  the `UserService` methods take canonical ids.
- Follow and unfollow each save two records one after the other. The model applies
  both saves as one atomic update of the map.
- When actor and target of a follow are the same user, the service loads that
  record twice, and each save is a `$push` onto one list. The model therefore
  applies both pushes to that one record. The same case of unfollow is different;
  see `UserDirectory.Unfollow` under "## Left out".
- Deleting a user does not remove its id from other users' lists. The model
  follows the code here. The invariants therefore range over stored users only.
  `DeleteLeavesStaleCount` shows the effect: a stale id still counts in
  `followingCount` but is not listed by getFollowing.
- Populating a list of ids drops ids that no longer resolve and keeps list order
  (`ResolveAppend`).
- The `$in` query for mutual followers returns documents in the store's order,
  so that result is modelled as a set.
- The username and email columns carry unique indexes (users schema). A profile
  update that would break them is rejected by the store. The model returns this as
  `DuplicateKey`. The same invariant is what makes lookup by username or email
  return at most one user.

Three facts about the code that the model keeps as they are:

- The service has no self-follow check (src/modules/user/service/user.service.ts:54-64).
  The controller holds it (src/modules/user/controller/user.controller.ts:123-126, 147-150).
- Deleting a user leaves other users' lists alone (src/modules/user/service/user.service.ts:103-107).
- The service throws plain `Error`s. The model's error kinds only name the branches
  they come from.

## Model

| member | source | states |
|---|---|---|
| `Lists.Without` | src/modules/user/service/user.service.ts:81-82 | the filtered list holds exactly the elements of the input other than the removed id |
| `Lists.WithoutMultiset` | src/modules/user/service/user.service.ts:81-82 | filtering removes every copy of the id and keeps every other element as often as it occurred |
| `Lists.WithoutAppend` | src/modules/user/service/user.service.ts:81-82 | filtering distributes over concatenation, so the relative order of the remaining ids is kept |
| `Lists.WithoutAbsent` | src/modules/user/service/user.service.ts:81-82 | removing an id that is not in the list returns the list unchanged |
| `Lists.WithoutNoDuplicates` | src/modules/user/service/user.service.ts:81-82 | filtering a duplicate-free list leaves it duplicate-free |
| `Lists.WithoutLength` | src/modules/user/service/user.service.ts:81-82 | removing a present id from a duplicate-free list shortens it by exactly one |
| `Lists.NoDuplicatesAppend` | src/modules/user/service/user.service.ts:63-64 | pushing an id that is not yet present keeps the list duplicate-free |
| `Lists.Retain` | src/modules/user/service/user.service.ts:95-97 | the filter keeps exactly the ids of the first list that also occur in the second, and is no longer than the first |
| `Users.Canon` | src/modules/user/service/user.service.ts:55-58 | the cast id has the length of the string, holds no upper-case hex digit, and differs from the string only by lowering hex digits |
| `Users.CanonIdempotent` | src/modules/user/service/user.service.ts:55-58 | casting an id that is already canonical leaves it unchanged |
| `Users.Load` | src/modules/user/service/user.service.ts:13 | a plain lookup by id returns every field of the record, the password included |
| `Users.LoadPublic` | src/modules/user/service/user.service.ts:8 | `select("-password")` returns every field except the password |
| `Users.LoadSummary` | src/modules/user/service/user.service.ts:43 | the populate projection returns only id, username, email and picture; bio, password and both lists are absent |
| `Mapper.ToUserResponse` | src/modules/user/mapper/user.mapper.ts:4-15 | the full profile copies id, username, email, bio and picture unchanged; both counts are the list lengths, 0 when a list was not loaded |
| `Mapper.ToFollowerResponse` | src/modules/user/mapper/user.mapper.ts:18-25 | the list summary copies id, username, email and picture unchanged |
| `Mapper.ToSearchResponse` | src/modules/user/mapper/user.mapper.ts:27-34 | the search summary copies id, username, email and picture unchanged |
| `Mapper.PasswordNeverProjected` | src/modules/user/mapper/user.mapper.ts:4-34 | none of the three responses depends on the password, whether the document carries it or not |
| `Mapper.FollowerAndSearchAgree` | src/modules/user/mapper/user.mapper.ts:18-34 | the follower summary and the search summary of the same document are equal field for field |
| `Mapper.StoredRecordResponse` | src/modules/user/mapper/user.mapper.ts:4-15 | for a stored record the counts equal the lengths of its followers and following lists, and the profile is the same whether or not the password was loaded |
| `UserDirectory.Follow` | src/modules/user/service/user.service.ts:54-70 | NotFound exactly when either user is missing; AlreadyFollowing exactly when the target is already followed; success exactly when both exist and the target is not yet followed, and then the target goes to the end of the actor's following list and the actor to the end of the target's followers list, and nothing else changes |
| `UserDirectory.FollowKeepsConsistent` | src/modules/user/service/user.service.ts:61-64 | a successful follow keeps symmetry, duplicate-free lists and unique names |
| `UserDirectory.FollowKeepsIrreflexive` | src/modules/user/service/user.service.ts:63-64 | a follow between two different users keeps every user out of its own lists |
| `UserDirectory.SelfFollowBreaksIrreflexive` | src/modules/user/service/user.service.ts:54-64 | the service on its own accepts a self-follow, and the user then follows itself |
| `UserDirectory.FollowTwice` | src/modules/user/service/user.service.ts:61 | a second identical follow fails with AlreadyFollowing, and the target occurs exactly once in the actor's list |
| `UserDirectory.Unfollow` | src/modules/user/service/user.service.ts:72-88 | NotFound exactly when either user is missing; NotFollowing exactly when the target is not followed; success exactly when both exist and the target is followed, and then every copy of the target leaves the actor's following list and every copy of the actor leaves the target's followers list, and nothing else changes |
| `UserDirectory.UnfollowKeepsConsistent` | src/modules/user/service/user.service.ts:79-82 | a successful unfollow keeps symmetry, duplicate-free lists and unique names |
| `UserDirectory.UnfollowKeepsIrreflexive` | src/modules/user/service/user.service.ts:81-82 | an unfollow never makes a user follow itself |
| `UserDirectory.UnfollowUndoesFollow` | src/modules/user/service/user.service.ts:54-88 | unfollowing right after a successful follow of the same pair restores the whole collection exactly |
| `UserDirectory.Summary` | src/modules/user/service/user.service.ts:43-45 | the summary of a stored user carries its id, username, email and picture |
| `UserDirectory.Resolve` | src/modules/user/service/user.service.ts:43-45 | the populated list holds the summary of each listed id that is still stored, nothing else, and is shorter than the id list exactly when some id no longer resolves |
| `UserDirectory.ResolveAppend` | src/modules/user/service/user.service.ts:43-45 | populating a concatenation of id lists gives the two populated lists one after the other, so list order is kept |
| `UserDirectory.Followers` | src/modules/user/service/user.service.ts:42-46 | NotFound exactly for a missing user; otherwise the populated followers list, so an empty list gives an empty result |
| `UserDirectory.Following` | src/modules/user/service/user.service.ts:48-52 | NotFound exactly for a missing user; otherwise the populated following list, so an empty list gives an empty result |
| `UserDirectory.FollowersAreWhoFollow` | src/modules/user/service/user.service.ts:42-46 | in a symmetric graph a stored user is listed among X's followers exactly when it follows X |
| `UserDirectory.FollowingAreWhoAreFollowed` | src/modules/user/service/user.service.ts:48-52 | in a symmetric graph a stored user is listed in X's following exactly when X is among its followers |
| `UserDirectory.MutualFollowers` | src/modules/user/service/user.service.ts:90-101 | NotFound when either user is missing; otherwise the set of summaries of stored users in A's following list and B's followers list, which may be empty |
| `UserDirectory.MutualFollowersMeaning` | src/modules/user/service/user.service.ts:95-97 | in a symmetric graph the mutual followers of A and B are the users A follows who follow B |
| `UserDirectory.MutualFollowersIsDirected` | src/modules/user/service/user.service.ts:95-97 | there is a consistent collection where the mutual followers of (A, B) and of (B, A) differ |
| `UserDirectory.Patched` | src/modules/user/service/user.service.ts:16-19 | username and email are replaced only by a non-empty value, bio and picture by any present value; password and both lists are untouched |
| `UserDirectory.UpdateProfile` | src/modules/user/service/user.service.ts:12-23 | NotFound for a missing user; DuplicateKey exactly when the patched record would share a username or email with another user; success exactly when neither holds, and then only that record is replaced and its public profile returned |
| `UserDirectory.EmptyUpdateChangesNothing` | src/modules/user/service/user.service.ts:16-22 | an update with no fields stores the same collection and returns the user's current profile |
| `UserDirectory.UpdateKeepsConsistent` | src/modules/user/service/user.service.ts:12-23 | a successful update keeps every invariant, irreflexivity included, and leaves every follow list as it was |
| `UserDirectory.ReplaceKeepsUnique` | src/modules/user/model/user.model.ts:4-5 | storing a record whose username and email no other user holds keeps both unique indexes |
| `UserDirectory.Delete` | src/modules/user/service/user.service.ts:103-107 | NotFound for a missing id; otherwise only that key is removed and every other record is untouched |
| `UserDirectory.DeleteKeepsConsistent` | src/modules/user/service/user.service.ts:103-107 | deletion keeps every invariant over the users that remain |
| `UserDirectory.DeleteLeavesStaleCount` | src/modules/user/service/user.service.ts:103-107 | after deleting a user that A followed, A's list still holds the id and A's following count still counts it, but A's populated following list is shorter |
| `UserDirectory.UserById` | src/modules/user/service/user.service.ts:7-10 | a profile exactly when the id is stored, and then the public profile of that record |
| `UserDirectory.UserByUsername` | src/modules/user/service/user.service.ts:25-28 | a profile exactly when some stored user has that username, and then that user's public profile |
| `UserDirectory.UserByEmail` | src/modules/user/service/user.service.ts:37-40 | a profile exactly when some stored user has that email, and then that user's public profile |
| `UserDirectory.FollowCounts` | src/modules/user/service/user.service.ts:63-64 | after a follow the actor's following count and the target's followers count each grow by one, and their other counts stay the same |
| `UserDirectory.UnfollowCounts` | src/modules/user/service/user.service.ts:81-82 | after an unfollow in a consistent graph both counts drop by exactly one |
| `Service.UserService.constructor` | src/modules/user/service/user.service.ts:6 | a service starts over a collection that keeps the invariant, and `Valid()` holds |
| `Service.UserService.FollowUser` | src/modules/user/service/user.service.ts:54-70 | the collection becomes the one `Follow` gives, or stays as it was with the same error, and the invariant `Valid()` holds afterwards |
| `Service.UserService.UnfollowUser` | src/modules/user/service/user.service.ts:72-88 | the collection becomes the one `Unfollow` gives, or stays as it was with the same error, and the invariant `Valid()` holds afterwards |
| `Service.UserService.UpdateUserProfile` | src/modules/user/service/user.service.ts:12-23 | the collection and the returned profile are those of `UpdateProfile`, or the collection is unchanged with the same error, and the invariant `Valid()` holds afterwards |
| `Service.UserService.DeleteUser` | src/modules/user/service/user.service.ts:103-107 | the collection becomes the one `Delete` gives, or stays as it was with NotFound, and the invariant `Valid()` holds afterwards |
| `Controller.RelationGuardAsWritten` | src/modules/user/controller/user.controller.ts:118-126 | the guard as written: the service is called exactly when the target is present, non-empty and a different string from the caller's id; a missing or empty target is reported before the self check |
| `Controller.RelationGuard` | src/modules/user/controller/user.controller.ts:118-126 | corrected guard: the service is called exactly when the target is present, non-empty and denotes a different id once cast; a missing or empty target is reported before the self check |
| `Controller.RelationGuardRefinesAsWritten` | src/modules/user/controller/user.controller.ts:123-126 | every request the written guard rejects, the corrected guard rejects with the same message |
| `Controller.FollowGuard` | src/modules/user/controller/user.controller.ts:118-126 | corrected guard (see "## Findings"): followUser calls the service exactly for a present, non-empty target that is not the caller once cast, and otherwise answers one of its two messages |
| `Controller.UnfollowGuard` | src/modules/user/controller/user.controller.ts:142-150 | corrected guard (see "## Findings"): unfollowUser calls the service exactly for a present, non-empty target that is not the caller once cast, and otherwise answers one of its two messages |
| `Controller.FollowAndUnfollowGuardsAgree` | src/modules/user/controller/user.controller.ts:142-150 | unfollow rejects the same requests as follow, for the same reason and in the same order |
| `Controller.TrimStart` | src/modules/user/controller/user.controller.ts:59 | the result is a suffix of the input, does not start with white space, and only white space was cut |
| `Controller.TrimEnd` | src/modules/user/controller/user.controller.ts:59 | the result is a prefix of the input, does not end with white space, and only white space was cut |
| `Controller.Trim` | src/modules/user/controller/user.controller.ts:59 | `trim()` leaves no white space at either end and returns the empty string exactly when the input is all white space |
| `Controller.SearchGuard` | src/modules/user/controller/user.controller.ts:59-62 | a bad request exactly when the query is absent, empty or all white space |
| `Controller.GetUserByIdReply` | src/modules/user/controller/user.controller.ts:13-16 | 404 exactly when the id is not stored, otherwise that user's profile |
| `Controller.GetUserByUsernameReply` | src/modules/user/controller/user.controller.ts:43-46 | 404 exactly when no stored user has the username, otherwise a profile with that username |
| `Controller.GetUserByEmailReply` | src/modules/user/controller/user.controller.ts:76-79 | 404 exactly when no stored user has the email, otherwise a profile with that email |
| `Controller.HandleFollowAsWritten` | src/modules/user/controller/user.controller.ts:118-128 | the follow handler as written rejects exactly what the raw-string guard rejects, and a rejection changes nothing; a request it passes gets the reply and the collection of `Follow` on the cast ids |
| `Controller.AsWrittenAdmitsSelfFollow` | src/modules/user/controller/user.controller.ts:123-128 | two spellings of one id that differ as strings pass the written guard, the follow succeeds, and the user then follows itself |
| `Controller.MixedCaseSpellings` | src/modules/user/service/user.service.ts:55-58 | the lower-case and upper-case hex spellings of one ObjectId differ as strings and cast to the same id |
| `Controller.LookupReplyOf` | src/modules/user/controller/user.controller.ts:13-16 | a missing user is answered with 404 and the message "User not found", a found one with its profile |
| `Controller.HandleFollow` | src/modules/user/controller/user.controller.ts:118-128 | corrected guard (see "## Findings"): a request is rejected exactly when the guard says so and then changes nothing; a request the guard passes gets the reply and the collection of `Follow` on the cast ids |
| `Controller.HandleUnfollow` | src/modules/user/controller/user.controller.ts:142-152 | corrected guard (see "## Findings"): a request is rejected exactly when the guard says so and then changes nothing; a request the guard passes gets the reply and the collection of `Unfollow` on the cast ids |
| `Controller.SelfFollowRejected` | src/modules/user/controller/user.controller.ts:123-150 | corrected guard (see "## Findings"): following or unfollowing oneself, in any spelling of one's own id, is a bad request and changes nothing |
| `Controller.GuardedFollowKeepsInvariant` | src/modules/user/controller/user.controller.ts:118-128 | corrected guard (see "## Findings"): the guarded follow keeps symmetry, duplicate-free lists, unique names and irreflexivity |
| `Controller.GuardedUnfollowKeepsInvariant` | src/modules/user/controller/user.controller.ts:142-152 | corrected guard (see "## Findings"): the guarded unfollow keeps symmetry, duplicate-free lists, unique names and irreflexivity |
| `Controller.Step` | src/modules/user/controller/user.controller.ts:25-182 | handling one follow, unfollow, update or delete request never adds a user |
| `Controller.Run` | src/modules/user/controller/user.controller.ts:25-182 | handling a sequence of such requests never adds a user |
| `Controller.RunKeepsInvariant` | src/modules/user/controller/user.controller.ts:25-182 | corrected guard (see "## Findings"): after any sequence of follow, unfollow, update and delete requests, all four invariants still hold |

## Left out

- Persistence: MongoDB, Mongoose queries and ObjectId parsing. These are replaced by lookups in a map.
- A malformed id makes the cast fail and the request end in a server error. This is not part of the model.
- Spellings of an id other than a difference in the case of its hex digits (a 12-byte string, an ObjectId object) are not modelled; `Users.Canon` covers only the hex case.
- `UserDirectory.Unfollow`: when actor and target are the same user, both removals are modelled as landing on the one record. In the code each save replaces a whole array. Mongoose versions such saves, so the second save, made from the copy loaded before the first, most likely fails with a version error after only `following` was written. The corrected guard cannot reach this case; the unfollow handler as written can, with two spellings of one id (see "## Findings").
- The two separate saves of follow and unfollow are one atomic step here. The window between them, where a crash or a concurrent request could see one side updated, is not captured. Concurrency in general is left out.
- searchUsers in the service passes the query to the store as a case-insensitive regular expression. That matching is regex-engine behaviour and is left out. Only the controller's empty-query guard is modelled, and `ToSearchResponse` is modelled as a projection.
- Timestamps (`createdAt`, `updatedAt`) and the pre-save hook depend on the clock and are left out.
- The mapping of thrown errors to HTTP 500 happens in the base controller, and the base controller is not part of this model. The error kinds stand for the thrown messages.
- JSON values that are not strings are left out. This covers a numeric or `null` target id, an array-valued query, and a `bio: null` update. Optional fields are modelled as absent or a string.
- Registration (auth), posts, comments, the route tables, the database connection and environment loading are outside the user module's core and are left out.
- `Controller.RunKeepsInvariant`: it starts from a collection that already keeps the invariants. Nothing in the system guarantees that start. Registration stores `new User(req.body)` (src/modules/auth/controller/auth.controller.ts:45), so it keeps whatever `followers` and `following` lists the request carries, and that step is not modelled.
- The followers, following, mutual and delete handlers that only forward to the service have no logic of their own, so they are not modelled separately.
- `UserDirectory.MutualFollowers`: the result is a set, because the store returns the documents in its own order. The order of the response list is not modelled.
- `Controller.RelationGuard`: `!targetUserId` rejects every falsy JSON value, but only an absent target and the empty string are modelled.

## Findings

| source | as written | input that shows it | evidently intended | confidence | as-written member | corrected member |
|---|---|---|---|---|---|---|
| src/modules/user/controller/user.controller.ts:123-126 | the self-follow check compares `userId === targetUserId` as raw strings, while the service casts both strings to ObjectIds before it looks them up (src/modules/user/service/user.service.ts:55-58) | path id `507f1f77bcf86cd799439011` with `targetUserId: "507F1F77BCF86CD799439011"`: the strings differ, both cast to the same stored user, the follow succeeds, and the user follows itself | a request whose target denotes the caller, in any spelling, is rejected as a self-follow, so no user ever follows itself | medium, not executed | `Controller.AsWrittenAdmitsSelfFollow` | `Controller.RelationGuard` |

`Controller.AsWrittenAdmitsSelfFollow` is stated on `Controller.HandleFollowAsWritten`, and `Controller.MixedCaseSpellings` gives the pair of spellings. For the corrected guard, `Controller.SelfFollowRejected` rejects every spelling of the caller's id and `Controller.GuardedFollowKeepsInvariant` keeps irreflexivity. The unfollow handler makes the same raw comparison (src/modules/user/controller/user.controller.ts:147-150). The corrected guard serves both handlers, and `Controller.RunKeepsInvariant` is proved for it.
