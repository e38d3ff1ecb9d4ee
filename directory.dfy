/**
 * What each user-service operation does to the users collection, as functions
 * of the collection's value, and the invariants of the follow graph.
 *
 * The follow relation is stored twice: `b in d[a].following` on the actor and
 * `a in d[b].followers` on the target. Deleting a user does not remove its id
 * from other users' lists, so the invariants speak only of users that are
 * still stored.
 */
module UserDirectory {
  import opened Wrappers
  import opened Users
  import opened Dto
  import opened Lists
  import opened Mapper

  /** The errors the service throws. */
  datatype ServiceError =
    | NotFound          // "User not found"
    | AlreadyFollowing  // "Already following this user"
    | NotFollowing      // "You are not following this user"
    | DuplicateKey      // the unique index on username or email rejects the save

  // ---------------------------------------------------------------------------
  // Invariants

  /** `b` follows `a` on `a`'s side exactly when it does on `b`'s side. */
  ghost predicate Symmetric(d: Directory)
  {
    forall a, b :: a in d && b in d ==> (b in d[a].following <==> a in d[b].followers)
  }

  /** Both lists of every user hold each id at most once. */
  ghost predicate ListsAreSets(d: Directory)
  {
    forall a :: a in d ==> NoDuplicates(d[a].followers) && NoDuplicates(d[a].following)
  }

  /** No user follows itself. */
  ghost predicate Irreflexive(d: Directory)
  {
    forall a :: a in d ==> a !in d[a].following && a !in d[a].followers
  }

  /** The unique indexes on username and email. */
  ghost predicate UniqueNames(d: Directory)
  {
    && (forall a, b :: a in d && b in d && d[a].username == d[b].username ==> a == b)
    && (forall a, b :: a in d && b in d && d[a].email == d[b].email ==> a == b)
  }

  /** What the service keeps on its own. Irreflexivity needs the controller's guard as well. */
  ghost predicate Consistent(d: Directory)
  {
    Symmetric(d) && ListsAreSets(d) && UniqueNames(d)
  }

  // ---------------------------------------------------------------------------
  // Follow and unfollow

  /**
   * followUser: both users must exist and `b` must not be followed yet; then
   * `b` goes to the end of `a`'s following and `a` to the end of `b`'s
   * followers. Both changes land even when `a == b`.
   */
  function Follow(d: Directory, a: Id, b: Id): (r: Result<Directory, ServiceError>)
    ensures r == Err(NotFound) <==> a !in d || b !in d
    ensures r == Err(AlreadyFollowing) <==> a in d && b in d && b in d[a].following
    ensures r.Ok? <==> a in d && b in d && b !in d[a].following
    ensures r.Ok? ==> r.value.Keys == d.Keys
    ensures r.Ok? ==> forall k :: k in d && k != a && k != b ==> r.value[k] == d[k]
    ensures r.Ok? && a != b ==>
      && r.value[a] == d[a].(following := d[a].following + [b])
      && r.value[b] == d[b].(followers := d[b].followers + [a])
    ensures r.Ok? && a == b ==>
      r.value[a] == d[a].(following := d[a].following + [a], followers := d[a].followers + [a])
  {
    if a !in d || b !in d then Err(NotFound)
    else if b in d[a].following then Err(AlreadyFollowing)
    else
      var d1 := d[a := d[a].(following := d[a].following + [b])];
      Ok(d1[b := d1[b].(followers := d1[b].followers + [a])])
  }

  /**
   * unfollowUser: both users must exist and `b` must be followed; then every
   * `b` leaves `a`'s following and every `a` leaves `b`'s followers.
   */
  function Unfollow(d: Directory, a: Id, b: Id): (r: Result<Directory, ServiceError>)
    ensures r == Err(NotFound) <==> a !in d || b !in d
    ensures r == Err(NotFollowing) <==> a in d && b in d && b !in d[a].following
    ensures r.Ok? <==> a in d && b in d && b in d[a].following
    ensures r.Ok? ==> r.value.Keys == d.Keys
    ensures r.Ok? ==> forall k :: k in d && k != a && k != b ==> r.value[k] == d[k]
    ensures r.Ok? && a != b ==>
      && r.value[a] == d[a].(following := Without(d[a].following, b))
      && r.value[b] == d[b].(followers := Without(d[b].followers, a))
    ensures r.Ok? && a == b ==>
      r.value[a] == d[a].(following := Without(d[a].following, a), followers := Without(d[a].followers, a))
    ensures r.Ok? ==> b !in r.value[a].following && a !in r.value[b].followers
  {
    if a !in d || b !in d then Err(NotFound)
    else if b !in d[a].following then Err(NotFollowing)
    else
      var d1 := d[a := d[a].(following := Without(d[a].following, b))];
      Ok(d1[b := d1[b].(followers := Without(d1[b].followers, a))])
  }

  /** Changing only the follow lists keeps the unique indexes. */
  lemma SameNamesKeepUnique(d: Directory, e: Directory)
    requires UniqueNames(d) && e.Keys == d.Keys
    requires forall x :: x in e ==> e[x].username == d[x].username && e[x].email == d[x].email
    ensures UniqueNames(e)
  {
  }

  /** Which edges a follow leaves: the old ones and the new one. */
  lemma FollowEdges(d: Directory, a: Id, b: Id, x: Id, y: Id)
    requires Follow(d, a, b).Ok? && x in d && y in d
    ensures var e := Follow(d, a, b).value;
      && (y in e[x].following <==> y in d[x].following || (x == a && y == b))
      && (x in e[y].followers <==> x in d[y].followers || (x == a && y == b))
  {
  }

  /** A successful follow keeps the graph consistent. */
  lemma FollowKeepsConsistent(d: Directory, a: Id, b: Id)
    requires Consistent(d) && Follow(d, a, b).Ok?
    ensures Consistent(Follow(d, a, b).value)
  {
    var e := Follow(d, a, b).value;
    assert a !in d[b].followers;
    forall x, y | x in e && y in e ensures y in e[x].following <==> x in e[y].followers {
      FollowEdges(d, a, b, x, y);
    }
    FollowKeepsSets(d, a, b);
    SameNamesKeepUnique(d, e);
  }

  lemma FollowKeepsSets(d: Directory, a: Id, b: Id)
    requires Symmetric(d) && ListsAreSets(d) && Follow(d, a, b).Ok?
    ensures ListsAreSets(Follow(d, a, b).value)
  {
    var e := Follow(d, a, b).value;
    assert a !in d[b].followers;
    forall x | x in e ensures NoDuplicates(e[x].followers) && NoDuplicates(e[x].following) {
      if x == a { NoDuplicatesAppend(d[a].following, b); }
      if x == b { NoDuplicatesAppend(d[b].followers, a); }
    }
  }

  /** A follow between two different users cannot make anyone follow itself. */
  lemma FollowKeepsIrreflexive(d: Directory, a: Id, b: Id)
    requires Irreflexive(d) && a != b && Follow(d, a, b).Ok?
    ensures Irreflexive(Follow(d, a, b).value)
  {
  }

  /** The service alone lets a user follow itself: the check lives only in the controller. */
  lemma SelfFollowBreaksIrreflexive(d: Directory, a: Id)
    requires Follow(d, a, a).Ok?
    ensures !Irreflexive(Follow(d, a, a).value)
  {
  }

  /**
   * Following twice: the second call fails with AlreadyFollowing, and the
   * target occurs exactly once in the actor's following list.
   */
  lemma FollowTwice(d: Directory, a: Id, b: Id)
    requires Consistent(d) && Follow(d, a, b).Ok?
    ensures var e := Follow(d, a, b).value;
      Follow(e, a, b) == Err(AlreadyFollowing) && multiset(e[a].following)[b] == 1
  {
  }

  /** Which edges an unfollow leaves: all but the removed one. */
  lemma UnfollowEdges(d: Directory, a: Id, b: Id, x: Id, y: Id)
    requires Unfollow(d, a, b).Ok? && x in d && y in d
    ensures var e := Unfollow(d, a, b).value;
      && (y in e[x].following <==> y in d[x].following && !(x == a && y == b))
      && (x in e[y].followers <==> x in d[y].followers && !(x == a && y == b))
  {
  }

  /** A successful unfollow keeps the graph consistent. */
  lemma UnfollowKeepsConsistent(d: Directory, a: Id, b: Id)
    requires Consistent(d) && Unfollow(d, a, b).Ok?
    ensures Consistent(Unfollow(d, a, b).value)
  {
    var e := Unfollow(d, a, b).value;
    forall x, y | x in e && y in e ensures y in e[x].following <==> x in e[y].followers {
      UnfollowEdges(d, a, b, x, y);
    }
    UnfollowKeepsSets(d, a, b);
    SameNamesKeepUnique(d, e);
  }

  lemma UnfollowKeepsSets(d: Directory, a: Id, b: Id)
    requires ListsAreSets(d) && Unfollow(d, a, b).Ok?
    ensures ListsAreSets(Unfollow(d, a, b).value)
  {
    var e := Unfollow(d, a, b).value;
    forall x | x in e ensures NoDuplicates(e[x].followers) && NoDuplicates(e[x].following) {
      if x == a { WithoutNoDuplicates(d[a].following, b); WithoutNoDuplicates(d[a].followers, a); }
      if x == b { WithoutNoDuplicates(d[b].followers, a); }
    }
  }

  /** Unfollowing only removes ids, so nobody starts following itself. */
  lemma UnfollowKeepsIrreflexive(d: Directory, a: Id, b: Id)
    requires Irreflexive(d) && Unfollow(d, a, b).Ok?
    ensures Irreflexive(Unfollow(d, a, b).value)
  {
  }

  /** Unfollowing right after a successful follow of the same pair restores the collection exactly. */
  lemma UnfollowUndoesFollow(d: Directory, a: Id, b: Id)
    requires Symmetric(d) && Follow(d, a, b).Ok?
    ensures Unfollow(Follow(d, a, b).value, a, b) == Ok(d)
  {
    var e := Follow(d, a, b).value;
    assert a !in d[b].followers;
    assert Without(d[a].following + [b], b) == d[a].following by {
      WithoutAppend(d[a].following, [b], b);
      WithoutAbsent(d[a].following, b);
    }
    assert Without(d[b].followers + [a], a) == d[b].followers by {
      WithoutAppend(d[b].followers, [a], a);
      WithoutAbsent(d[b].followers, a);
    }
    var f := Unfollow(e, a, b).value;
    assert f[a] == d[a] && f[b] == d[b];
    assert f == d;
  }

  // ---------------------------------------------------------------------------
  // Listing followers, following and mutual followers

  /** The list summary of a stored user. */
  function Summary(d: Directory, id: Id): (r: FollowerResponse)
    requires id in d
    ensures r.id == id && r.username == d[id].username && r.email == d[id].email
    ensures r.profilePicture == Some(d[id].profilePicture)
  {
    ToFollowerResponse(LoadSummary(id, d[id]))
  }

  /**
   * Populating a list of ids: each id that still resolves becomes its
   * summary, in list order; ids of deleted users are dropped.
   * `ResolveAppend` states the order.
   */
  function Resolve(d: Directory, ids: seq<Id>): (r: seq<FollowerResponse>)
    ensures forall k :: 0 <= k < |r| ==> r[k].id in d && r[k].id in ids && r[k] == Summary(d, r[k].id)
    ensures forall id :: id in ids && id in d ==> Summary(d, id) in r
    ensures |r| <= |ids|
    ensures (forall id :: id in ids ==> id in d) ==> |r| == |ids|
    ensures (exists id :: id in ids && id !in d) ==> |r| < |ids|
  {
    if ids == [] then []
    else
      assert ids == [ids[0]] + ids[1..];
      (if ids[0] in d then [Summary(d, ids[0])] else []) + Resolve(d, ids[1..])
  }

  /** Populating a concatenation populates each part in turn, so list order is kept. */
  lemma {:induction false} ResolveAppend(d: Directory, s: seq<Id>, t: seq<Id>)
    ensures Resolve(d, s + t) == Resolve(d, s) + Resolve(d, t)
  {
    AppendParts(s, t);
    if s != [] {
      ResolveUnfold(d, s + t);
      ResolveUnfold(d, s);
      ResolveAppend(d, s[1..], t);
      AppendAssociative(if s[0] in d then [Summary(d, s[0])] else [], Resolve(d, s[1..]), Resolve(d, t));
    }
  }

  /** One step of populating: the first id, then the rest. */
  lemma ResolveUnfold(d: Directory, s: seq<Id>)
    requires s != []
    ensures Resolve(d, s) == (if s[0] in d then [Summary(d, s[0])] else []) + Resolve(d, s[1..])
  {
  }

  /** getFollowers: the summaries of a stored user's followers. */
  function Followers(d: Directory, id: Id): (r: Result<seq<FollowerResponse>, ServiceError>)
    ensures r.Err? <==> id !in d
    ensures r.Err? ==> r.error == NotFound
    ensures r.Ok? && d[id].followers == [] ==> r.value == []
    ensures r.Ok? ==> r.value == Resolve(d, d[id].followers)
  {
    if id !in d then Err(NotFound) else Ok(Resolve(d, d[id].followers))
  }

  /** getFollowing: the summaries of the users a stored user follows. */
  function Following(d: Directory, id: Id): (r: Result<seq<FollowerResponse>, ServiceError>)
    ensures r.Err? <==> id !in d
    ensures r.Err? ==> r.error == NotFound
    ensures r.Ok? && d[id].following == [] ==> r.value == []
    ensures r.Ok? ==> r.value == Resolve(d, d[id].following)
  {
    if id !in d then Err(NotFound) else Ok(Resolve(d, d[id].following))
  }

  /** In a symmetric graph, the followers listed for `id` are exactly the stored users who follow `id`. */
  lemma FollowersAreWhoFollow(d: Directory, id: Id, x: Id)
    requires Symmetric(d) && id in d && x in d
    ensures Summary(d, x) in Followers(d, id).value <==> id in d[x].following
  {
  }

  /** In a symmetric graph, the following list of `id` holds exactly the stored users whose followers contain `id`. */
  lemma FollowingAreWhoAreFollowed(d: Directory, id: Id, x: Id)
    requires Symmetric(d) && id in d && x in d
    ensures Summary(d, x) in Following(d, id).value <==> id in d[x].followers
  {
  }

  /**
   * getMutualFollowers: the users `a` follows who are also among `b`'s
   * followers, fetched again by id. The store returns them in its own order,
   * so the result is a set.
   */
  function MutualFollowers(d: Directory, a: Id, b: Id): (r: Result<set<FollowerResponse>, ServiceError>)
    ensures r.Err? <==> a !in d || b !in d
    ensures r.Err? ==> r.error == NotFound
    ensures r.Ok? ==> forall s :: s in r.value ==> s.id in d && s == Summary(d, s.id)
    ensures r.Ok? ==> forall x :: x in d ==>
      (Summary(d, x) in r.value <==> x in d[a].following && x in d[b].followers)
  {
    if a !in d || b !in d then Err(NotFound)
    else
      var mutuals := Retain(d[a].following, d[b].followers);
      Ok(set x | x in mutuals && x in d :: Summary(d, x))
  }

  /** In a symmetric graph, the mutual followers of `a` and `b` are the users `a` follows who follow `b`. */
  lemma MutualFollowersMeaning(d: Directory, a: Id, b: Id, x: Id)
    requires Symmetric(d) && a in d && b in d && x in d
    ensures Summary(d, x) in MutualFollowers(d, a, b).value <==> x in d[a].following && b in d[x].following
  {
  }

  /** Three users where "a" follows "c" and "c" follows "b". */
  function Chain(): (d: Directory)
  {
    var u := UserRecord("", "", None, "", "", [], []);
    map["a" := u.(username := "a", email := "a", following := ["c"]),
        "b" := u.(username := "b", email := "b", followers := ["c"]),
        "c" := u.(username := "c", email := "c", followers := ["a"], following := ["b"])]
  }

  lemma ChainSymmetric()
    ensures Symmetric(Chain())
  {
  }

  lemma ChainListsAreSets()
    ensures ListsAreSets(Chain())
  {
  }

  lemma ChainUniqueNames()
    ensures UniqueNames(Chain())
  {
    var d := Chain();
    assert d.Keys == {"a", "b", "c"};
    assert forall k :: k in d ==> d[k].username == k && d[k].email == k;
  }

  lemma ChainMutualsDiffer()
    ensures MutualFollowers(Chain(), "a", "b") != MutualFollowers(Chain(), "b", "a")
  {
    var d := Chain();
    assert Retain(d["a"].following, d["b"].followers) == ["c"];
    assert Retain(d["b"].following, d["a"].followers) == [];
    assert Summary(d, "c") in MutualFollowers(d, "a", "b").value;
    assert Summary(d, "c") !in MutualFollowers(d, "b", "a").value;
  }

  /** The relation is not symmetric in its two arguments: some consistent collection tells them apart. */
  lemma MutualFollowersIsDirected()
    ensures exists d: Directory, a: Id, b: Id ::
      Consistent(d) && MutualFollowers(d, a, b) != MutualFollowers(d, b, a)
  {
    ChainSymmetric();
    ChainListsAreSets();
    ChainUniqueNames();
    ChainMutualsDiffer();
    assert Consistent(Chain());
  }

  // ---------------------------------------------------------------------------
  // Profile update, deletion and lookups

  /**
   * The record after an update: username and email are replaced only by a
   * non-empty value, bio and picture by any value that is present.
   */
  function Patched(u: UserRecord, upd: UpdateUser): (v: UserRecord)
    ensures v.followers == u.followers && v.following == u.following && v.password == u.password
    ensures v.username == (if upd.username.Some? && upd.username.value != "" then upd.username.value else u.username)
    ensures v.email == (if upd.email.Some? && upd.email.value != "" then upd.email.value else u.email)
    ensures v.bio == (if upd.bio.Some? then upd.bio else u.bio)
    ensures v.profilePicture == (if upd.profilePicture.Some? then upd.profilePicture.value else u.profilePicture)
  {
    var u1 := if upd.username.Some? && upd.username.value != "" then u.(username := upd.username.value) else u;
    var u2 := if upd.email.Some? && upd.email.value != "" then u1.(email := upd.email.value) else u1;
    var u3 := if upd.bio.Some? then u2.(bio := upd.bio) else u2;
    if upd.profilePicture.Some? then u3.(profilePicture := upd.profilePicture.value) else u3
  }

  /** Another stored user already holds `v`'s username or email. */
  predicate Collides(d: Directory, id: Id, v: UserRecord)
  {
    exists k :: k in d && k != id && (d[k].username == v.username || d[k].email == v.email)
  }

  /** updateUserProfile: the patched record is saved and its profile returned. */
  function UpdateProfile(d: Directory, id: Id, upd: UpdateUser): (r: Result<(Directory, UserResponse), ServiceError>)
    ensures r == Err(NotFound) <==> id !in d
    ensures r == Err(DuplicateKey) <==> id in d && Collides(d, id, Patched(d[id], upd))
    ensures r.Ok? <==> id in d && !Collides(d, id, Patched(d[id], upd))
    ensures r.Ok? ==> r.value.0 == d[id := Patched(d[id], upd)]
    ensures r.Ok? ==> r.value.1 == ToUserResponse(LoadPublic(id, r.value.0[id]))
  {
    if id !in d then Err(NotFound)
    else
      var v := Patched(d[id], upd);
      if Collides(d, id, v) then Err(DuplicateKey)
      else Ok((d[id := v], ToUserResponse(Load(id, v))))
  }

  /** An update with no field present returns the stored profile unchanged and stores the same record. */
  lemma EmptyUpdateChangesNothing(d: Directory, id: Id)
    requires UniqueNames(d) && id in d
    ensures UpdateProfile(d, id, UpdateUser(None, None, None, None))
         == Ok((d, ToUserResponse(LoadPublic(id, d[id]))))
  {
    assert Patched(d[id], UpdateUser(None, None, None, None)) == d[id];
    assert d[id := d[id]] == d;
  }

  /** A successful update keeps the graph consistent and the follow lists untouched. */
  lemma UpdateKeepsConsistent(d: Directory, id: Id, upd: UpdateUser)
    requires Consistent(d) && UpdateProfile(d, id, upd).Ok?
    ensures var e := UpdateProfile(d, id, upd).value.0;
      Consistent(e) && (Irreflexive(d) ==> Irreflexive(e))
      && forall k :: k in e ==> e[k].followers == d[k].followers && e[k].following == d[k].following
  {
    var e := UpdateProfile(d, id, upd).value.0;
    ReplaceKeepsUnique(d, id, e[id]);
    assert forall k :: k in e ==> e[k].followers == d[k].followers && e[k].following == d[k].following;
  }

  /** Storing a record whose username and email no other user holds keeps the unique indexes. */
  lemma ReplaceKeepsUnique(d: Directory, id: Id, v: UserRecord)
    requires UniqueNames(d) && id in d && !Collides(d, id, v)
    ensures UniqueNames(d[id := v])
  {
  }

  /** deleteUser: the record goes; nobody else's lists change. */
  function Delete(d: Directory, id: Id): (r: Result<Directory, ServiceError>)
    ensures r.Err? <==> id !in d
    ensures r.Err? ==> r.error == NotFound
    ensures r.Ok? ==> r.value.Keys == d.Keys - {id}
    ensures r.Ok? ==> forall k :: k in r.value ==> r.value[k] == d[k]
  {
    if id !in d then Err(NotFound) else Ok(d - {id})
  }

  /** Deleting keeps the invariants over the users that remain. */
  lemma DeleteKeepsConsistent(d: Directory, id: Id)
    requires Consistent(d) && Delete(d, id).Ok?
    ensures Consistent(Delete(d, id).value)
    ensures Irreflexive(d) ==> Irreflexive(Delete(d, id).value)
  {
  }

  /**
   * Deletion does not cascade: when `a` follows `b` and `b` is deleted,
   * `a`'s following count still counts `b`, while `a`'s following list no
   * longer shows it.
   */
  lemma DeleteLeavesStaleCount(d: Directory, a: Id, b: Id)
    requires a in d && b in d && a != b && b in d[a].following
    ensures var e := Delete(d, b).value;
      && a in e && b in e[a].following
      && ToUserResponse(LoadPublic(a, e[a])).followingCount == |d[a].following|
      && |Following(e, a).value| < |d[a].following|
  {
  }

  /** getUserById: the public profile of a stored user, or nothing. */
  function UserById(d: Directory, id: Id): (r: Option<UserResponse>)
    ensures r.Some? <==> id in d
    ensures r.Some? ==> r.value == ToUserResponse(LoadPublic(id, d[id]))
  {
    if id in d then Some(ToUserResponse(LoadPublic(id, d[id]))) else None
  }

  /** getUserByUsername: the public profile of the one user with that username, or nothing. */
  function UserByUsername(d: Directory, name: string): (r: Option<UserResponse>)
    requires UniqueNames(d)
    ensures r.Some? <==> exists id :: id in d && d[id].username == name
    ensures r.Some? ==>
      (r.value.id in d && d[r.value.id].username == name
       && r.value == ToUserResponse(LoadPublic(r.value.id, d[r.value.id])))
  {
    if exists id :: id in d && d[id].username == name then
      var id :| id in d && d[id].username == name;
      Some(ToUserResponse(LoadPublic(id, d[id])))
    else None
  }

  /** getUserByEmail: the public profile of the one user with that email, or nothing. */
  function UserByEmail(d: Directory, email: string): (r: Option<UserResponse>)
    requires UniqueNames(d)
    ensures r.Some? <==> exists id :: id in d && d[id].email == email
    ensures r.Some? ==>
      (r.value.id in d && d[r.value.id].email == email
       && r.value == ToUserResponse(LoadPublic(r.value.id, d[r.value.id])))
  {
    if exists id :: id in d && d[id].email == email then
      var id :| id in d && d[id].email == email;
      Some(ToUserResponse(LoadPublic(id, d[id])))
    else None
  }

  // ---------------------------------------------------------------------------
  // Counts seen through the profile

  /** The profile counts of a stored user, as getUserById reports them. */
  function Counts(d: Directory, id: Id): (c: (nat, nat))
    requires id in d
  {
    var p := UserById(d, id).value;
    (p.followersCount, p.followingCount)
  }

  /** After a follow between two users, the actor's following count and the target's followers count each grow by one. */
  lemma FollowCounts(d: Directory, a: Id, b: Id)
    requires a != b && Follow(d, a, b).Ok?
    ensures var e := Follow(d, a, b).value;
      && Counts(e, a).1 == Counts(d, a).1 + 1 && Counts(e, a).0 == Counts(d, a).0
      && Counts(e, b).0 == Counts(d, b).0 + 1 && Counts(e, b).1 == Counts(d, b).1
  {
  }

  /** After an unfollow in a consistent graph, both counts drop back by exactly one. */
  lemma UnfollowCounts(d: Directory, a: Id, b: Id)
    requires Consistent(d) && a != b && Unfollow(d, a, b).Ok?
    ensures var e := Unfollow(d, a, b).value;
      && Counts(e, a).1 == Counts(d, a).1 - 1 && Counts(e, a).0 == Counts(d, a).0
      && Counts(e, b).0 == Counts(d, b).0 - 1 && Counts(e, b).1 == Counts(d, b).1
  {
    WithoutLength(d[a].following, b);
    WithoutLength(d[b].followers, a);
  }
}
