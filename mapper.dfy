/** Projections from a user document to the response shapes. */
module Mapper {
  import opened Wrappers
  import opened Users
  import opened Dto

  /** `list?.length || 0`: the length of a list, 0 when it was not loaded. */
  function LengthOrZero(list: Option<seq<Id>>): (n: nat)
    ensures list.None? ==> n == 0
    ensures list.Some? ==> n == |list.value|
  {
    match list
    case None => 0
    case Some(l) => |l|
  }

  /**
   * The full profile of a document. It copies the identity and profile
   * fields unchanged, and its two counts are the lengths of the lists, 0 for
   * a list the query did not load.
   */
  function ToUserResponse(u: UserDoc): (r: UserResponse)
    ensures r.id == u.id && r.username == u.username && r.email == u.email
    ensures r.bio == u.bio && r.profilePicture == u.profilePicture
    ensures r.followersCount == (if u.followers.Some? then |u.followers.value| else 0)
    ensures r.followingCount == (if u.following.Some? then |u.following.value| else 0)
  {
    UserResponse(u.id, u.username, u.email, u.bio, u.profilePicture,
                 LengthOrZero(u.followers), LengthOrZero(u.following))
  }

  /** The list summary of a document: id, username, email and picture, unchanged. */
  function ToFollowerResponse(u: UserDoc): (r: FollowerResponse)
    ensures r.id == u.id && r.username == u.username && r.email == u.email && r.profilePicture == u.profilePicture
  {
    FollowerResponse(u.id, u.username, u.email, u.profilePicture)
  }

  /** The search summary of a document: id, username, email and picture, unchanged. */
  function ToSearchResponse(u: UserDoc): (r: SearchUserResponse)
    ensures r.id == u.id && r.username == u.username && r.email == u.email && r.profilePicture == u.profilePicture
  {
    SearchUserResponse(u.id, u.username, u.email, u.profilePicture)
  }

  /** No projection depends on the password: they cannot leak it. */
  lemma PasswordNeverProjected(u: UserDoc, p: Option<string>)
    ensures ToUserResponse(u.(password := p)) == ToUserResponse(u)
    ensures ToFollowerResponse(u.(password := p)) == ToFollowerResponse(u)
    ensures ToSearchResponse(u.(password := p)) == ToSearchResponse(u)
  {
  }

  /** The follower summary and the search summary agree field for field. */
  lemma FollowerAndSearchAgree(u: UserDoc)
    ensures var f, s := ToFollowerResponse(u), ToSearchResponse(u);
      f.id == s.id && f.username == s.username && f.email == s.email && f.profilePicture == s.profilePicture
  {
  }

  /** For a stored record, the counts are the lengths of its two lists, and the profile fields are copied. */
  lemma StoredRecordResponse(id: Id, u: UserRecord)
    ensures var r := ToUserResponse(LoadPublic(id, u));
      && r.followersCount == |u.followers| && r.followingCount == |u.following|
      && r.id == id && r.username == u.username && r.email == u.email
      && r.bio == u.bio && r.profilePicture == Some(u.profilePicture)
    ensures ToUserResponse(Load(id, u)) == ToUserResponse(LoadPublic(id, u))
  {
  }
}
