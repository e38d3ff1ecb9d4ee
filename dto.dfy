/** The shapes the user module accepts and returns. None of the outputs has a password. */
module Dto {
  import opened Wrappers
  import opened Users

  /** A profile update; every field is optional. */
  datatype UpdateUser = UpdateUser(
    username: Option<string>,
    email: Option<string>,
    bio: Option<string>,
    profilePicture: Option<string>)

  /** The full profile (the timestamps are not part of this model). */
  datatype UserResponse = UserResponse(
    id: Id,
    username: string,
    email: string,
    bio: Option<string>,
    profilePicture: Option<string>,
    followersCount: nat,
    followingCount: nat)

  /** The summary shown in follower, following and mutual lists. */
  datatype FollowerResponse = FollowerResponse(
    id: Id,
    username: string,
    email: string,
    profilePicture: Option<string>)

  /** The summary shown in search results. */
  datatype SearchUserResponse = SearchUserResponse(
    id: Id,
    username: string,
    email: string,
    profilePicture: Option<string>)
}
