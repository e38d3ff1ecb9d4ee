/**
 * The user service as an object that owns the users collection. Each
 * state-changing operation updates one or two records in place; the two
 * saves of follow and unfollow are taken together as one atomic update.
 * Every method ends in exactly the state the matching UserDirectory
 * function describes, and keeps the service's invariant.
 */
module Service {
  import opened Wrappers
  import opened Users
  import opened Dto
  import opened Lists
  import opened Mapper
  import opened UserDirectory

  const FollowedMessage := "Successfully followed the user"
  const UnfollowedMessage := "Successfully unfollowed the user"
  const DeletedMessage := "User deleted successfully"

  class UserService {
    /** The users collection. */
    var users: Directory

    /** The invariant the service keeps on its own. */
    ghost predicate Valid()
      reads this
    {
      Consistent(users)
    }

    /** A service over a collection that already keeps the invariant, such as the empty one. */
    constructor (initial: Directory)
      requires Consistent(initial)
      ensures Valid() && users == initial
    {
      users := initial;
    }

    method FollowUser(userId: Id, targetUserId: Id) returns (r: Result<string, ServiceError>)
      requires Valid()
      modifies this
      ensures Follow(old(users), userId, targetUserId).Ok? ==>
        users == Follow(old(users), userId, targetUserId).value && r == Ok(FollowedMessage)
      ensures Follow(old(users), userId, targetUserId).Err? ==>
        users == old(users) && r == Err(Follow(old(users), userId, targetUserId).error)
      ensures Valid()
    {
      if userId !in users || targetUserId !in users {
        return Err(NotFound);
      }
      var user := users[userId];
      if targetUserId in user.following {
        return Err(AlreadyFollowing);
      }
      ghost var before := users;
      users := users[userId := user.(following := user.following + [targetUserId])];
      var target := users[targetUserId];
      users := users[targetUserId := target.(followers := target.followers + [userId])];
      FollowKeepsConsistent(before, userId, targetUserId);
      r := Ok(FollowedMessage);
    }

    method UnfollowUser(userId: Id, targetUserId: Id) returns (r: Result<string, ServiceError>)
      requires Valid()
      modifies this
      ensures Unfollow(old(users), userId, targetUserId).Ok? ==>
        users == Unfollow(old(users), userId, targetUserId).value && r == Ok(UnfollowedMessage)
      ensures Unfollow(old(users), userId, targetUserId).Err? ==>
        users == old(users) && r == Err(Unfollow(old(users), userId, targetUserId).error)
      ensures Valid()
    {
      if userId !in users || targetUserId !in users {
        return Err(NotFound);
      }
      var user := users[userId];
      if targetUserId !in user.following {
        return Err(NotFollowing);
      }
      ghost var before := users;
      users := users[userId := user.(following := Without(user.following, targetUserId))];
      var target := users[targetUserId];
      users := users[targetUserId := target.(followers := Without(target.followers, userId))];
      UnfollowKeepsConsistent(before, userId, targetUserId);
      r := Ok(UnfollowedMessage);
    }

    method UpdateUserProfile(userId: Id, updateData: UpdateUser) returns (r: Result<UserResponse, ServiceError>)
      requires Valid()
      modifies this
      ensures UpdateProfile(old(users), userId, updateData).Ok? ==>
        users == UpdateProfile(old(users), userId, updateData).value.0
        && r == Ok(UpdateProfile(old(users), userId, updateData).value.1)
      ensures UpdateProfile(old(users), userId, updateData).Err? ==>
        users == old(users) && r == Err(UpdateProfile(old(users), userId, updateData).error)
      ensures Valid()
    {
      if userId !in users {
        return Err(NotFound);
      }
      var user := users[userId];
      if updateData.username.Some? && updateData.username.value != "" {
        user := user.(username := updateData.username.value);
      }
      if updateData.email.Some? && updateData.email.value != "" {
        user := user.(email := updateData.email.value);
      }
      if updateData.bio.Some? {
        user := user.(bio := updateData.bio);
      }
      if updateData.profilePicture.Some? {
        user := user.(profilePicture := updateData.profilePicture.value);
      }
      assert user == Patched(users[userId], updateData);
      if Collides(users, userId, user) {
        return Err(DuplicateKey);
      }
      ghost var before := users;
      users := users[userId := user];
      UpdateKeepsConsistent(before, userId, updateData);
      r := Ok(ToUserResponse(Load(userId, user)));
    }

    method DeleteUser(userId: Id) returns (r: Result<string, ServiceError>)
      requires Valid()
      modifies this
      ensures Delete(old(users), userId).Ok? ==>
        users == Delete(old(users), userId).value && r == Ok(DeletedMessage)
      ensures Delete(old(users), userId).Err? ==>
        users == old(users) && r == Err(Delete(old(users), userId).error)
      ensures Valid()
    {
      if userId !in users {
        return Err(NotFound);
      }
      ghost var before := users;
      users := users - {userId};
      DeleteKeepsConsistent(before, userId);
      r := Ok(DeletedMessage);
    }
  }
}
