/**
 * The stored user document (the users collection schema) and the three
 * shapes in which the service reads it back: the whole document, the
 * document without its password, and the small projection used for
 * follower lists.
 */
module Users {
  import opened Wrappers

  /** A user id, in its canonical string form: the hex form of an ObjectId, in lower case. */
  type Id = string

  /** A hex digit in lower case; every other character unchanged. */
  function LowerHex(c: char): (l: char)
  {
    if 'A' <= c <= 'F' then (c as int + 32) as char else c
  }

  /**
   * The id an id string denotes once it is cast to an ObjectId: the cast
   * accepts hex digits in either case and prints them in lower case. Strings
   * that are not ObjectIds make the cast fail, which this model leaves out.
   */
  function Canon(s: string): (r: Id)
    ensures |r| == |s|
    ensures forall i :: 0 <= i < |r| ==> !('A' <= r[i] <= 'F')
    ensures forall i :: 0 <= i < |s| ==> r[i] == s[i] || ('A' <= s[i] <= 'F' && r[i] as int == s[i] as int + 32)
  {
    seq(|s|, i requires 0 <= i < |s| => LowerHex(s[i]))
  }

  /** An id that is already canonical stays as it is. */
  lemma CanonIdempotent(s: string)
    ensures Canon(Canon(s)) == Canon(s)
  {
  }

  /**
   * One stored user. `profilePicture` defaults to the empty string and is
   * therefore always present; `bio` has no default and may be absent. The
   * timestamps are not part of this model.
   */
  datatype UserRecord = UserRecord(
    username: string,
    email: string,
    bio: Option<string>,
    profilePicture: string,
    password: string,
    followers: seq<Id>,
    following: seq<Id>)

  /** The users collection: each stored record under its id. */
  type Directory = map<Id, UserRecord>

  /**
   * A user document as the mapper receives it. Every field a query did not
   * select is absent.
   */
  datatype UserDoc = UserDoc(
    id: Id,
    username: string,
    email: string,
    bio: Option<string>,
    profilePicture: Option<string>,
    password: Option<string>,
    followers: Option<seq<Id>>,
    following: Option<seq<Id>>)

  /** The document a plain lookup by id returns: every field, the password too. */
  function Load(id: Id, u: UserRecord): (r: UserDoc)
    ensures r.id == id && r.username == u.username && r.email == u.email && r.bio == u.bio
    ensures r.profilePicture == Some(u.profilePicture) && r.password == Some(u.password)
    ensures r.followers == Some(u.followers) && r.following == Some(u.following)
  {
    UserDoc(id, u.username, u.email, u.bio, Some(u.profilePicture), Some(u.password),
            Some(u.followers), Some(u.following))
  }

  /** The document a lookup that deselects the password returns: every field but the password. */
  function LoadPublic(id: Id, u: UserRecord): (r: UserDoc)
    ensures r.password.None?
    ensures r.id == id && r.username == u.username && r.email == u.email && r.bio == u.bio
    ensures r.profilePicture == Some(u.profilePicture)
    ensures r.followers == Some(u.followers) && r.following == Some(u.following)
  {
    Load(id, u).(password := None)
  }

  /**
   * The document a query selecting only username, email and picture returns:
   * those three and the id, and nothing else.
   */
  function LoadSummary(id: Id, u: UserRecord): (r: UserDoc)
    ensures r.id == id && r.username == u.username && r.email == u.email
    ensures r.profilePicture == Some(u.profilePicture)
    ensures r.bio.None? && r.password.None? && r.followers.None? && r.following.None?
  {
    UserDoc(id, u.username, u.email, None, Some(u.profilePicture), None, None, None)
  }
}
