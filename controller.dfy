/**
 * The request guards of the user controller and their composition with the
 * service. Each handler checks its request fields in order and either
 * answers with a client error or hands the request to the service. Only the
 * controller refuses a self-follow, so irreflexivity of the follow graph is a
 * property of the guarded service. The handlers as written compare the raw
 * id strings while the service looks up the cast ids; `HandleFollowAsWritten`
 * shows what that lets through, and the handlers here compare cast ids.
 */
module Controller {
  import opened Wrappers
  import opened Users
  import opened Dto
  import opened UserDirectory

  const TargetRequired := "Target user ID is required"
  const CannotFollowSelf := "Cannot follow yourself"
  const CannotUnfollowSelf := "Cannot unfollow yourself"
  const QueryRequired := "Search query is required"
  const UserNotFound := "User not found"

  /** What a guard decides: answer 400 with a message, or call the service. */
  datatype Decision = BadRequest(error: string) | CallService

  /** What a lookup handler answers: the profile, or 404. */
  datatype LookupReply = Found(user: UserResponse) | NotFoundReply(error: string)

  // ---------------------------------------------------------------------------
  // Follow and unfollow guards

  /**
   * The guard as both handlers write it: a missing or empty target comes
   * first, then the self check, which compares the two ids as raw strings.
   */
  function RelationGuardAsWritten(userId: string, targetUserId: Option<string>, selfMessage: string): (r: Decision)
    ensures r == CallService <==> targetUserId.Some? && targetUserId.value != "" && targetUserId.value != userId
    ensures (targetUserId.None? || targetUserId.value == "") ==> r == BadRequest(TargetRequired)
    ensures targetUserId == Some(userId) && userId != "" ==> r == BadRequest(selfMessage)
  {
    if targetUserId.None? || targetUserId.value == "" then BadRequest(TargetRequired)
    else if userId == targetUserId.value then BadRequest(selfMessage)
    else CallService
  }

  /**
   * The guard with the self check on the ids the service looks up, that is,
   * after the ObjectId cast. A missing or empty target still comes first.
   */
  function RelationGuard(userId: string, targetUserId: Option<string>, selfMessage: string): (r: Decision)
    ensures r == CallService <==>
      targetUserId.Some? && targetUserId.value != "" && Canon(targetUserId.value) != Canon(userId)
    ensures (targetUserId.None? || targetUserId.value == "") ==> r == BadRequest(TargetRequired)
    ensures targetUserId.Some? && targetUserId.value != "" && Canon(targetUserId.value) == Canon(userId) ==>
      r == BadRequest(selfMessage)
  {
    if targetUserId.None? || targetUserId.value == "" then BadRequest(TargetRequired)
    else if Canon(userId) == Canon(targetUserId.value) then BadRequest(selfMessage)
    else CallService
  }

  /** Whenever the raw strings are equal the canonical ids are too, so the cast-aware guard rejects all the written one does. */
  lemma RelationGuardRefinesAsWritten(userId: string, targetUserId: Option<string>, selfMessage: string)
    ensures RelationGuardAsWritten(userId, targetUserId, selfMessage).BadRequest? ==>
      RelationGuard(userId, targetUserId, selfMessage) == RelationGuardAsWritten(userId, targetUserId, selfMessage)
  {
  }

  /** The followUser guard. */
  function FollowGuard(userId: string, targetUserId: Option<string>): (r: Decision)
    ensures r == CallService <==>
      targetUserId.Some? && targetUserId.value != "" && Canon(targetUserId.value) != Canon(userId)
    ensures r.BadRequest? ==> r.error == TargetRequired || r.error == CannotFollowSelf
  {
    RelationGuard(userId, targetUserId, CannotFollowSelf)
  }

  /** The unfollowUser guard. */
  function UnfollowGuard(userId: string, targetUserId: Option<string>): (r: Decision)
    ensures r == CallService <==>
      targetUserId.Some? && targetUserId.value != "" && Canon(targetUserId.value) != Canon(userId)
    ensures r.BadRequest? ==> r.error == TargetRequired || r.error == CannotUnfollowSelf
  {
    RelationGuard(userId, targetUserId, CannotUnfollowSelf)
  }

  /** Follow and unfollow reject the same requests, for the same reason in the same order; only the self message differs. */
  lemma FollowAndUnfollowGuardsAgree(userId: string, targetUserId: Option<string>)
    ensures FollowGuard(userId, targetUserId).CallService? <==> UnfollowGuard(userId, targetUserId).CallService?
    ensures FollowGuard(userId, targetUserId) == BadRequest(TargetRequired)
        <==> UnfollowGuard(userId, targetUserId) == BadRequest(TargetRequired)
    ensures FollowGuard(userId, targetUserId) == BadRequest(CannotFollowSelf)
        <==> UnfollowGuard(userId, targetUserId) == BadRequest(CannotUnfollowSelf)
  {
  }

  // ---------------------------------------------------------------------------
  // Search guard

  /** The characters `String.prototype.trim` removes: white space and line terminators. */
  predicate IsWhiteSpace(c: char)
  {
    || c == '\t' || c == '\n' || c == '\r' || c == ' '
    || c == '\U{000B}' || c == '\U{000C}' || c == '\U{00A0}' || c == '\U{1680}'
    || ('\U{2000}' <= c <= '\U{200A}')
    || c == '\U{2028}' || c == '\U{2029}' || c == '\U{202F}' || c == '\U{205F}'
    || c == '\U{3000}' || c == '\U{FEFF}'
  }

  /** `s` with its leading white space removed. */
  function TrimStart(s: string): (r: string)
    ensures |r| <= |s| && r == s[|s| - |r|..]
    ensures r == "" || !IsWhiteSpace(r[0])
    ensures forall i :: 0 <= i < |s| - |r| ==> IsWhiteSpace(s[i])
  {
    if s != [] && IsWhiteSpace(s[0]) then TrimStart(s[1..]) else s
  }

  /** `s` with its trailing white space removed. */
  function TrimEnd(s: string): (r: string)
    ensures |r| <= |s| && r == s[..|r|]
    ensures r == "" || !IsWhiteSpace(r[|r| - 1])
    ensures forall i :: |r| <= i < |s| ==> IsWhiteSpace(s[i])
  {
    if s != [] && IsWhiteSpace(s[|s| - 1]) then TrimEnd(s[..|s| - 1]) else s
  }

  /** The string holds nothing but white space. */
  ghost predicate Blank(s: string)
  {
    forall i :: 0 <= i < |s| ==> IsWhiteSpace(s[i])
  }

  /** `s.trim()`: no white space is left at either end, and nothing is left exactly when `s` is blank. */
  function Trim(s: string): (r: string)
    ensures |r| <= |s|
    ensures r != "" ==> !IsWhiteSpace(r[0]) && !IsWhiteSpace(r[|r| - 1])
    ensures r == "" <==> Blank(s)
  {
    TrimEnd(TrimStart(s))
  }

  /** searchUsers: an absent, empty or blank query is a bad request. */
  function SearchGuard(query: Option<string>): (r: Decision)
    ensures r == BadRequest(QueryRequired) <==> query.None? || Blank(query.value)
    ensures r == CallService <==> query.Some? && !Blank(query.value)
  {
    if query.None? || query.value == "" || Trim(query.value) == "" then BadRequest(QueryRequired)
    else CallService
  }

  // ---------------------------------------------------------------------------
  // Lookups: a user that is not found is a 404

  function LookupReplyOf(found: Option<UserResponse>): (r: LookupReply)
    ensures r.Found? <==> found.Some?
    ensures r.Found? ==> r.user == found.value
    ensures r.NotFoundReply? ==> r.error == UserNotFound
  {
    if found.None? then NotFoundReply(UserNotFound) else Found(found.value)
  }

  /** GET by id answers 404 exactly for an id that is not stored, and otherwise that user's profile. */
  lemma GetUserByIdReply(d: Directory, id: Id)
    ensures LookupReplyOf(UserById(d, id)) == NotFoundReply(UserNotFound) <==> id !in d
    ensures id in d ==> LookupReplyOf(UserById(d, id)).Found? && LookupReplyOf(UserById(d, id)).user.id == id
  {
  }

  /** GET by username answers 404 exactly when no stored user has that username. */
  lemma GetUserByUsernameReply(d: Directory, name: string)
    requires UniqueNames(d)
    ensures LookupReplyOf(UserByUsername(d, name)).NotFoundReply? <==> forall id :: id in d ==> d[id].username != name
    ensures LookupReplyOf(UserByUsername(d, name)).Found? ==> LookupReplyOf(UserByUsername(d, name)).user.username == name
  {
  }

  /** GET by email answers 404 exactly when no stored user has that email. */
  lemma GetUserByEmailReply(d: Directory, email: string)
    requires UniqueNames(d)
    ensures LookupReplyOf(UserByEmail(d, email)).NotFoundReply? <==> forall id :: id in d ==> d[id].email != email
    ensures LookupReplyOf(UserByEmail(d, email)).Found? ==> LookupReplyOf(UserByEmail(d, email)).user.email == email
  {
  }

  // ---------------------------------------------------------------------------
  // The guard composed with the service

  /** What a follow or unfollow request gets back. */
  datatype RelationReply = Rejected(error: string) | Served(outcome: Result<(), ServiceError>)

  /**
   * The follow handler as written: the raw-string guard, then the service,
   * which casts both ids before looking them up.
   */
  function HandleFollowAsWritten(d: Directory, userId: string, targetUserId: Option<string>): (r: (RelationReply, Directory))
    ensures r.0.Rejected? ==> r.1 == d
    ensures r.0.Rejected? <==> !RelationGuardAsWritten(userId, targetUserId, CannotFollowSelf).CallService?
    ensures !r.0.Rejected? ==> var f := Follow(d, Canon(userId), Canon(targetUserId.value));
      r == if f.Ok? then (Served(Ok(())), f.value) else (Served(Err(f.error)), d)
  {
    match RelationGuardAsWritten(userId, targetUserId, CannotFollowSelf)
    case BadRequest(e) => (Rejected(e), d)
    case CallService =>
      match Follow(d, Canon(userId), Canon(targetUserId.value))
      case Ok(e) => (Served(Ok(())), e)
      case Err(err) => (Served(Err(err)), d)
  }

  /**
   * Two spellings of one ObjectId that differ only in the case of their hex
   * digits pass the raw-string guard, and the service then makes the user
   * follow itself.
   */
  lemma AsWrittenAdmitsSelfFollow(d: Directory, userId: string, targetUserId: string)
    requires userId != targetUserId && Canon(userId) == Canon(targetUserId)
    requires Canon(userId) in d && Canon(userId) !in d[Canon(userId)].following
    ensures HandleFollowAsWritten(d, userId, Some(targetUserId)).0 == Served(Ok(()))
    ensures !Irreflexive(HandleFollowAsWritten(d, userId, Some(targetUserId)).1)
  {
    var a := Canon(userId);
    assert a in HandleFollowAsWritten(d, userId, Some(targetUserId)).1[a].following;
  }

  /** Such a pair of spellings: the lower-case and the upper-case hex form of one ObjectId. */
  lemma MixedCaseSpellings()
    ensures var lower, upper := "507f1f77bcf86cd799439011", "507F1F77BCF86CD799439011";
      lower != upper && Canon(lower) == Canon(upper) && Canon(lower) == lower
  {
    var lower, upper := "507f1f77bcf86cd799439011", "507F1F77BCF86CD799439011";
    assert lower[3] != upper[3];
    assert forall i :: 0 <= i < |lower| ==> LowerHex(lower[i]) == lower[i] && LowerHex(upper[i]) == lower[i];
  }

  /** The whole follow handler: guard, then the service on the cast ids. */
  function HandleFollow(d: Directory, userId: string, targetUserId: Option<string>): (r: (RelationReply, Directory))
    ensures r.0.Rejected? ==> r.1 == d
    ensures r.0.Rejected? <==> !FollowGuard(userId, targetUserId).CallService?
    ensures !r.0.Rejected? ==> var f := Follow(d, Canon(userId), Canon(targetUserId.value));
      r == if f.Ok? then (Served(Ok(())), f.value) else (Served(Err(f.error)), d)
  {
    match FollowGuard(userId, targetUserId)
    case BadRequest(e) => (Rejected(e), d)
    case CallService =>
      match Follow(d, Canon(userId), Canon(targetUserId.value))
      case Ok(e) => (Served(Ok(())), e)
      case Err(err) => (Served(Err(err)), d)
  }

  /** The whole unfollow handler: guard, then the service on the cast ids. */
  function HandleUnfollow(d: Directory, userId: string, targetUserId: Option<string>): (r: (RelationReply, Directory))
    ensures r.0.Rejected? ==> r.1 == d
    ensures r.0.Rejected? <==> !UnfollowGuard(userId, targetUserId).CallService?
    ensures !r.0.Rejected? ==> var f := Unfollow(d, Canon(userId), Canon(targetUserId.value));
      r == if f.Ok? then (Served(Ok(())), f.value) else (Served(Err(f.error)), d)
  {
    match UnfollowGuard(userId, targetUserId)
    case BadRequest(e) => (Rejected(e), d)
    case CallService =>
      match Unfollow(d, Canon(userId), Canon(targetUserId.value))
      case Ok(e) => (Served(Ok(())), e)
      case Err(err) => (Served(Err(err)), d)
  }

  /** A request naming the caller as its target, in any spelling, is rejected before the service runs, and changes nothing. */
  lemma SelfFollowRejected(d: Directory, userId: string, targetUserId: string)
    requires targetUserId != "" && Canon(targetUserId) == Canon(userId)
    ensures HandleFollow(d, userId, Some(targetUserId)) == (Rejected(CannotFollowSelf), d)
    ensures HandleUnfollow(d, userId, Some(targetUserId)) == (Rejected(CannotUnfollowSelf), d)
  {
  }

  /** The guarded follow never makes a user follow itself, and keeps the graph consistent. */
  lemma GuardedFollowKeepsInvariant(d: Directory, userId: string, targetUserId: Option<string>)
    requires Consistent(d) && Irreflexive(d)
    ensures Consistent(HandleFollow(d, userId, targetUserId).1) && Irreflexive(HandleFollow(d, userId, targetUserId).1)
  {
    if FollowGuard(userId, targetUserId).CallService? {
      var a, b := Canon(userId), Canon(targetUserId.value);
      if Follow(d, a, b).Ok? {
        FollowKeepsConsistent(d, a, b);
        FollowKeepsIrreflexive(d, a, b);
      }
    }
  }

  /** The guarded unfollow keeps the graph consistent and irreflexive. */
  lemma GuardedUnfollowKeepsInvariant(d: Directory, userId: string, targetUserId: Option<string>)
    requires Consistent(d) && Irreflexive(d)
    ensures Consistent(HandleUnfollow(d, userId, targetUserId).1) && Irreflexive(HandleUnfollow(d, userId, targetUserId).1)
  {
    if UnfollowGuard(userId, targetUserId).CallService? {
      var a, b := Canon(userId), Canon(targetUserId.value);
      if Unfollow(d, a, b).Ok? {
        UnfollowKeepsConsistent(d, a, b);
        UnfollowKeepsIrreflexive(d, a, b);
      }
    }
  }

  /** A request to one of the handlers that change the collection. */
  datatype Request =
    | FollowRequest(userId: string, targetUserId: Option<string>)
    | UnfollowRequest(userId: string, targetUserId: Option<string>)
    | UpdateRequest(userId: string, updateData: UpdateUser)
    | DeleteRequest(userId: string)

  /** The collection after one request has been handled. */
  function Step(d: Directory, req: Request): (e: Directory)
    ensures e.Keys <= d.Keys
  {
    match req
    case FollowRequest(u, t) => HandleFollow(d, u, t).1
    case UnfollowRequest(u, t) => HandleUnfollow(d, u, t).1
    case UpdateRequest(u, upd) =>
      if UpdateProfile(d, Canon(u), upd).Ok? then UpdateProfile(d, Canon(u), upd).value.0 else d
    case DeleteRequest(u) => if Delete(d, Canon(u)).Ok? then Delete(d, Canon(u)).value else d
  }

  /** The collection after a sequence of requests; no request adds a user. */
  function Run(d: Directory, reqs: seq<Request>): (e: Directory)
    ensures e.Keys <= d.Keys
    decreases |reqs|
  {
    if reqs == [] then d else Run(Step(d, reqs[0]), reqs[1..])
  }

  lemma StepKeepsInvariant(d: Directory, req: Request)
    requires Consistent(d) && Irreflexive(d)
    ensures Consistent(Step(d, req)) && Irreflexive(Step(d, req))
  {
    match req
    case FollowRequest(u, t) => GuardedFollowKeepsInvariant(d, u, t);
    case UnfollowRequest(u, t) => GuardedUnfollowKeepsInvariant(d, u, t);
    case UpdateRequest(u, upd) =>
      if UpdateProfile(d, Canon(u), upd).Ok? { UpdateKeepsConsistent(d, Canon(u), upd); }
    case DeleteRequest(u) =>
      if Delete(d, Canon(u)).Ok? { DeleteKeepsConsistent(d, Canon(u)); }
  }

  /**
   * Symmetry, set semantics, unique names and irreflexivity hold after any
   * sequence of requests through the controller, from any collection where
   * they held, for example the empty one.
   */
  lemma {:induction false} RunKeepsInvariant(d: Directory, reqs: seq<Request>)
    requires Consistent(d) && Irreflexive(d)
    ensures Consistent(Run(d, reqs)) && Irreflexive(Run(d, reqs))
    decreases |reqs|
  {
    if reqs != [] {
      StepKeepsInvariant(d, reqs[0]);
      RunKeepsInvariant(Step(d, reqs[0]), reqs[1..]);
    }
  }
}
