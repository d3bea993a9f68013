/**
 * The request dependencies of the tool's API: the session user taken from the
 * bearer token, and the guards that admit instructors, administrators and the
 * user of one resource link.
 *
 * Decoding the token (`SecurityManager.verify_token`) is not part of this
 * model: its outcome is the `TokenCheck` a guard receives.
 */
module Dependencies {
  import opened Wrappers
  import opened JsonValues
  import Dicts
  import Http

  /** How the bearer token decoded: its payload, or the error that stopped it. */
  datatype TokenCheck =
    | Decoded(payload: Object)
    | TokenExpired           // `ExpiredSignatureError`
    | TokenRejected          // any other `JWTError`
    | DecodeFailed(message: string)  // any other exception

  const CouldNotValidate: string := "Could not validate credentials"

  /** The claims a session token must carry, in the order they are checked. */
  const RequiredFields: seq<string> := ["user_id", "resource_link_id"]

  /**
   * `get_current_lti_user`: the payload of a token that decodes and carries
   * the required claims; 401 for the first missing claim, for an expired
   * token and for any other failure.
   */
  function CurrentUser(check: TokenCheck): Http.Reply<Object>
  {
    match check
    case TokenExpired => Http.Refused(401, "Token expired")
    case TokenRejected => Http.Refused(401, CouldNotValidate)
    case DecodeFailed(_) => Http.Refused(401, CouldNotValidate)
    case Decoded(payload) =>
      var missing := Dicts.MissingKeys(RequiredFields, payload.Keys);
      if missing == [] then Http.Done(payload)
      else Http.Refused(401, "Token missing required field: " + missing[0])
  }

  /**
   * The session user is the decoded payload, unchanged, exactly when it has
   * both `user_id` and `resource_link_id`; every other token is refused with
   * 401 and never ends in an error of its own, and a missing `user_id` is
   * reported before a missing `resource_link_id`.
   */
  lemma CurrentUserCases(check: TokenCheck)
    ensures var r := CurrentUser(check);
      && (r.Done? <==> check.Decoded? && "user_id" in check.payload && "resource_link_id" in check.payload)
      && (r.Done? ==> r.value == check.payload)
      && (!r.Done? ==> r.Refused? && r.status == 401)
    ensures check.Decoded? && "user_id" !in check.payload ==>
      CurrentUser(check) == Http.Refused(401, "Token missing required field: user_id")
    ensures check.Decoded? && "user_id" in check.payload && "resource_link_id" !in check.payload ==>
      CurrentUser(check) == Http.Refused(401, "Token missing required field: resource_link_id")
  {
    if check.Decoded? {
      Dicts.MissingKeysEmpty(RequiredFields, check.payload.Keys);
      assert RequiredFields[1..][1..] == [];
    }
  }

  /** `require_instructor`: the user, when `is_instructor` is truthy. */
  function RequireInstructor(user: Object): Http.Reply<Object>
  {
    if !TruthyAt(user, "is_instructor") then Http.Refused(403, "Instructor privileges required")
    else Http.Done(user)
  }

  /** `current_user.get('roles', [])` */
  function RolesOf(user: Object): Json
  {
    Get(user, "roles").GetOr(JArr([]))
  }

  /**
   * `require_admin`: the user, when `'Administrator'` is in their roles or
   * they are an instructor. The membership test comes first and raises a
   * `TypeError` (a 500) when `roles` is not a container.
   */
  function RequireAdmin(user: Object): Http.Reply<Object>
  {
    match In(RolesOf(user), "Administrator")
    case Raised(m) => Http.Crashed(m)
    case Ok(isAdmin) =>
      if !isAdmin && !TruthyAt(user, "is_instructor") then Http.Refused(403, "Administrator privileges required")
      else Http.Done(user)
  }

  /** The dependency `validate_resource_access(resource_link_id)` builds. */
  function ValidateResourceAccess(resourceLinkId: string, user: Object): Http.Reply<Object>
  {
    if Get(user, "resource_link_id") != Some(JStr(resourceLinkId)) then Http.Refused(403, "Access denied to this resource")
    else Http.Done(user)
  }

  /** The instructor guard admits exactly the users whose `is_instructor` is truthy, and passes them on unchanged. */
  lemma InstructorGate(user: Object)
    ensures RequireInstructor(user) == Http.Done(user) <==> TruthyAt(user, "is_instructor")
    ensures RequireInstructor(user) != Http.Done(user) ==> RequireInstructor(user).Refused? && RequireInstructor(user).status == 403
  {
  }

  /**
   * The administrator guard admits a user whose roles list has the literal
   * element `Administrator` (a role IRI ending in it does not count) or who
   * is an instructor, refuses every other user with 403, and fails for a
   * `roles` claim that is not a container.
   */
  lemma AdminGate(user: Object)
    ensures RolesOf(user).JArr? ==>
      (RequireAdmin(user) == Http.Done(user) <==>
         JStr("Administrator") in RolesOf(user).items || TruthyAt(user, "is_instructor"))
    ensures RequireAdmin(user).Crashed? <==> !Iterable(RolesOf(user))
    ensures RequireAdmin(user).Crashed? ==> RequireAdmin(user).message == NotIterable(RolesOf(user))
    ensures RequireAdmin(user).Refused? ==> RequireAdmin(user).status == 403
    ensures "roles" !in user ==> (RequireAdmin(user).Done? <==> TruthyAt(user, "is_instructor"))
  {
  }

  /** Every instructor whose roles claim is a container also passes the administrator guard. */
  lemma AdminAdmitsInstructors(user: Object)
    requires RequireInstructor(user).Done?
    requires Iterable(RolesOf(user))
    ensures RequireAdmin(user) == Http.Done(user)
  {
  }

  /** The resource guard admits exactly the users whose token names that resource link. */
  lemma ResourceGate(resourceLinkId: string, user: Object)
    ensures ValidateResourceAccess(resourceLinkId, user).Done? <==> HasString(user, "resource_link_id", resourceLinkId)
    ensures ValidateResourceAccess(resourceLinkId, user).Done? ==> ValidateResourceAccess(resourceLinkId, user).value == user
  {
  }
}
