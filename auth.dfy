/**
 * The admin gate (src/middleware/auth.js): the application profile looked up
 * for a token's subject, and the decision chain that admits an Admin or
 * answers 401, 403 or 500.
 */
module Auth {
  import opened Js
  import opened Text
  import opened Http

  /** The `role ( id, role_type )` embedded in a Users row. */
  datatype RoleRow = RoleRow(id: Value, role_type: Value)

  /** A Users row: `id`, `email`, and the embedded role (`None` when it is `null`). */
  datatype UserRow = UserRow(id: Value, email: Value, role: Option<RoleRow>)

  /** The store's answer to the profile lookup: `data` is `None` when it is `null`. */
  datatype LookupResponse = LookupResponse(data: Option<UserRow>, error: Option<Error>)

  /** What `getUserAppRole` resolves to when it finds a user with a role. */
  datatype Profile = Profile(appUserId: Value, email: Value, roleId: Value, roleType: Value)

  /**
   * `getUserAppRole(authUserId)`, given the store's answer to the lookup.  A
   * falsy id resolves to `null` without a lookup, so the answer is not used.
   */
  function GetUserAppRole(authUserId: Value, answer: Outcome<LookupResponse>): (profile: Option<Profile>)
    ensures !Truthy(authUserId) ==> profile == None
    ensures answer.Threw? || answer.value.error.Some? ==> profile == None
    ensures profile.Some? <==>
      && Truthy(authUserId) && answer.Returned? && answer.value.error.None?
      && answer.value.data.Some? && answer.value.data.value.role.Some?
    ensures profile.Some? ==>
      var user := answer.value.data.value;
      profile.value == Profile(user.id, user.email, user.role.value.id, user.role.value.role_type)
  {
    if !Truthy(authUserId) then None
    else
      match answer
      case Threw(_) => None
      case Returned(resp) =>
        if resp.error.Some? then None
        else if resp.data.Some? && resp.data.value.role.Some? then
          var user := resp.data.value;
          Some(Profile(user.id, user.email, user.role.value.id, user.role.value.role_type))
        else None
  }

  /** What `jwt.decode(token)` gives: it throws, returns `null`, or returns a payload whose `sub` may be absent. */
  datatype Decoded = DecodeThrew | DecodedNull | Payload(sub: Value)

  /** What `verifyAdmin` puts on `request.user`. */
  datatype UserContext = UserContext(auth_id: Value, app_id: Value, email: Value, role: Value)

  /** The gate's decision: a reply that stops the request, or the user to proceed with. */
  datatype Verdict = Stop(reply: Reply<()>) | Proceed(user: UserContext)

  const HeaderMessage: string := "Missing or invalid Authorization header"
  const InvalidTokenMessage: string := "Invalid token"
  const ForbiddenMessage: string := "User does not have Admin privileges"
  const CheckFailedMessage: string := "An error occurred during authentication check"

  /** The header passes when present and prefixed `Bearer ` exactly (section 2.1 of RFC 6750, case-sensitive here). */
  predicate BearerHeader(header: Option<string>)
  {
    header.Some? && StartsWith(header.value, "Bearer ")
  }

  /** `authHeader.split(' ')[1]` for a header that passed the prefix check. */
  function Token(header: string): (token: string)
    requires StartsWith(header, "Bearer ")
    ensures ' ' !in token
  {
    var parts := Split(header, ' ');
    assert |parts| >= 2 by {
      assert header[..6] == "Bearer";
      SplitAtFirst(header, ' ', 6);
    }
    parts[1]
  }

  /** The token is the text after `Bearer `, up to the next space. */
  lemma TokenAfterPrefix(header: string)
    requires StartsWith(header, "Bearer ")
    ensures var rest := header[7..];
      Token(header) == Split(rest, ' ')[0]
  {
    assert header[..6] == "Bearer";
    SplitAtFirst(header, ' ', 6);
  }

  /** For `Bearer ` followed by a space-free token, that token is what the gate decodes. */
  lemma TokenOfBearer(token: string)
    requires ' ' !in token
    ensures StartsWith("Bearer " + token, "Bearer ")
    ensures Token("Bearer " + token) == token
  {
    var header := "Bearer " + token;
    assert header[..7] == "Bearer ";
    TokenAfterPrefix(header);
    assert header[7..] == token;
    SplitWithoutSeparator(token, ' ');
  }

  /**
   * `verifyAdmin(request, reply)` as a decision, given the Authorization
   * header, the decoder and the store's answer to the profile lookup.
   */
  function AdminVerdict(header: Option<string>, decode: string -> Decoded, answer: Outcome<LookupResponse>)
    : (v: Verdict)
    ensures !BearerHeader(header) ==>
      v == Stop(Problem(401, ErrorBody("Unauthorized", HeaderMessage, None)))
    ensures BearerHeader(header) && !decode(Token(header.value)).Payload? ==>
      v == Stop(Problem(401, ErrorBody("Unauthorized", InvalidTokenMessage, None)))
    ensures v.Proceed? <==>
      && BearerHeader(header) && decode(Token(header.value)).Payload?
      && var profile := GetUserAppRole(decode(Token(header.value)).sub, answer);
         profile.Some? && profile.value.roleType == Str("Admin")
    ensures BearerHeader(header) && decode(Token(header.value)).Payload? ==>
      var profile := GetUserAppRole(decode(Token(header.value)).sub, answer);
      && (profile.None? ==>
            v == Stop(Problem(500, ErrorBody("Internal Server Error", CheckFailedMessage, None))))
      && (profile.Some? && profile.value.roleType != Str("Admin") ==>
            v == Stop(Problem(403, ErrorBody("Forbidden", ForbiddenMessage, None))))
  {
    if header.None? || !StartsWith(header.value, "Bearer ") then
      Stop(Problem(401, ErrorBody("Unauthorized", HeaderMessage, None)))
    else
      match decode(Token(header.value))
      case DecodeThrew => Stop(Problem(401, ErrorBody("Unauthorized", InvalidTokenMessage, None)))
      case DecodedNull => Stop(Problem(401, ErrorBody("Unauthorized", InvalidTokenMessage, None)))
      case Payload(userId) =>
        match GetUserAppRole(userId, answer)
        // line 69 reads `.email` of the null profile, and the outer catch answers
        case None =>
          Stop(Problem(500, ErrorBody("Internal Server Error", CheckFailedMessage, None)))
        case Some(profile) =>
          if profile.roleType != Str("Admin") then
            Stop(Problem(403, ErrorBody("Forbidden", ForbiddenMessage, None)))
          else
            Proceed(UserContext(userId, profile.appUserId, profile.email, profile.roleType))
  }

  /** A token without a subject is answered with 500, not 403: the missing profile is dereferenced. */
  lemma MissingSubjectIs500(header: Option<string>, decode: string -> Decoded, answer: Outcome<LookupResponse>)
    requires BearerHeader(header)
    requires decode(Token(header.value)) == Payload(Undefined)
    ensures StatusOf(AdminVerdict(header, decode, answer).reply) == 500
  {
  }

  /**
   * Every way of not finding a profile for a decodable token ends in 500: a
   * falsy subject, a lookup that throws or errs, no Users row, or a row
   * without a role.
   */
  lemma {:induction false} MissingProfileIs500(header: Option<string>, decode: string -> Decoded, answer: Outcome<LookupResponse>)
    requires BearerHeader(header) && decode(Token(header.value)).Payload?
    ensures var v := AdminVerdict(header, decode, answer);
      v.Stop? && StatusOf(v.reply) == 500 <==>
        || !Truthy(decode(Token(header.value)).sub)
        || answer.Threw? || answer.value.error.Some?
        || answer.value.data.None? || answer.value.data.value.role.None?
  {
    var profile := GetUserAppRole(decode(Token(header.value)).sub, answer);
    if profile.Some? && profile.value.roleType != Str("Admin") {
      NonAdminIs403(header, decode, answer);
    }
  }

  /**
   * The gate as line 68 means it: a missing profile is refused with 403 like
   * a non-Admin one (line 69 reads the role with `?.`, but the email without).
   */
  function AdminVerdictIntended(header: Option<string>, decode: string -> Decoded, answer: Outcome<LookupResponse>)
    : (v: Verdict)
  {
    match AdminVerdict(header, decode, answer)
    case Stop(Problem(500, _)) => Stop(Problem(403, ErrorBody("Forbidden", ForbiddenMessage, None)))
    case other => other
  }

  /**
   * The intended gate never answers 500; it refuses with 403 exactly the
   * decodable tokens that do not lead to an Admin profile, and otherwise
   * decides as the gate as written does.
   */
  lemma {:induction false} IntendedGate(header: Option<string>, decode: string -> Decoded, answer: Outcome<LookupResponse>)
    ensures var v := AdminVerdictIntended(header, decode, answer);
      && (v.Stop? ==> StatusOf(v.reply) != 500)
      && (v.Stop? && StatusOf(v.reply) == 403 <==>
           && BearerHeader(header) && decode(Token(header.value)).Payload?
           && var profile := GetUserAppRole(decode(Token(header.value)).sub, answer);
              (profile.None? || profile.value.roleType != Str("Admin")))
      && (AdminVerdict(header, decode, answer).Proceed? || StatusOf(AdminVerdict(header, decode, answer).reply) != 500 ==>
           v == AdminVerdict(header, decode, answer))
  {
    var v := AdminVerdict(header, decode, answer);
    if BearerHeader(header) && decode(Token(header.value)).Payload? {
      var profile := GetUserAppRole(decode(Token(header.value)).sub, answer);
      if profile.None? {
        assert v == Stop(Problem(500, ErrorBody("Internal Server Error", CheckFailedMessage, None)));
      } else if profile.value.roleType != Str("Admin") {
        NonAdminIs403(header, decode, answer);
      }
    }
  }

  /** A profile whose role type is anything but `Admin` (compared exactly) is answered with 403. */
  lemma NonAdminIs403(header: Option<string>, decode: string -> Decoded, answer: Outcome<LookupResponse>)
    requires BearerHeader(header) && decode(Token(header.value)).Payload?
    requires var profile := GetUserAppRole(decode(Token(header.value)).sub, answer);
      profile.Some? && profile.value.roleType != Str("Admin")
    ensures AdminVerdict(header, decode, answer) ==
      Stop(Problem(403, ErrorBody("Forbidden", ForbiddenMessage, None)))
  {
  }

  /** An admitted user carries the token's subject and the profile's id, email and role. */
  lemma AdmittedUser(header: Option<string>, decode: string -> Decoded, answer: Outcome<LookupResponse>)
    requires AdminVerdict(header, decode, answer).Proceed?
    ensures var user := AdminVerdict(header, decode, answer).user;
      var sub := decode(Token(header.value)).sub;
      && Truthy(sub) && user.auth_id == sub && user.role == Str("Admin")
      && answer.Returned? && answer.value.data.Some?
      && user.app_id == answer.value.data.value.id && user.email == answer.value.data.value.email
  {
  }

  /** The request whose `user` field the gate sets. */
  class Request {
    var user: Option<UserContext>

    constructor ()
      ensures user == None
    {
      user := None;
    }
  }

  /**
   * `verifyAdmin` as the source runs it: it either sends a reply and leaves
   * the request alone, or sets `request.user` and sends nothing.
   */
  method VerifyAdmin(request: Request, header: Option<string>, decode: string -> Decoded, answer: Outcome<LookupResponse>)
    returns (sent: Option<Reply<()>>)
    modifies request
    ensures AdminVerdict(header, decode, answer).Stop? ==>
      sent == Some(AdminVerdict(header, decode, answer).reply) && request.user == old(request.user)
    ensures AdminVerdict(header, decode, answer).Proceed? ==>
      sent == None && request.user == Some(AdminVerdict(header, decode, answer).user)
  {
    if header.None? || !StartsWith(header.value, "Bearer ") {
      return Some(Problem(401, ErrorBody("Unauthorized", HeaderMessage, None)));
    }
    var token := Token(header.value);
    var decoded := decode(token);
    if !decoded.Payload? {
      return Some(Problem(401, ErrorBody("Unauthorized", InvalidTokenMessage, None)));
    }
    var userId := decoded.sub;
    var userAppProfile := GetUserAppRole(userId, answer);
    if userAppProfile.None? {
      return Some(Problem(500, ErrorBody("Internal Server Error", CheckFailedMessage, None)));
    }
    if userAppProfile.value.roleType != Str("Admin") {
      return Some(Problem(403, ErrorBody("Forbidden", ForbiddenMessage, None)));
    }
    request.user := Some(UserContext(userId, userAppProfile.value.appUserId, userAppProfile.value.email, userAppProfile.value.roleType));
    sent := None;
  }
}
