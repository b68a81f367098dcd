/**
 * `GET /api/users/me` (src/controllers/userController.js): the caller's own
 * application profile, found through the token's subject.
 */
module UserController {
  import opened Js
  import opened Http
  import opened Auth

  /**
   * `getMe(request, reply)`, given the Authorization header, the decoder and
   * the store's answer to the profile lookup.  Its 200 body is
   * `{ profile }`; the value here is that profile.
   */
  function GetMe(header: Option<string>, decode: string -> Decoded, answer: Outcome<LookupResponse>)
    : (r: Reply<Profile>)
    ensures StatusOf(r) in {200, 401, 404}
    ensures StatusOf(r) == 401 <==>
      !BearerHeader(header) || !decode(Token(header.value)).Payload? || !Truthy(decode(Token(header.value)).sub)
    ensures r.Json? <==>
      StatusOf(r) != 401 && GetUserAppRole(decode(Token(header.value)).sub, answer).Some?
    ensures r.Json? ==> r == Json(200, GetUserAppRole(decode(Token(header.value)).sub, answer).value)
  {
    if !BearerHeader(header) then
      Problem(401, ErrorBody("Unauthorized", HeaderMessage, None))
    else
      var decoded := decode(Token(header.value));
      // `decoded?.sub` is undefined for a null payload; a falsy subject is rejected too
      var userId := if decoded.Payload? then decoded.sub else Undefined;
      if decoded.DecodeThrew? || !Truthy(userId) then
        Problem(401, ErrorBody("Unauthorized", InvalidTokenMessage, None))
      else
        match GetUserAppRole(userId, answer)
        case None => Problem(404, ErrorBody("Not Found", "User profile not found", None))
        case Some(profile) => Json(200, profile)
  }

  /**
   * A caller the admin gate admits can read their own profile, and it is the
   * profile the gate put on the request.
   */
  lemma {:induction false} AdminSeesOwnProfile(header: Option<string>, decode: string -> Decoded, answer: Outcome<LookupResponse>)
    requires AdminVerdict(header, decode, answer).Proceed?
    ensures var r := GetMe(header, decode, answer);
      var user := AdminVerdict(header, decode, answer).user;
      && r.Json?
      && r.value.appUserId == user.app_id && r.value.email == user.email && r.value.roleType == user.role
  {
    AdmittedUser(header, decode, answer);
  }

  /**
   * A decodable token without a subject is 401 here but 500 at the admin
   * gate, which dereferences the missing profile.
   */
  lemma {:induction false} SubjectlessToken(header: Option<string>, decode: string -> Decoded, answer: Outcome<LookupResponse>)
    requires BearerHeader(header) && decode(Token(header.value)) == Payload(Undefined)
    ensures StatusOf(GetMe(header, decode, answer)) == 401
    ensures StatusOf(AdminVerdict(header, decode, answer).reply) == 500
  {
    MissingSubjectIs500(header, decode, answer);
  }
}
