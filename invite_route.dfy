/** POST /api/team/invite (src/app/api/team/invite/route.ts): an
    administrator adds a member by e-mail address. The member is created at
    once, named after the part of the address before the first `@`, with
    the requested role or MEMBER, and a temporary password. The database and
    bcrypt are left out: the route receives whether the address is taken and
    the temporary password's hash. */
module InviteRoute {
  import opened Values
  import opened Text
  import opened ApiHelpers
  import opened Validations

  datatype NewMember = NewMember(name: string, email: string, passwordHash: string, role: string, organizationId: string)

  datatype Invitation = Invitation(member: NewMember, log: ActivityLog, invited: bool)

  /** `email.split("@")[0]` */
  function MemberName(email: string): string {
    Split(email, '@')[0]
  }

  /** POST: 401, 403 for anyone but an administrator, 422, 409 for an
      address already in use, then 201 with the new member. */
  function Post(user: Option<SessionUser>, body: Json, isEmail: string -> bool, emailTaken: bool, tempHash: string): Response<Invitation> {
    if user.None? then Error("Unauthorized", 401)
    else if user.value.role != "ADMIN" then Error("Forbidden: Only admins can invite members", 403)
    else if InviteIssues(body, isEmail) != [] then ErrorResponse("Validation failed", Some(422), Some(InviteIssues(body, isEmail)))
    else if emailTaken then Error("A user with this email already exists", 409)
    else
      var u := user.value;
      var email := Get(body, "email").s;
      var role := OptionalString(Get(body, "role")).GetOr("MEMBER");
      SuccessResponse(Invitation(NewMember(MemberName(email), email, tempHash, role, u.organizationId),
        ActivityLog("user.invited", "Invited " + email + " as " + role, u.id, u.organizationId), true), Some(201))
  }

  /** Guards in order: 401, then 403 whatever the body, then 422, then 409. */
  lemma PostGuards(user: SessionUser, body: Json, isEmail: string -> bool, emailTaken: bool, tempHash: string)
    ensures Post(None, body, isEmail, emailTaken, tempHash).status == 401
    ensures user.role != "ADMIN" ==>
      Post(Some(user), body, isEmail, emailTaken, tempHash) == Failure(403, ErrorBody("Forbidden: Only admins can invite members", None))
    ensures user.role == "ADMIN" && InviteIssues(body, isEmail) != [] ==>
      Post(Some(user), body, isEmail, emailTaken, tempHash) == Failure(422, ErrorBody("Validation failed", Some(InviteIssues(body, isEmail))))
    ensures user.role == "ADMIN" && InviteIssues(body, isEmail) == [] && emailTaken ==>
      Post(Some(user), body, isEmail, emailTaken, tempHash) == Failure(409, ErrorBody("A user with this email already exists", None))
  {
  }

  /** A successful invite answers 201 and creates the member in the
      administrator's organization, under the given address, with the
      requested role (MANAGER or MEMBER, MEMBER when none was given) and the
      temporary password, named by the text before the address's first
      `@`. */
  lemma InviteCreates(user: SessionUser, body: Json, isEmail: string -> bool, tempHash: string)
    requires user.role == "ADMIN" && InviteIssues(body, isEmail) == []
    ensures var r := Post(Some(user), body, isEmail, false, tempHash);
      var m := r.data.member;
      && r.Success? && r.status == 201 && r.data.invited
      && m.email == Get(body, "email").s && isEmail(m.email)
      && m.organizationId == user.organizationId && m.passwordHash == tempHash
      && m.role in InvitableRoles
      && (Get(body, "role") == Undefined ==> m.role == "MEMBER")
      && m.name == m.email[..|m.name|] && '@' !in m.name
      && (|m.name| == |m.email| || m.email[|m.name|] == '@')
  {
    var email := Get(body, "email").s;
    SplitFirst(email, '@');
  }
}
