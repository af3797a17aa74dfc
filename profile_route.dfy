/** PUT /api/settings/profile (src/app/api/settings/profile/route.ts): the
    signed-in user changes their name, e-mail address or password. The
    checks run in a fixed order (401, 422, 409, 400, 404, 400, 400) and the
    update holds only the fields that were supplied with a non-empty value.
    The database and bcrypt are left out: the route receives the id of the
    user who holds the requested e-mail address (if any), the stored
    password hash (if the user row exists), the outcome of `bcrypt.compare`
    as the `matches` oracle and the new hash as `hash`. */
module ProfileRoute {
  import opened Values
  import opened ApiHelpers
  import opened Validations

  /** `updateProfileSchema` */
  function ProfileIssues(body: Json, isEmail: string -> bool): seq<string> {
    if !body.Obj? then [""]
    else
      Issue(Absent(Get(body, "name")) || StringIn(Get(body, "name"), 1, 100), "name")
      + Issue(Absent(Get(body, "email")) || Email(Get(body, "email"), isEmail), "email")
      + Issue(Absent(Get(body, "currentPassword")) || Get(body, "currentPassword").Str?, "currentPassword")
      + Issue(Absent(Get(body, "newPassword")) || (Get(body, "newPassword").Str? && |Get(body, "newPassword").s| >= 6), "newPassword")
  }

  /** A supplied string the route's `if (...)` treats as true: present and
      not empty. */
  predicate Given(v: Option<string>) {
    v.Some? && v.value != ""
  }

  function Field(body: Json, key: string): Option<string> {
    OptionalString(Get(body, key))
  }

  datatype ProfileUpdate = ProfileUpdate(data: map<string, string>, log: ActivityLog)

  /** `updateData`, built step by step: the name, then the address, then
      the hash of the new password, each only when supplied. */
  function UpdateData(name: Option<string>, email: Option<string>, next: Option<string>, hash: string -> string): map<string, string> {
    var withName: map<string, string> := if Given(name) then map["name" := name.value] else map[];
    var withEmail := if Given(email) then withName["email" := email.value] else withName;
    if Given(next) then withEmail["password" := hash(next.value)] else withEmail
  }

  /** The update holds a key exactly when its field was supplied, with the
      value supplied (the password as its hash), and no other key. */
  lemma UpdateDataFields(name: Option<string>, email: Option<string>, next: Option<string>, hash: string -> string)
    ensures var d := UpdateData(name, email, next, hash);
      && (forall k :: k in d ==> k in {"name", "email", "password"})
      && ("name" in d <==> Given(name)) && ("name" in d ==> d["name"] == name.value)
      && ("email" in d <==> Given(email)) && ("email" in d ==> d["email"] == email.value)
      && ("password" in d <==> Given(next)) && ("password" in d ==> d["password"] == hash(next.value))
  {
  }

  /** PUT: the checks in order, then the update. */
  function Put(user: Option<SessionUser>, body: Json, isEmail: string -> bool, emailOwner: Option<string>,
               storedHash: Option<string>, matches: (string, string) -> bool, hash: string -> string): Response<ProfileUpdate>
  {
    if user.None? then Error("Unauthorized", 401)
    else if ProfileIssues(body, isEmail) != [] then ErrorResponse("Validation failed", Some(422), Some(ProfileIssues(body, isEmail)))
    else Save(user.value, body, emailOwner, storedHash, matches, hash)
  }

  /** What PUT does with a valid body: the conflict and password checks in
      order, then the update. */
  function Save(u: SessionUser, body: Json, emailOwner: Option<string>,
                storedHash: Option<string>, matches: (string, string) -> bool, hash: string -> string): Response<ProfileUpdate>
  {
    var name, email := Field(body, "name"), Field(body, "email");
    var current, next := Field(body, "currentPassword"), Field(body, "newPassword");
    if Given(email) && emailOwner.Some? && emailOwner.value != u.id then Error("This email is already in use", 409)
    else if Given(next) && !Given(current) then Error("Current password is required to set a new password", 400)
    else if Given(next) && storedHash.None? then Error("User not found", 404)
    else if Given(next) && !matches(current.value, storedHash.value) then Error("Current password is incorrect", 400)
    else
      var data := UpdateData(name, email, next, hash);
      if |data| == 0 then Error("No changes to save", 400)
      else SuccessResponse(ProfileUpdate(data, ActivityLog("settings.updated", "Updated profile settings", u.id, u.organizationId)), None)
  }

  /** No user is 401 and an invalid body 422, before anything is looked
      up. */
  lemma PutGuards(user: SessionUser, body: Json, isEmail: string -> bool, emailOwner: Option<string>,
                  storedHash: Option<string>, matches: (string, string) -> bool, hash: string -> string)
    ensures Put(None, body, isEmail, emailOwner, storedHash, matches, hash) == Failure(401, ErrorBody("Unauthorized", None))
    ensures ProfileIssues(body, isEmail) != [] ==>
      Put(Some(user), body, isEmail, emailOwner, storedHash, matches, hash) == Failure(422, ErrorBody("Validation failed", Some(ProfileIssues(body, isEmail))))
  {
  }

  /** Another user's e-mail address is refused with 409 before any password
      check; the user's own address is not a conflict. */
  lemma EmailConflict(user: SessionUser, body: Json, isEmail: string -> bool, owner: string,
                      storedHash: Option<string>, matches: (string, string) -> bool, hash: string -> string)
    requires ProfileIssues(body, isEmail) == [] && Given(Field(body, "email"))
    ensures owner != user.id ==>
      Put(Some(user), body, isEmail, Some(owner), storedHash, matches, hash) == Failure(409, ErrorBody("This email is already in use", None))
    ensures Put(Some(user), body, isEmail, Some(user.id), storedHash, matches, hash) == Put(Some(user), body, isEmail, None, storedHash, matches, hash)
  {
  }

  /** A new password without the current one is refused with 400, and one
      whose current password does not match the stored hash too. */
  lemma PasswordChecks(user: SessionUser, body: Json, isEmail: string -> bool, emailOwner: Option<string>,
                       storedHash: Option<string>, matches: (string, string) -> bool, hash: string -> string)
    requires ProfileIssues(body, isEmail) == [] && Given(Field(body, "newPassword"))
    requires !(Given(Field(body, "email")) && emailOwner.Some? && emailOwner.value != user.id)
    ensures !Given(Field(body, "currentPassword")) ==>
      Put(Some(user), body, isEmail, emailOwner, storedHash, matches, hash) == Failure(400, ErrorBody("Current password is required to set a new password", None))
    ensures Given(Field(body, "currentPassword")) && storedHash.Some? && !matches(Field(body, "currentPassword").value, storedHash.value) ==>
      Put(Some(user), body, isEmail, emailOwner, storedHash, matches, hash) == Failure(400, ErrorBody("Current password is incorrect", None))
  {
  }

  /** A valid body that names nothing to change is refused with 400. */
  lemma NoChanges(user: SessionUser, body: Json, isEmail: string -> bool, emailOwner: Option<string>,
                  storedHash: Option<string>, matches: (string, string) -> bool, hash: string -> string)
    requires ProfileIssues(body, isEmail) == []
    requires !Given(Field(body, "name")) && !Given(Field(body, "email")) && !Given(Field(body, "newPassword"))
    ensures Put(Some(user), body, isEmail, emailOwner, storedHash, matches, hash) == Failure(400, ErrorBody("No changes to save", None))
  {
  }

  /** A saved update holds exactly the supplied fields: the name and the
      address as given and the password as the hash of the new one, which is
      only stored when the current password matched. */
  lemma SavedFields(user: SessionUser, body: Json, isEmail: string -> bool, emailOwner: Option<string>,
                    storedHash: Option<string>, matches: (string, string) -> bool, hash: string -> string)
    requires Put(Some(user), body, isEmail, emailOwner, storedHash, matches, hash).Success?
    ensures var d := Put(Some(user), body, isEmail, emailOwner, storedHash, matches, hash).data.data;
      && |d| > 0
      && (forall k :: k in d ==> k in {"name", "email", "password"})
      && ("name" in d <==> Given(Field(body, "name"))) && ("name" in d ==> d["name"] == Field(body, "name").value)
      && ("email" in d <==> Given(Field(body, "email"))) && ("email" in d ==> d["email"] == Field(body, "email").value)
      && ("password" in d <==> Given(Field(body, "newPassword")))
      && ("password" in d ==>
            (&& d["password"] == hash(Field(body, "newPassword").value)
             && storedHash.Some? && Given(Field(body, "currentPassword"))
             && matches(Field(body, "currentPassword").value, storedHash.value)))
  {
    assert ProfileIssues(body, isEmail) == [];
    SaveSaves(user, body, emailOwner, storedHash, matches, hash);
    UpdateDataFields(Field(body, "name"), Field(body, "email"), Field(body, "newPassword"), hash);
  }

  /** A successful save writes `updateData`, and a new password only after
      the current one matched the stored hash. */
  lemma SaveSaves(u: SessionUser, body: Json, emailOwner: Option<string>,
                  storedHash: Option<string>, matches: (string, string) -> bool, hash: string -> string)
    requires Save(u, body, emailOwner, storedHash, matches, hash).Success?
    ensures var d := Save(u, body, emailOwner, storedHash, matches, hash).data.data;
      var next := Field(body, "newPassword");
      && d == UpdateData(Field(body, "name"), Field(body, "email"), next, hash) && |d| > 0
      && (Given(next) ==>
            storedHash.Some? && Given(Field(body, "currentPassword"))
            && matches(Field(body, "currentPassword").value, storedHash.value))
  {
  }
}
