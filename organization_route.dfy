/** PUT /api/settings/organization
    (src/app/api/settings/organization/route.ts): an administrator renames
    the organization or changes its slug. A slug must be 1 to 50 lower-case
    letters, digits or hyphens, and may not belong to another organization.
    The database is left out: the route receives the id of the organization
    holding the requested slug, if any. */
module OrganizationRoute {
  import opened Values
  import opened ApiHelpers
  import opened Validations

  /** `/^[a-z0-9-]+$/` */
  predicate SlugPattern(s: string) {
    |s| >= 1 && forall i :: 0 <= i < |s| ==> ('a' <= s[i] <= 'z' || '0' <= s[i] <= '9' || s[i] == '-')
  }

  /** `updateOrgSchema`. The slug's checks do not stop at the first
      failure: a string slug gets one issue for its length and one for the
      pattern, so the empty slug gets two; a slug that is not a string gets
      only the type issue. */
  function OrgIssues(body: Json): seq<string> {
    if !body.Obj? then [""]
    else
      Issue(Absent(Get(body, "name")) || StringIn(Get(body, "name"), 1, 100), "name")
      + SlugIssues(Get(body, "slug"))
  }

  function SlugIssues(slug: Json): seq<string> {
    if Absent(slug) then []
    else if !slug.Str? then ["slug"]
    else Issue(1 <= |slug.s| <= 50, "slug") + Issue(SlugPattern(slug.s), "slug")
  }

  /** A string slug gets one "slug" issue per failed check, the length
      check and the pattern counted apart: the empty slug fails both, and
      so does a 51-character upper-case slug. A slug of another type gets
      exactly one. */
  lemma SlugIssueCount(s: string, other: Json)
    requires !other.Str? && !Absent(other)
    ensures var issues := OrgIssues(Obj(map["slug" := Str(s)]));
      && (forall i :: 0 <= i < |issues| ==> issues[i] == "slug")
      && |issues| == (if 1 <= |s| <= 50 then 0 else 1) + (if SlugPattern(s) then 0 else 1)
    ensures OrgIssues(Obj(map["slug" := Str("")])) == ["slug", "slug"]
    ensures OrgIssues(Obj(map["slug" := other])) == ["slug"]
  {
    var b := Obj(map["slug" := Str(s)]);
    assert Get(b, "name") == Undefined && Get(b, "slug") == Str(s);
    assert Get(Obj(map["slug" := other]), "slug") == other;
  }

  /** `parsed.data`: the supplied fields only. */
  function OrgData(body: Json): (d: map<string, string>)
    ensures forall k :: k in d <==> (k == "name" || k == "slug") && Get(body, k).Str?
    ensures forall k :: k in d ==> d[k] == Get(body, k).s
  {
    var withName := if Get(body, "name").Str? then map["name" := Get(body, "name").s] else map[];
    if Get(body, "slug").Str? then withName["slug" := Get(body, "slug").s] else withName
  }

  datatype OrgUpdate = OrgUpdate(organizationId: string, data: map<string, string>, log: ActivityLog)

  /** PUT: 401, 403 for anyone but an administrator, 422, 409 for a slug
      another organization holds, then the update. */
  function Put(user: Option<SessionUser>, body: Json, slugOwner: Option<string>): Response<OrgUpdate> {
    if user.None? then Error("Unauthorized", 401)
    else if user.value.role != "ADMIN" then Error("Forbidden: Only admins can update organization settings", 403)
    else if OrgIssues(body) != [] then ErrorResponse("Validation failed", Some(422), Some(OrgIssues(body)))
    else
      var u := user.value;
      var slug := OptionalString(Get(body, "slug"));
      if slug.Some? && slug.value != "" && slugOwner.Some? && slugOwner.value != u.organizationId then
        Error("This slug is already taken", 409)
      else
        SuccessResponse(OrgUpdate(u.organizationId, OrgData(body), ActivityLog("settings.updated", "Updated organization settings", u.id, u.organizationId)), None)
  }

  /** The slug is accepted exactly when it is missing or 1 to 50 characters
      of `a`-`z`, `0`-`9` and `-`; upper case and spaces are refused. */
  lemma SlugIff(fields: map<string, Json>)
    requires "name" !in fields
    ensures OrgIssues(Obj(fields)) == [] <==>
      Get(Obj(fields), "slug") == Undefined || (fields["slug"].Str? && |fields["slug"].s| <= 50 && SlugPattern(fields["slug"].s))
    ensures OrgIssues(Obj(fields["slug" := Str("My Org")])) != []
  {
    var b := Obj(fields["slug" := Str("My Org")]);
    assert Get(b, "slug") == Str("My Org");
    assert "My Org"[0] == 'M';
    assert !SlugPattern("My Org");
  }

  /** Guards in order: 401, then 403 whatever the body, then 422. */
  lemma PutGuards(user: SessionUser, body: Json, slugOwner: Option<string>)
    ensures Put(None, body, slugOwner).status == 401
    ensures user.role != "ADMIN" ==>
      Put(Some(user), body, slugOwner) == Failure(403, ErrorBody("Forbidden: Only admins can update organization settings", None))
    ensures user.role == "ADMIN" && OrgIssues(body) != [] ==>
      Put(Some(user), body, slugOwner) == Failure(422, ErrorBody("Validation failed", Some(OrgIssues(body))))
  {
    if user.role == "ADMIN" {
    }
  }

  /** An administrator's valid change is refused with 409 exactly when the
      slug belongs to another organization (keeping one's own slug is
      fine), and otherwise writes the supplied fields to the caller's own
      organization. */
  lemma SlugConflict(user: SessionUser, body: Json, slugOwner: Option<string>)
    requires user.role == "ADMIN" && OrgIssues(body) == []
    ensures Put(Some(user), body, slugOwner).status == 409 <==>
      Get(body, "slug").Str? && slugOwner.Some? && slugOwner.value != user.organizationId
    ensures Put(Some(user), body, Some(user.organizationId)).Success?
    ensures Put(Some(user), body, slugOwner).Success? ==>
      && Put(Some(user), body, slugOwner).data.organizationId == user.organizationId
      && Put(Some(user), body, slugOwner).data.data == OrgData(body)
  {
  }
}
