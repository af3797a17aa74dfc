/** The request-body schemas of src/lib/validations/customer.ts and
    src/lib/validations/team.ts, as predicates over a parsed JSON body. A
    schema's verdict is the list of its issues, one per failing field, named
    by the field's key ("" when the body is not an object); the body is
    accepted when the list is empty. Whether a string is an e-mail address is
    the `isEmail` parameter. Keys the schemas do not mention are ignored. */
module Validations {
  import opened Values

  const CustomerStatuses: set<string> := {"ACTIVE", "INACTIVE", "CHURNED"}
  const Roles: set<string> := {"ADMIN", "MANAGER", "MEMBER"}
  const InvitableRoles: set<string> := {"MANAGER", "MEMBER"}

  /** One issue named `path` unless the field is fine. */
  function Issue(ok: bool, path: string): seq<string> {
    if ok then [] else [path]
  }

  /** `.optional()`: the key is missing (reads as `undefined`). */
  predicate Absent(v: Json) {
    v == Undefined
  }

  /** `z.string().min(lo).max(hi)` */
  predicate StringIn(v: Json, lo: int, hi: int) {
    v.Str? && lo <= |v.s| <= hi
  }

  /** `z.email()` */
  predicate Email(v: Json, isEmail: string -> bool) {
    v.Str? && isEmail(v.s)
  }

  /** `z.enum([...])` */
  predicate OneOf(v: Json, values: set<string>) {
    v.Str? && v.s in values
  }

  // ---- customerCreateSchema / customerUpdateSchema ----

  function CustomerCreateIssues(body: Json, isEmail: string -> bool): seq<string> {
    if !body.Obj? then [""]
    else
      Issue(StringIn(Get(body, "name"), 1, 100), "name")
      + Issue(Email(Get(body, "email"), isEmail), "email")
      + Issue(Absent(Get(body, "company")) || StringIn(Get(body, "company"), 0, 100), "company")
      + Issue(Absent(Get(body, "status")) || OneOf(Get(body, "status"), CustomerStatuses), "status")
  }

  function CustomerUpdateIssues(body: Json, isEmail: string -> bool): seq<string> {
    if !body.Obj? then [""]
    else
      Issue(Absent(Get(body, "name")) || StringIn(Get(body, "name"), 1, 100), "name")
      + Issue(Absent(Get(body, "email")) || Email(Get(body, "email"), isEmail), "email")
      + Issue(Absent(Get(body, "company")) || Get(body, "company") == Null || StringIn(Get(body, "company"), 0, 100), "company")
      + Issue(Absent(Get(body, "status")) || OneOf(Get(body, "status"), CustomerStatuses), "status")
  }

  /** The data a successful create parse yields; optional fields that were
      not supplied stay absent. */
  datatype CustomerCreate = CustomerCreate(name: string, email: string, company: Option<string>, status: Option<string>)

  function OptionalString(v: Json): Option<string> {
    if v.Str? then Some(v.s) else None
  }

  /** `customerCreateSchema.safeParse(body)` */
  function ParseCustomerCreate(body: Json, isEmail: string -> bool): (r: Option<CustomerCreate>)
    ensures r.Some? <==> CustomerCreateIssues(body, isEmail) == []
  {
    if CustomerCreateIssues(body, isEmail) == [] then
      Some(CustomerCreate(Get(body, "name").s, Get(body, "email").s, OptionalString(Get(body, "company")), OptionalString(Get(body, "status"))))
    else None
  }

  /** Create accepts a body exactly when it is an object whose name has 1 to
      100 characters, whose email is an address, whose company is missing or
      at most 100 characters and whose status is missing or one of ACTIVE,
      INACTIVE and CHURNED. */
  lemma CustomerCreateIff(body: Json, isEmail: string -> bool)
    ensures CustomerCreateIssues(body, isEmail) == [] <==>
      && body.Obj?
      && Get(body, "name").Str? && 1 <= |Get(body, "name").s| <= 100
      && Get(body, "email").Str? && isEmail(Get(body, "email").s)
      && (Get(body, "company") == Undefined || (Get(body, "company").Str? && |Get(body, "company").s| <= 100))
      && (Get(body, "status") == Undefined || Get(body, "status") in {Str("ACTIVE"), Str("INACTIVE"), Str("CHURNED")})
  {
  }

  /** A missing name, or one of 101 characters, is refused. */
  lemma CustomerCreateNameRequired(fields: map<string, Json>, isEmail: string -> bool)
    ensures "name" !in fields ==> CustomerCreateIssues(Obj(fields), isEmail) != []
    ensures CustomerCreateIssues(Obj(fields["name" := Str(seq(101, _ => 'a'))]), isEmail) != []
  {
    var long := Obj(fields["name" := Str(seq(101, _ => 'a'))]);
    assert Get(long, "name") == Str(seq(101, _ => 'a'));
  }

  /** A create body without a status parses with the status left absent
      (the route fills in the default). */
  lemma CustomerCreateStatusAbsent(fields: map<string, Json>, isEmail: string -> bool)
    requires "status" !in fields && CustomerCreateIssues(Obj(fields), isEmail) == []
    ensures ParseCustomerCreate(Obj(fields), isEmail).value.status == None
  {
  }

  /** Update accepts `{}`, and a body holding only a valid name. */
  lemma CustomerUpdatePartial(isEmail: string -> bool)
    ensures CustomerUpdateIssues(Obj(map[]), isEmail) == []
    ensures CustomerUpdateIssues(Obj(map["name" := Str("Updated Name")]), isEmail) == []
  {
    var b := Obj(map["name" := Str("Updated Name")]);
    assert Get(b, "email") == Undefined && Get(b, "company") == Undefined && Get(b, "status") == Undefined;
  }

  /** `company: null` passes update but never create. */
  lemma NullCompany(fields: map<string, Json>, isEmail: string -> bool)
    ensures CustomerCreateIssues(Obj(fields["company" := Null]), isEmail) != []
    ensures CustomerUpdateIssues(Obj(fields), isEmail) == [] ==> CustomerUpdateIssues(Obj(fields["company" := Null]), isEmail) == []
  {
    var b := Obj(fields["company" := Null]);
    assert Get(b, "company") == Null;
    assert forall k :: k != "company" ==> Get(b, k) == Get(Obj(fields), k);
  }

  /** Every body create accepts, update accepts too. */
  lemma CreateImpliesUpdate(body: Json, isEmail: string -> bool)
    requires CustomerCreateIssues(body, isEmail) == []
    ensures CustomerUpdateIssues(body, isEmail) == []
  {
  }

  // ---- roleUpdateSchema / inviteSchema ----

  function RoleUpdateIssues(body: Json): seq<string> {
    if !body.Obj? then [""] else Issue(OneOf(Get(body, "role"), Roles), "role")
  }

  function InviteIssues(body: Json, isEmail: string -> bool): seq<string> {
    if !body.Obj? then [""]
    else
      Issue(Email(Get(body, "email"), isEmail), "email")
      + Issue(Absent(Get(body, "role")) || OneOf(Get(body, "role"), InvitableRoles), "role")
  }

  /** The role update accepts exactly ADMIN, MANAGER and MEMBER; a missing
      role is refused. */
  lemma RoleUpdateIff(fields: map<string, Json>)
    ensures RoleUpdateIssues(Obj(fields)) == [] <==> "role" in fields && fields["role"] in {Str("ADMIN"), Str("MANAGER"), Str("MEMBER")}
  {
  }

  /** The invite needs an e-mail address; its role is optional and, when
      given, must be MANAGER or MEMBER, so ADMIN and OWNER are refused. */
  lemma InviteIff(fields: map<string, Json>, isEmail: string -> bool)
    ensures InviteIssues(Obj(fields), isEmail) == [] <==>
      && "email" in fields && fields["email"].Str? && isEmail(fields["email"].s)
      && (Get(Obj(fields), "role") == Undefined || fields["role"] in {Str("MANAGER"), Str("MEMBER")})
    ensures "role" in fields && fields["role"] in {Str("ADMIN"), Str("OWNER")} ==> InviteIssues(Obj(fields), isEmail) != []
  {
  }
}
