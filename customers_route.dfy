/** GET and POST /api/customers (src/app/api/customers/route.ts): the list
    query built from the search parameters (organization scope, free-text
    search, status filter, ordering, pagination) and the create guard with
    its default status. The database is left out: the list response takes
    the matching row count as the `total` parameter, and a create returns
    the record it would store together with the activity-log entry and the
    notification it triggers. */
module CustomersRoute {
  import opened Values
  import opened ApiHelpers
  import opened Validations
  import opened Notifications

  const AllowedSortFields: seq<string> := ["name", "email", "company", "status", "createdAt"]

  /** `{ [field]: { contains: value, mode: "insensitive" } }` */
  datatype Condition = ContainsInsensitive(field: string, value: string)

  /** `where`: the organization scope, the optional `OR` of search
      conditions and the optional status. */
  datatype Where = Where(organizationId: string, anyOf: Option<seq<Condition>>, status: Option<string>)

  datatype ListParams = ListParams(
    page: Option<int>, limit: Option<int>, search: Option<string>,
    status: Option<string>, sortBy: Option<string>, sortOrder: Option<string>)

  datatype Query = Query(where: Where, skip: int, take: int, orderField: string, order: string)

  datatype PageInfo = PageInfo(page: int, limit: int, total: nat, totalPages: nat)

  datatype Listing = Listing(query: Query, pagination: PageInfo)

  /** Builds `where` field by field, as the route does. */
  method BuildWhere(organizationId: string, search: string, status: string) returns (where: Where)
    ensures where.organizationId == organizationId
    ensures where.anyOf.Some? <==> search != ""
    ensures where.anyOf.Some? ==>
      where.anyOf.value == [ContainsInsensitive("name", search), ContainsInsensitive("email", search), ContainsInsensitive("company", search)]
    ensures where.status.Some? <==> status in CustomerStatuses
    ensures where.status.Some? ==> where.status.value == status
  {
    where := Where(organizationId, None, None);
    if search != "" {
      where := where.(anyOf := Some([ContainsInsensitive("name", search), ContainsInsensitive("email", search), ContainsInsensitive("company", search)]));
    }
    if status != "" && status in CustomerStatuses {
      where := where.(status := Some(status));
    }
  }

  /** The order field: `sortBy` when it is one of the allowed fields,
      otherwise `createdAt`. */
  function OrderField(sortBy: Option<string>): (r: string)
    ensures r in AllowedSortFields
    ensures r == sortBy.GetOr("createdAt") <==> sortBy.GetOr("createdAt") in AllowedSortFields
  {
    var s := sortBy.GetOr("createdAt");
    if s in AllowedSortFields then s else "createdAt"
  }

  /** Ascending exactly when the parameter is "asc". */
  function SortOrder(sortOrder: Option<string>): (r: string)
    ensures r == "asc" || r == "desc"
    ensures r == "asc" <==> sortOrder == Some("asc")
  {
    if sortOrder == Some("asc") then "asc" else "desc"
  }

  /** `Math.ceil(total / limit)` */
  function TotalPages(total: nat, limit: int): (r: nat)
    requires limit >= 1
    ensures (r - 1) * limit < total <= r * limit
    ensures r == 0 <==> total == 0
  {
    var q := (total + limit - 1) / limit;
    assert q * limit + (total + limit - 1) % limit == total + limit - 1;
    q
  }

  /** Nothing else satisfies the ceiling property. */
  lemma TotalPagesUnique(total: nat, limit: int, n: int)
    requires limit >= 1 && (n - 1) * limit < total <= n * limit
    ensures n == TotalPages(total, limit)
  {
    var r := TotalPages(total, limit);
    if n < r {
      assert n * limit <= (r - 1) * limit by { MulMono(n, r - 1, limit); }
    }
  }

  lemma MulMono(a: int, b: int, c: int)
    requires a <= b && c >= 0
    ensures a * c <= b * c
  {
  }

  /** GET: refuse without a user; otherwise the query (the organization's
      rows, the case-insensitive search over name, e-mail and company when
      a search is given, the status when it is a known one) and the
      pagination block for `total` matching rows. */
  method List(user: Option<SessionUser>, params: ListParams, total: nat) returns (resp: Response<Listing>)
    ensures user.None? ==> resp == Failure(401, ErrorBody("Unauthorized", None))
    ensures user.Some? ==> resp.Success? && resp.status == 200
    ensures user.Some? ==>
      var p := ParsePaginationParams(params.page, params.limit);
      var l := resp.data;
      var search := params.search.GetOr("");
      var status := params.status.GetOr("");
      && l.query.where == Where(user.value.organizationId,
           if search != "" then Some([ContainsInsensitive("name", search), ContainsInsensitive("email", search), ContainsInsensitive("company", search)]) else None,
           if status in CustomerStatuses then Some(status) else None)
      && l.query.skip == p.skip && l.query.take == p.limit
      && l.query.orderField == OrderField(params.sortBy) && l.query.order == SortOrder(params.sortOrder)
      && l.pagination == PageInfo(p.page, p.limit, total, TotalPages(total, p.limit))
  {
    if user.None? {
      return Error("Unauthorized", 401);
    }
    var p := ParsePaginationParams(params.page, params.limit);
    PaginationBounds(params.page, params.limit);
    var where := BuildWhere(user.value.organizationId, params.search.GetOr(""), params.status.GetOr(""));
    var query := Query(where, p.skip, p.limit, OrderField(params.sortBy), SortOrder(params.sortOrder));
    return SuccessResponse(Listing(query, PageInfo(p.page, p.limit, total, TotalPages(total, p.limit))), None);
  }

  datatype NewCustomer = NewCustomer(name: string, email: string, company: Option<string>, status: string, organizationId: string)

  /** The stored customer and what its creation triggers. */
  datatype Creation = Creation(customer: NewCustomer, log: ActivityLog, notification: NotificationInput)

  /** POST: 401 without a user, 422 with the issues for an invalid body,
      otherwise 201 with the stored customer, whose status defaults to
      ACTIVE. */
  function Create(user: Option<SessionUser>, body: Json, isEmail: string -> bool): Response<Creation> {
    if user.None? then Error("Unauthorized", 401)
    else
      var parsed := ParseCustomerCreate(body, isEmail);
      if parsed.None? then ErrorResponse("Validation failed", Some(422), Some(CustomerCreateIssues(body, isEmail)))
      else
        var d := parsed.value;
        var c := NewCustomer(d.name, d.email, d.company, d.status.GetOr("ACTIVE"), user.value.organizationId);
        SuccessResponse(Creation(c,
          ActivityLog("customer.created", "Created customer: " + c.name, user.value.id, user.value.organizationId),
          NotificationInput("New Customer", c.name + " was added as a new customer", user.value.id)), Some(201))
  }

  /** An invalid body is refused with 422 and nothing is created; a valid
      one is created with status 201 in the caller's organization, keeping
      a supplied status and defaulting to ACTIVE otherwise. */
  lemma CreateGuards(user: SessionUser, body: Json, isEmail: string -> bool)
    ensures Create(None, body, isEmail) == Failure(401, ErrorBody("Unauthorized", None))
    ensures CustomerCreateIssues(body, isEmail) != [] ==>
      Create(Some(user), body, isEmail) == Failure(422, ErrorBody("Validation failed", Some(CustomerCreateIssues(body, isEmail))))
    ensures CustomerCreateIssues(body, isEmail) == [] ==>
      var r := Create(Some(user), body, isEmail);
      && r.Success? && r.status == 201
      && r.data.customer.organizationId == user.organizationId
      && r.data.customer.name == Get(body, "name").s
      && r.data.customer.status == (if Get(body, "status").Str? then Get(body, "status").s else "ACTIVE")
      && r.data.customer.status in CustomerStatuses
  {
  }

  /** Twenty-five rows at ten per page make three pages; no rows make none. */
  lemma TotalPagesExamples()
    ensures TotalPages(25, 10) == 3 && TotalPages(0, 10) == 0 && TotalPages(30, 10) == 3
  {
    TotalPagesUnique(25, 10, 3);
    TotalPagesUnique(0, 10, 0);
    TotalPagesUnique(30, 10, 3);
  }
}
