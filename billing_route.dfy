/** GET and PUT /api/billing/subscription
    (src/app/api/billing/subscription/route.ts). PUT changes the
    organization's plan: only an administrator may, the body must name one
    of the three plans, and the organization's latest subscription is then
    updated, or a first one created, with status CANCELED for the free plan
    and ACTIVE otherwise. The database is left out: the route receives the
    latest subscription's id (if any) and the organization's name, and
    returns the writes it would make. */
module BillingRoute {
  import opened Values
  import opened ApiHelpers
  import opened Validations
  import opened Notifications

  const Plans: set<string> := {"FREE", "PRO", "ENTERPRISE"}

  /** `updateSchema`: `{ plan: "FREE" | "PRO" | "ENTERPRISE" }` */
  function PlanIssues(body: Json): seq<string> {
    if !body.Obj? then [""] else Issue(OneOf(Get(body, "plan"), Plans), "plan")
  }

  /** The status a plan's subscription gets. */
  function SubscriptionStatus(plan: string): (r: string)
    ensures r == "CANCELED" <==> plan == "FREE"
    ensures r == "CANCELED" || r == "ACTIVE"
  {
    if plan == "FREE" then "CANCELED" else "ACTIVE"
  }

  /** The subscription write: update the latest one by id, or create one for
      the organization. `periodEnd` is one month from now. */
  datatype SubscriptionWrite =
    | UpdateSubscription(id: string, plan: string, status: string, periodEnd: int)
    | CreateSubscription(plan: string, status: string, periodEnd: int, organizationId: string)

  datatype PlanChange = PlanChange(
    organizationPlan: string, write: SubscriptionWrite, log: ActivityLog,
    notification: NotificationInput, currentPlan: string)

  /** PUT: 401, then 403 for anyone but an administrator, then 422, then the
      plan change. */
  function Put(user: Option<SessionUser>, body: Json, existing: Option<string>, organizationName: string, periodEnd: int): Response<PlanChange> {
    if user.None? then Error("Unauthorized", 401)
    else if user.value.role != "ADMIN" then Error("Forbidden: Only admins can change the subscription plan", 403)
    else if PlanIssues(body) != [] then ErrorResponse("Validation failed", Some(422), Some(PlanIssues(body)))
    else
      var u := user.value;
      var plan := Get(body, "plan").s;
      var status := SubscriptionStatus(plan);
      var write := if existing.Some? then UpdateSubscription(existing.value, plan, status, periodEnd)
                   else CreateSubscription(plan, status, periodEnd, u.organizationId);
      SuccessResponse(PlanChange(plan, write,
        ActivityLog("subscription.changed", "Changed plan to " + plan, u.id, u.organizationId),
        NotificationInput("Plan Changed", organizationName + "'s plan has been changed to " + plan, u.id),
        plan), None)
  }

  /** The guards come in order: no user is 401 whatever the body, a
      non-administrator is 403 whatever the body, and an administrator's
      invalid body is 422 with its issues. */
  lemma PutGuards(user: SessionUser, body: Json, existing: Option<string>, organizationName: string, periodEnd: int)
    ensures Put(None, body, existing, organizationName, periodEnd).status == 401
    ensures user.role != "ADMIN" ==>
      Put(Some(user), body, existing, organizationName, periodEnd) == Failure(403, ErrorBody("Forbidden: Only admins can change the subscription plan", None))
    ensures user.role == "ADMIN" && PlanIssues(body) != [] ==>
      Put(Some(user), body, existing, organizationName, periodEnd) == Failure(422, ErrorBody("Validation failed", Some(PlanIssues(body))))
  {
    if user.role == "ADMIN" {
    }
  }

  /** An administrator's valid change sets the organization's plan to the
      requested one, updates the latest subscription when there is one and
      creates one otherwise, cancels it exactly for the free plan, and
      answers 200 with the new plan. */
  lemma PutChangesPlan(user: SessionUser, plan: string, fields: map<string, Json>, existing: Option<string>, organizationName: string, periodEnd: int)
    requires user.role == "ADMIN" && plan in Plans
    ensures var r := Put(Some(user), Obj(fields["plan" := Str(plan)]), existing, organizationName, periodEnd);
      && r.Success? && r.status == 200
      && r.data.organizationPlan == plan && r.data.currentPlan == plan
      && r.data.write.plan == plan && r.data.write.periodEnd == periodEnd
      && (r.data.write.UpdateSubscription? <==> existing.Some?)
      && (existing.Some? ==> r.data.write.id == existing.value)
      && (r.data.write.CreateSubscription? ==> r.data.write.organizationId == user.organizationId)
      && (r.data.write.status == "CANCELED" <==> plan == "FREE")
      && r.data.notification.userId == user.id
  {
    assert Get(Obj(fields["plan" := Str(plan)]), "plan") == Str(plan);
  }

  /** An administrator's body is accepted exactly when its plan is one of
      the three. */
  lemma PlanIssuesIff(fields: map<string, Json>)
    ensures PlanIssues(Obj(fields)) == [] <==> "plan" in fields && fields["plan"] in {Str("FREE"), Str("PRO"), Str("ENTERPRISE")}
  {
  }

  /** The organization row GET reads. */
  datatype OrganizationRow = OrganizationRow(plan: string, name: string)

  datatype BillingInfo = BillingInfo(subscription: Option<string>, currentPlan: string, organizationName: string)

  /** GET: 401, or the latest subscription with the current plan, FREE and
      an empty name when the organization is not found. */
  function GetInfo(user: Option<SessionUser>, subscription: Option<string>, organization: Option<OrganizationRow>): (r: Response<BillingInfo>)
    ensures user.None? <==> r == Failure(401, ErrorBody("Unauthorized", None))
    ensures user.Some? ==> r.Success? && r.data.subscription == subscription
    ensures user.Some? && organization.None? ==> r.data.currentPlan == "FREE" && r.data.organizationName == ""
    ensures user.Some? && organization.Some? ==> r.data.currentPlan == organization.value.plan && r.data.organizationName == organization.value.name
  {
    if user.None? then Error("Unauthorized", 401)
    else
      var plan := if organization.Some? then organization.value.plan else "FREE";
      var name := if organization.Some? then organization.value.name else "";
      SuccessResponse(BillingInfo(subscription, plan, name), None)
  }
}
