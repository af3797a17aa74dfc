/** The activity feed on the dashboard
    (src/components/dashboard/recent-activity.tsx): each log line shows a
    label for its action, its details and author, and its age; ages of a
    month or more show the date instead, rendered by the browser's locale,
    which is the `localeDate` parameter. */
module RecentActivity {
  import opened Values
  import opened RelativeTime

  const ActionLabels: map<string, string> := map[
    "customer.created" := "New customer added",
    "customer.updated" := "Customer updated",
    "customer.deleted" := "Customer deleted",
    "user.login" := "User logged in",
    "user.invited" := "Member invited",
    "user.removed" := "Member removed",
    "user.role_changed" := "Role changed",
    "invoice.sent" := "Invoice sent",
    "subscription.upgraded" := "Subscription upgraded",
    "settings.updated" := "Settings updated"]

  /** `actionLabels[action] ?? action` */
  function ActionLabel(action: string): string {
    if action in ActionLabels then ActionLabels[action] else action
  }

  /** `formatRelativeTime`: the shared buckets below thirty days, the
      locale date from then on. */
  function FormatRelativeTime(diffMs: int, localeDate: string): (r: string)
    ensures diffMs < 30 * DayMs ==> r == Render(Bucket(diffMs))
    ensures diffMs >= 30 * DayMs ==> r == localeDate
  {
    var e := Bucket(diffMs);
    if e.Days? && e.n >= 30 then localeDate else Render(e)
  }

  datatype Log = Log(id: string, action: string, details: Option<string>, createdAt: string, userName: string)

  /** One rendered line: the action label, `details · name`, and the age. */
  datatype Entry = Entry(title: string, detail: string, age: string)

  datatype Feed = Skeleton(rows: nat) | NoActivity | Entries(entries: seq<Entry>)

  /** `(log.details ?? "—") + " · " + log.user.name` */
  function DetailLine(log: Log): string {
    log.details.GetOr("—") + " · " + log.userName
  }

  /** The card's content: five placeholder rows while loading, the empty
      message without logs, and otherwise one entry per log in order;
      `ages[i]` and `dates[i]` describe log `i`. */
  function View(loading: bool, logs: seq<Log>, ages: seq<int>, dates: seq<string>): (f: Feed)
    requires |ages| == |logs| == |dates|
    ensures loading <==> f == Skeleton(5)
    ensures !loading ==> (f == NoActivity <==> logs == [])
    ensures !loading && logs != [] ==> f.Entries?
    ensures f.Entries? ==> |f.entries| == |logs| && forall i :: 0 <= i < |logs| ==>
      f.entries[i] == Entry(ActionLabel(logs[i].action), DetailLine(logs[i]), FormatRelativeTime(ages[i], dates[i]))
  {
    if loading then Skeleton(5)
    else if logs == [] then NoActivity
    else Entries(seq(|logs|, i requires 0 <= i < |logs| =>
      Entry(ActionLabel(logs[i].action), DetailLine(logs[i]), FormatRelativeTime(ages[i], dates[i]))))
  }

  /** An action is shown by its own name exactly when it has no label (no
      label repeats its action name); so the plan-change log the billing
      route writes appears as "subscription.changed". */
  lemma UnlabelledAction(action: string)
    ensures ActionLabel(action) == action <==> action !in ActionLabels
    ensures ActionLabel("subscription.changed") == "subscription.changed"
    ensures ActionLabel("customer.created") == "New customer added"
  {
  }

  /** Twenty-nine days still read as days; thirty show the date. */
  lemma MonthCutoff(localeDate: string)
    ensures FormatRelativeTime(29 * DayMs, localeDate) == Render(Days(29))
    ensures FormatRelativeTime(30 * DayMs, localeDate) == localeDate
  {
  }
}
