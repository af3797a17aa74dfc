/** The billing page (src/app/dashboard/billing/page.tsx): the three plan
    cards with their Upgrade / Downgrade / Current Plan buttons, the
    plan-change confirmation, and the invoice and subscription badges.
    Sending the change is split into the click (`StartPlanChange`, which
    yields the request) and the response (`FinishPlanChange`). */
module BillingPage {
  import opened Values
  import ToastStore

  datatype Plan = Plan(name: string, title: string, price: string, period: string, popular: bool)

  const Plans: seq<Plan> := [
    Plan("FREE", "Free", "$0", "forever", false),
    Plan("PRO", "Pro", "$99", "/month", true),
    Plan("ENTERPRISE", "Enterprise", "$299", "/month", false)]

  /** `plans.findIndex((p) => p.name === name)`: the first plan of that
      name, or -1. */
  function FindIndex(name: string): (r: int)
    ensures -1 <= r < |Plans|
    ensures r >= 0 ==> Plans[r].name == name && forall j :: 0 <= j < r ==> Plans[j].name != name
    ensures r == -1 <==> forall j :: 0 <= j < |Plans| ==> Plans[j].name != name
  {
    if name == "FREE" then 0 else if name == "PRO" then 1 else if name == "ENTERPRISE" then 2 else -1
  }

  /** The card's button: the disabled "Current Plan", or a change button
      that selects the card's plan. */
  datatype CardButton = CurrentPlan | Change(text: string, target: string, variant: string)

  function ButtonFor(currentPlan: string, plan: Plan): CardButton {
    if currentPlan == plan.name then CurrentPlan
    else Change(if FindIndex(currentPlan) < FindIndex(plan.name) then "Upgrade" else "Downgrade",
                plan.name, if plan.popular then "default" else "outline")
  }

  /** The current plan's card offers no change; every other card selects its
      own plan, labelled "Upgrade" exactly when it comes later in the order
      FREE, PRO, ENTERPRISE than the current plan. */
  lemma ButtonRule(currentPlan: string, i: nat)
    requires i < |Plans|
    ensures ButtonFor(currentPlan, Plans[i]) == CurrentPlan <==> currentPlan == Plans[i].name
    ensures currentPlan != Plans[i].name ==>
      && ButtonFor(currentPlan, Plans[i]).target == Plans[i].name
      && (ButtonFor(currentPlan, Plans[i]).text == "Upgrade" <==> FindIndex(currentPlan) < i)
  {
  }

  /** From FREE everything else is an upgrade, from ENTERPRISE a downgrade,
      and from a plan the page does not know every card says "Upgrade". */
  lemma Extremes(currentPlan: string, i: nat)
    requires i < |Plans|
    ensures currentPlan == "FREE" && i > 0 ==> ButtonFor(currentPlan, Plans[i]).text == "Upgrade"
    ensures currentPlan == "ENTERPRISE" && i < 2 ==> ButtonFor(currentPlan, Plans[i]).text == "Downgrade"
    ensures FindIndex(currentPlan) == -1 ==> ButtonFor(currentPlan, Plans[i]).text == "Upgrade"
  {
  }

  /** Moving from one plan to another is an upgrade exactly when moving back
      is a downgrade. */
  lemma Opposite(i: nat, j: nat)
    requires i < |Plans| && j < |Plans| && i != j
    ensures ButtonFor(Plans[i].name, Plans[j]).text == "Upgrade" <==> ButtonFor(Plans[j].name, Plans[i]).text == "Downgrade"
  {
  }

  /** The confirmation's price line: the chosen plan's price and period, or
      nothing when no choice is pending or no plan has that name. */
  function PriceLine(changePlan: Option<string>): (r: string)
    ensures forall i :: 0 <= i < |Plans| && changePlan == Some(Plans[i].name) ==> r == Plans[i].price + Plans[i].period
    ensures (changePlan.None? || forall i :: 0 <= i < |Plans| ==> Plans[i].name != changePlan.value) ==> r == ""
  {
    if changePlan.Some? && FindIndex(changePlan.value) >= 0 then
      var p := Plans[FindIndex(changePlan.value)]; p.price + p.period
    else ""
  }

  /** `invoiceStatusVariant[status]` */
  function InvoiceVariant(status: string): Option<string> {
    if status == "PAID" then Some("default")
    else if status == "PENDING" then Some("secondary")
    else if status == "OVERDUE" then Some("destructive")
    else None
  }

  /** The subscription's status badge. */
  function SubscriptionVariant(status: string): string {
    if status == "ACTIVE" then "default" else "secondary"
  }

  /** The three invoice states get three distinct badges, and only an
      active subscription the primary one. */
  lemma Badges(status: string)
    ensures InvoiceVariant(status).Some? <==> status in {"PAID", "PENDING", "OVERDUE"}
    ensures |{InvoiceVariant("PAID"), InvoiceVariant("PENDING"), InvoiceVariant("OVERDUE")}| == 3
    ensures SubscriptionVariant(status) == "default" <==> status == "ACTIVE"
  {
  }

  /** How the request for a change ended: the endpoint accepted it, refused
      it with an error, or the request itself threw (no response, or a body
      that is not JSON). */
  datatype ChangeOutcome = Changed(currentPlan: string) | Refused(error: string) | Threw

  /** `!!changePlan` */
  predicate Chosen(changePlan: Option<string>) {
    changePlan.Some? && changePlan.value != ""
  }

  class Page {
    var currentPlan: string
    var changePlan: Option<string>
    var changing: bool

    constructor()
      ensures currentPlan == "FREE" && changePlan.None? && !changing
    {
      currentPlan := "FREE";
      changePlan := None;
      changing := false;
    }

    /** The confirmation dialog is open while a plan is chosen. */
    predicate DialogOpen()
      reads this
    {
      Chosen(changePlan)
    }

    /** A card's change button: it opens the dialog on the card's plan. */
    method Choose(name: string)
      modifies this`changePlan
      ensures changePlan == Some(name)
      ensures DialogOpen() <==> name != ""
    {
      changePlan := Some(name);
    }

    /** Cancel, or the dialog closing. */
    method CloseDialog()
      modifies this`changePlan
      ensures changePlan.None? && !DialogOpen()
    {
      changePlan := None;
    }

    /** "Confirm Change": without a chosen plan nothing happens; otherwise
        the page marks itself busy and sends `{ plan }`. */
    method StartPlanChange() returns (request: Option<string>)
      modifies this`changing
      ensures !Chosen(changePlan) ==> request.None? && changing == old(changing)
      ensures Chosen(changePlan) ==> request == changePlan && changing
    {
      if !(changePlan.Some? && changePlan.value != "") {
        return None;
      }
      changing := true;
      request := changePlan;
    }

    /** The end of the request for `plan`: on success the page takes the
        plan the server reports and toasts the change, on a refusal it
        toasts the error, and when the request threw it shows nothing;
        in every case it stops being busy and the dialog closes. */
    method FinishPlanChange(plan: string, outcome: ChangeOutcome, toasts: ToastStore.Store)
      requires toasts.Valid()
      modifies this, toasts
      ensures toasts.Valid() && !changing && changePlan.None? && !DialogOpen()
      ensures outcome.Changed? ==> currentPlan == outcome.currentPlan
      ensures !outcome.Changed? ==> currentPlan == old(currentPlan)
      ensures outcome.Threw? ==> toasts.counter == old(toasts.counter) && toasts.toasts == old(toasts.toasts)
      ensures !outcome.Threw? ==> toasts.counter == old(toasts.counter) + 1
      ensures outcome.Changed? ==>
        toasts.toasts == old(toasts.toasts) + [ToastStore.Toast(ToastStore.ToastId(toasts.counter), "Plan Updated", Some("Successfully changed to " + plan + " plan."), None)]
      ensures outcome.Refused? ==>
        toasts.toasts == old(toasts.toasts) + [ToastStore.Toast(ToastStore.ToastId(toasts.counter), "Error", Some(outcome.error), Some("destructive"))]
    {
      if outcome.Changed? {
        currentPlan := outcome.currentPlan;
        var _ := toasts.AddToast("Plan Updated", Some("Successfully changed to " + plan + " plan."), None);
      } else if outcome.Refused? {
        var _ := toasts.AddToast("Error", Some(outcome.error), Some("destructive"));
      }
      changing := false;
      changePlan := None;
    }
  }
}
