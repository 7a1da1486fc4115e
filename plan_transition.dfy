/**
  The plan-transition resolver of the upgrade dialog: from the account's
  current tier code and the selected tier code it decides which change of
  subscription the submit button performs, how that button is labelled and
  whether it is enabled, and which banner the dialog shows.
 */
module PlanTransition {
  import opened Wrappers

  /** A tier code; `None` stands for JavaScript's `undefined` (the free tier). */
  type Code = Option<string>

  /**
    JavaScript truthiness of a code: `!code` holds for `undefined` and for the
    empty string, so both count as "no tier" in the absence tests.
   */
  predicate Present(c: Code) {
    c.Some? && c.value != ""
  }

  /** A code as the billing backend hands them out: absent or non-empty. */
  predicate WellFormed(c: Code) {
    c.None? || c.value != ""
  }

  /** The resolved action; `NoAction` is the source's `action = null`. */
  datatype Action = NoAction | Create | Update | Cancel

  /** The submit button's label, by its translation key. */
  datatype Label = UpdateSubscriptionLabel | PayNowLabel | CancelSubscriptionLabel

  datatype Resolution = Resolution(action: Action, buttonLabel: Label, enabled: bool)

  /**
    The if/else chain that assigns `action`, `submitButtonLabel` and
    `submitButtonEnabled`: equality first, then "no current tier", then
    "no new tier", then the fallback.
   */
  function Resolve(current: Code, selected: Code): (r: Resolution)
    // equal codes, free to free included, are a no-op with the button disabled
    ensures current == selected ==> r == Resolution(NoAction, UpdateSubscriptionLabel, false)
    // the four actions partition the pairs of codes
    ensures r.action == NoAction <==> current == selected
    ensures r.action == Create <==> current != selected && !Present(current)
    ensures r.action == Cancel <==> current != selected && Present(current) && !Present(selected)
    ensures r.action == Update <==> current != selected && Present(current) && Present(selected)
    // the button is enabled exactly when there is something to do
    ensures r.enabled <==> r.action != NoAction
    ensures r.buttonLabel == PayNowLabel <==> r.action == Create
    ensures r.buttonLabel == CancelSubscriptionLabel <==> r.action == Cancel
    ensures r.buttonLabel == UpdateSubscriptionLabel <==> r.action in {NoAction, Update}
  {
    if current == selected then
      Resolution(NoAction, UpdateSubscriptionLabel, false)
    else if !Present(current) then
      Resolution(Create, PayNowLabel, true)
    else if !Present(selected) then
      Resolution(Cancel, CancelSubscriptionLabel, true)
    else
      Resolution(Update, UpdateSubscriptionLabel, true)
  }

  /** For codes as the backend issues them, the actions read as absent/present. */
  lemma WellFormedPartition(current: Code, selected: Code)
    requires WellFormed(current) && WellFormed(selected)
    ensures var a := Resolve(current, selected).action;
      && (a == Create <==> current.None? && selected.Some?)
      && (a == Cancel <==> current.Some? && selected.None?)
      && (a == Update <==> current.Some? && selected.Some? && current != selected)
      && (a == NoAction <==> current == selected)
  {
  }

  /**
    The banners below the tier cards: a warning that names the date the paid
    period ends, and a notice that the change is prorated.
   */
  datatype Banners = Banners(cancelWarning: Option<int>, prorationInfo: bool)

  /** The two render conditions, given the account's paid-until time. */
  function BannersFor(current: Code, action: Action, paidUntil: int): (b: Banners)
    ensures b.cancelWarning == (if action == Cancel then Some(paidUntil) else None)
    ensures b.prorationInfo <==> Present(current) && action in {NoAction, Update}
    // never both banners at once
    ensures !(b.cancelWarning.Some? && b.prorationInfo)
  {
    Banners(if action == Cancel then Some(paidUntil) else None,
            Present(current) && (action == NoAction || action == Update))
  }

  /** The banners in terms of the two codes the dialog compares. */
  lemma BannersOfSelection(current: Code, selected: Code, paidUntil: int)
    ensures var b := BannersFor(current, Resolve(current, selected).action, paidUntil);
      && (b.cancelWarning.Some? <==> current != selected && Present(current) && !Present(selected))
      && (b.prorationInfo <==> Present(current) && (current == selected || Present(selected)))
  {
  }
}
