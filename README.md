# Upgrade dialog: the plan-transition resolver

A model of the decision logic in ntfy's web `UpgradeDialog` component, where
a signed-in user picks a new billing tier. Given the account's current tier
code and the code of the tier card the user selected, the resolver decides
the action:

- nothing to do;
- CREATE a paid subscription, coming from the free tier;
- CANCEL it, going to the free tier;
- UPDATE it to another paid tier.

The action fixes the submit button's label and whether the button is
enabled. It also decides which banner shows: a cancel warning carrying the
paid-until date, or a proration notice. On submit, the dialog calls one
backend operation and reacts to its outcome.

Layout:

- `wrappers.dfy`: the `Option` type used for tier codes.
- `plan_transition.dfy`: `Resolve` (the action, label and enabled flag) and `BannersFor`.
- `tier_cards.dfy`: the `selected` flag of each tier card.
- `submission.dfy`: `SubmitEffects`, the ordered effects of one run of `handleSubmit`.
- `upgrade_dialog.dfy`: the class `Dialog`. It holds the mutable `newTier` state and a trace of effects. Its methods cover card clicks, submit and dismissal.
- `dialog_scenarios.dfy`: client walk-throughs proved from the class contracts.

Modelling decisions:

- A tier code is `Option<string>`. `None` is JavaScript's `undefined`, which stands for the free tier.
- The source tests absence with JavaScript falsiness (`!currentTier`, `!newTier`), so the empty string counts as absent too. `Present` models exactly that.
- `Resolve` is stated over `Present`. `WellFormedPartition` restates it for codes that are absent or non-empty, which is what `WellFormed` assumes of backend codes.
- The equality test `currentTier === newTier` is structural equality on `Option<string>`.
- The backend's answer is a parameter `Outcome`: `Succeeded(redirectUrl)` or `Failed(error)`. The error is `Unauthorized`, `TopicReserved` or `OtherError`.
- The browser location, `props.onCancel()` and `session.resetAndRedirect(routes.login)` are entries `AssignLocation`, `InvokeOnCancel` and `ResetAndRedirect(Login)` of an effect trace. The three backend calls are entries of the same trace.

Behaviour of the code that the model keeps:

- A successful CREATE assigns the location and then, like every successful branch, calls `props.onCancel()` (line 72). So `SubmitEffects` for a successful CREATE is the call, then the location change, then `InvokeOnCancel`.
- `handleSubmit` with a null action makes no backend call and calls `onCancel`; `HandleSubmit` models that. Only the button wiring (line 122) keeps a disabled button inert, and `PressSubmit` models that wiring.
- On a failed submit the selection is left as it was. Neither the code nor the model reverts it.

## Model

| member | source | states |
|---|---|---|
| PlanTransition.Resolve | web/src/components/UpgradeDialog.js:42-60 | Equal codes, including both absent, give no action with the "update subscription" label and the button disabled; this wins over every other rule. Otherwise CREATE iff the current code is falsy, CANCEL iff the current code is truthy and the new one falsy, UPDATE iff both are truthy. The button is enabled iff there is an action. The label is "pay now" iff CREATE, "cancel subscription" iff CANCEL, and "update subscription" iff no action or UPDATE |
| PlanTransition.WellFormedPartition | web/src/components/UpgradeDialog.js:44-59 | For codes that are absent or non-empty: CREATE iff current absent and new present; CANCEL iff current present and new absent; UPDATE iff both present and different; no action iff equal |
| PlanTransition.BannersFor | web/src/components/UpgradeDialog.js:107-118 | The cancel warning shows iff the action is CANCEL, carrying the paid-until time. The proration notice shows iff a current tier is present and the action is none or UPDATE. The two never show together |
| PlanTransition.BannersOfSelection | web/src/components/UpgradeDialog.js:107-118 | In terms of the two codes: the warning shows iff they differ, the current one is present and the new one absent. The proration notice shows iff the current code is present and the new one is equal to it or present |
| TierCards.Selections | web/src/components/UpgradeDialog.js:98-105 | One flag per tier, in catalog order. A card is flagged selected iff its code equals `newTier`, an absent code included |
| TierCards.SelectedCount | web/src/components/UpgradeDialog.js:98-103 | With unique tier codes, exactly one card is selected when `newTier` is a catalog code, and none otherwise |
| TierCards.ClickSelectsOnlyThatCard | web/src/components/UpgradeDialog.js:102-103 | With unique codes, after the card at index i is clicked that card is selected, no other card is, and the selected count is one |
| Submission.SubmitEffects | web/src/components/UpgradeDialog.js:62-80 | At most one backend call is made, and it comes first and matches the action: create(newTier), update(newTier) or delete(). The location changes only after a successful CREATE, to the returned redirect URL. `onCancel` is invoked exactly once, as the last effect, iff the try block completes. The session is reset to the login route, once, iff the call failed with `Unauthorized` |
| Submission.FailedSubmitKeepsDialog | web/src/components/UpgradeDialog.js:73-79 | On a failed call `onCancel` is not invoked and the location is not changed. The session is reset iff the error is `Unauthorized`. Any other error, `TopicReserved` included, leaves only the attempted call in the trace |
| UpgradeDialog.Dialog.CurrentResolution | web/src/components/UpgradeDialog.js:42-60 | The render's resolution of the dialog state; the button is enabled iff `newTier` differs from the current code |
| UpgradeDialog.Dialog.ShownBanners | web/src/components/UpgradeDialog.js:107-118 | The render's banners: the warning iff the resolved action is CANCEL, and never both banners |
| UpgradeDialog.Dialog.IsSelected | web/src/components/UpgradeDialog.js:102 | The card at index i is selected iff its code equals `newTier` |
| UpgradeDialog.Dialog.constructor | web/src/components/UpgradeDialog.js:29 | `newTier` starts equal to the current tier code, so the initial action is none, the button is disabled and the trace is empty |
| UpgradeDialog.Dialog.ClickCard | web/src/components/UpgradeDialog.js:103 | Clicking a card sets `newTier` to that card's code, so that card is selected. With unique codes no other card is. The selection stays the initial code or a catalog code |
| UpgradeDialog.Dialog.HandleSubmit | web/src/components/UpgradeDialog.js:62-80 | The trace grows by exactly `SubmitEffects` of the resolved action, `newTier` and the backend outcome. `newTier` is unchanged, so the selection stays the initial code or a catalog code |
| UpgradeDialog.Dialog.PressSubmit | web/src/components/UpgradeDialog.js:122 | The submit button runs `handleSubmit` iff it is enabled; while disabled, pressing it adds nothing to the trace |
| UpgradeDialog.Dialog.Dismiss | web/src/components/UpgradeDialog.js:121 | The Cancel button appends one `onCancel` invocation and nothing else |

## Left out

- Rendering and layout: the MUI dialog, cards, lists, styles and `useMediaQuery` (lines 82-196). Only the selected flag and the two banner conditions are modelled.
- Tier names, limits and prices. They only feed the card markup, so `Tier` carries only its code.
- Translation through `t` and `Trans`. Labels are the datatype `Label`, one constructor per translation key.
- The formatting helpers `formatBytes`, `formatNumber` and `formatShortDate`. `src/app/utils` is not part of this model. The cancel warning carries the raw `paid_until` value.
- The asynchronous catalog fetch in `useEffect` (lines 32-36) and the not-ready guard (lines 38-40). These are I/O and React lifecycle; the model starts with the account and the catalog loaded.
- `accountApi`, `session` and `routes` are not part of this model. Backend results are the `Outcome` parameter, and the calls, navigation and session reset are trace entries.
- The `console.log` of a failed submit (line 74).
- User-visible error reporting. `errorText` is never set in the source (lines 30 and 78), so the model has none.
- Re-entrant or concurrent submits, and responses that arrive after the dialog is closed. The source has no guard against them, and each `HandleSubmit` call is modelled as one atomic run.
- A `null` tier code from the backend. Codes are modelled as a string or `undefined`.
- UpgradeDialog.Dialog.constructor: assumes the account is present when the dialog mounts and does not change while it is open. In the source, `useState(account?.tier?.code)` (line 29) takes its value at the first render, even when the guard at lines 38-40 then renders nothing; if the account arrives later, `newTier` starts `undefined`, so a paid account opens resolved to CANCEL with the free card selected. And `currentTier` is re-read from the account context on every render (line 42), whereas the model keeps `current` as a constant.
