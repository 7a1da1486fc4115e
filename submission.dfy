/**
  What `handleSubmit` does for each resolved action and each outcome of the
  awaited backend call, written as the list of effects it produces in order.
 */
module Submission {
  import opened Wrappers
  import opened PlanTransition

  /** The errors the account API raises; only `Unauthorized` is told apart. */
  datatype ApiError = Unauthorized | TopicReserved | OtherError

  /**
    The outcome of the awaited backend call. `redirectUrl` is the
    `redirect_url` of the create response; update and delete return nothing
    the dialog reads.
   */
  datatype Outcome = Succeeded(redirectUrl: string) | Failed(error: ApiError)

  /** Routes the dialog can send the browser to; only the login route is used. */
  datatype Route = Login

  /** The externally visible things the dialog does. */
  datatype Effect =
    | CallCreate(tier: Code)          // accountApi.createBillingSubscription(tier)
    | CallUpdate(tier: Code)          // accountApi.updateBillingSubscription(tier)
    | CallDelete                      // accountApi.deleteBillingSubscription()
    | AssignLocation(url: string)     // window.location.href = url
    | InvokeOnCancel                  // props.onCancel()
    | ResetAndRedirect(route: Route)  // session.resetAndRedirect(route)

  predicate IsBackendCall(e: Effect) {
    e.CallCreate? || e.CallUpdate? || e.CallDelete?
  }

  /** The backend calls among `effs`, in order. */
  function BackendCalls(effs: seq<Effect>): seq<Effect> {
    if effs == [] then []
    else (if IsBackendCall(effs[0]) then [effs[0]] else []) + BackendCalls(effs[1..])
  }

  /** The URLs assigned to the browser location among `effs`, in order. */
  function LocationChanges(effs: seq<Effect>): seq<string> {
    if effs == [] then []
    else (if effs[0].AssignLocation? then [effs[0].url] else []) + LocationChanges(effs[1..])
  }

  /** How often `e` occurs in `effs`. */
  function Occurrences(effs: seq<Effect>, e: Effect): nat {
    if effs == [] then 0 else (if effs[0] == e then 1 else 0) + Occurrences(effs[1..], e)
  }

  /** The backend operation that carries out an action. */
  function CallFor(action: Action, newTier: Code): (e: Effect)
    requires action != NoAction
    ensures IsBackendCall(e)
  {
    match action
    case Create => CallCreate(newTier)
    case Update => CallUpdate(newTier)
    case Cancel => CallDelete
  }

  /** The `try` block runs to its end: no call was made, or the call succeeded. */
  predicate Completes(action: Action, outcome: Outcome) {
    action == NoAction || outcome.Succeeded?
  }

  /**
    The effects of one run of `handleSubmit`: the backend call for the action,
    then on success the redirect (CREATE only) and `onCancel`, and on failure
    the session reset for an unauthorized error and nothing otherwise.
   */
  function SubmitEffects(action: Action, newTier: Code, outcome: Outcome): (effs: seq<Effect>)
    // at most one backend call, and the one that matches the action
    ensures BackendCalls(effs) == if action == NoAction then [] else [CallFor(action, newTier)]
    ensures action != NoAction ==> effs[0] == CallFor(action, newTier)
    // the location changes only after a successful create, to the returned URL
    ensures LocationChanges(effs) ==
              if action == Create && outcome.Succeeded? then [outcome.redirectUrl] else []
    // onCancel runs once, last, exactly when the try block completes
    ensures Occurrences(effs, InvokeOnCancel) == if Completes(action, outcome) then 1 else 0
    ensures Completes(action, outcome) ==> effs[|effs| - 1] == InvokeOnCancel
    // the session is reset, once, exactly for an unauthorized failure
    ensures Occurrences(effs, ResetAndRedirect(Login)) ==
              if action != NoAction && outcome == Failed(Unauthorized) then 1 else 0
  {
    if action == NoAction then
      [InvokeOnCancel]
    else
      [CallFor(action, newTier)] +
      match outcome
      case Succeeded(url) => (if action == Create then [AssignLocation(url)] else []) + [InvokeOnCancel]
      case Failed(e) => if e == Unauthorized then [ResetAndRedirect(Login)] else []
  }

  /** A failed call leaves the dialog open and the location alone, whatever the error. */
  lemma FailedSubmitKeepsDialog(action: Action, newTier: Code, error: ApiError)
    requires action != NoAction
    ensures var effs := SubmitEffects(action, newTier, Failed(error));
      && InvokeOnCancel !in effs
      && LocationChanges(effs) == []
      && (ResetAndRedirect(Login) in effs <==> error == Unauthorized)
      && (error != Unauthorized ==> effs == [CallFor(action, newTier)])
  {
  }
}
