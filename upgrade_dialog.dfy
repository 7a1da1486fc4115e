/**
  The upgrade dialog as a stateful component, once the account and the tier
  catalog are loaded: the selected code `newTier` that card clicks update,
  and the trace of effects that submitting and dismissing produce.
 */
module UpgradeDialog {
  import opened Wrappers
  import opened PlanTransition
  import opened TierCards
  import opened Submission

  class Dialog {
    /** `account.tier?.code`: the tier the account is subscribed to now. */
    const current: Code
    /** The loaded tier catalog, in display order. */
    const tiers: seq<Tier>
    /** `account.billing.paid_until`, shown in the cancel warning. */
    const paidUntil: int
    /** The selected tier code (`newTier` state). */
    var newTier: Code
    /** Everything the dialog has done to the outside world, in order. */
    var effects: seq<Effect>

    /** The selection is the initial one or the code of a tier on offer. */
    ghost predicate Valid()
      reads this
    {
      newTier == current || Offers(tiers, newTier)
    }

    /** The resolution the current render computes. */
    function CurrentResolution(): (r: Resolution)
      reads this
      ensures r.enabled <==> newTier != current
    {
      Resolve(current, newTier)
    }

    /** The banners the current render shows. */
    function ShownBanners(): (b: Banners)
      reads this
      ensures b.cancelWarning.Some? <==> CurrentResolution().action == Cancel
      ensures !(b.cancelWarning.Some? && b.prorationInfo)
    {
      BannersFor(current, CurrentResolution().action, paidUntil)
    }

    /** Whether the card at index `i` is marked selected. */
    function IsSelected(i: nat): (selected: bool)
      reads this
      requires i < |tiers|
      ensures selected <==> tiers[i].code == newTier
    {
      Selections(tiers, newTier)[i]
    }

    /** Mounting: the selection starts at the current tier, so nothing is pending. */
    constructor (current: Code, tiers: seq<Tier>, paidUntil: int)
      ensures Valid()
      ensures this.current == current && this.tiers == tiers && this.paidUntil == paidUntil
      ensures newTier == current && effects == []
      ensures CurrentResolution().action == NoAction && !CurrentResolution().enabled
    {
      this.current := current;
      this.tiers := tiers;
      this.paidUntil := paidUntil;
      newTier := current;
      effects := [];
    }

    /** Clicking the card at index `i` selects that tier's code. */
    method ClickCard(i: nat)
      requires Valid() && i < |tiers|
      modifies this`newTier
      ensures Valid()
      ensures newTier == tiers[i].code
      ensures IsSelected(i)
      ensures UniqueCodes(tiers) ==> forall j :: 0 <= j < |tiers| && j != i ==> !IsSelected(j)
    {
      newTier := tiers[i].code;
    }

    /**
      `handleSubmit`: perform the backend call for the resolved action, whose
      outcome is `outcome`, then close the dialog, or handle the error.
     */
    method HandleSubmit(outcome: Outcome)
      requires Valid()
      modifies this`effects
      ensures Valid()
      ensures effects == old(effects) + SubmitEffects(CurrentResolution().action, newTier, outcome)
    {
      var action := CurrentResolution().action;
      var failure: Option<ApiError> := None;
      if action == Create {
        effects := effects + [CallCreate(newTier)];
        match outcome {
          case Succeeded(url) => effects := effects + [AssignLocation(url)];
          case Failed(e) => failure := Some(e);
        }
      } else if action == Update {
        effects := effects + [CallUpdate(newTier)];
        if outcome.Failed? {
          failure := Some(outcome.error);
        }
      } else if action == Cancel {
        effects := effects + [CallDelete];
        if outcome.Failed? {
          failure := Some(outcome.error);
        }
      }
      if failure.None? {
        effects := effects + [InvokeOnCancel];
      } else if failure.value == Unauthorized {
        effects := effects + [ResetAndRedirect(Login)];
      }
    }

    /** The submit button: it runs `handleSubmit` only while enabled. */
    method PressSubmit(outcome: Outcome)
      requires Valid()
      modifies this`effects
      ensures Valid()
      ensures effects == old(effects) +
                if CurrentResolution().enabled then SubmitEffects(CurrentResolution().action, newTier, outcome)
                else []
    {
      if CurrentResolution().enabled {
        HandleSubmit(outcome);
      }
    }

    /** The Cancel button and closing the dialog both call `props.onCancel`. */
    method Dismiss()
      requires Valid()
      modifies this`effects
      ensures Valid()
      ensures effects == old(effects) + [InvokeOnCancel]
    {
      effects := effects + [InvokeOnCancel];
    }
  }
}
