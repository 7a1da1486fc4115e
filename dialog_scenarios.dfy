/**
  Client-side walk-throughs of the dialog, proved from the contracts alone:
  they show what a caller of the component can rely on.
 */
module DialogScenarios {
  import opened Wrappers
  import opened PlanTransition
  import opened TierCards
  import opened Submission
  import opened UpgradeDialog

  /** On "pro" with "pro" selected: nothing is pending and the button is inert. */
  method NothingPendingOnMount()
  {
    var tiers := [Tier(None), Tier(Some("pro")), Tier(Some("business"))];
    var d := new Dialog(Some("pro"), tiers, 1700000000);
    assert d.IsSelected(1) && !d.CurrentResolution().enabled;
    assert d.ShownBanners() == Banners(None, true);
    d.PressSubmit(Succeeded(""));
    assert d.effects == [];
  }

  /** On "pro", switch to "business" and hit a reservation conflict: nothing closes. */
  method UpdateWithConflict()
  {
    var tiers := [Tier(None), Tier(Some("pro")), Tier(Some("business"))];
    var d := new Dialog(Some("pro"), tiers, 1700000000);
    d.ClickCard(2);
    assert d.CurrentResolution() == Resolution(Update, UpdateSubscriptionLabel, true);
    assert SubmitEffects(Update, Some("business"), Failed(TopicReserved)) == [CallUpdate(Some("business"))];
    d.PressSubmit(Failed(TopicReserved));
    assert d.effects == [CallUpdate(Some("business"))];
    assert d.newTier == Some("business");
  }

  /** On the free tier, pick "pro" and pay: the browser follows the checkout URL. */
  method CreateFromFree()
  {
    var tiers := [Tier(None), Tier(Some("pro"))];
    var d := new Dialog(None, tiers, 0);
    d.ClickCard(1);
    assert d.CurrentResolution() == Resolution(Create, PayNowLabel, true);
    assert d.ShownBanners() == Banners(None, false);
    assert SubmitEffects(Create, Some("pro"), Succeeded("https://checkout.example/session")) ==
      [CallCreate(Some("pro")), AssignLocation("https://checkout.example/session"), InvokeOnCancel];
    d.PressSubmit(Succeeded("https://checkout.example/session"));
    assert d.effects == [CallCreate(Some("pro")), AssignLocation("https://checkout.example/session"), InvokeOnCancel];
  }

  /** On "pro", pick the free card: cancel, with an expired session. */
  method CancelWithExpiredSession()
  {
    var tiers := [Tier(None), Tier(Some("pro"))];
    var d := new Dialog(Some("pro"), tiers, 1700000000);
    d.ClickCard(0);
    assert d.CurrentResolution() == Resolution(Cancel, CancelSubscriptionLabel, true);
    assert d.ShownBanners() == Banners(Some(1700000000), false);
    assert SubmitEffects(Cancel, None, Failed(Unauthorized)) == [CallDelete, ResetAndRedirect(Login)];
    d.PressSubmit(Failed(Unauthorized));
    assert d.effects == [CallDelete, ResetAndRedirect(Login)];
  }
}
