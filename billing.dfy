/** The billing screen: the three paid plans, the name shown for the current
    subscription tier, and which plan button is the current one. */
module Billing {
  import opened Common

  datatype Plan = Plan(name: string, price: string, buttonText: string, isPopular: bool)

  const Plans: seq<Plan> := [
    Plan("Starter", "$29", "Upgrade to Starter", false),
    Plan("Professional", "$79", "Upgrade to Professional", true),
    Plan("Enterprise", "$199", "Upgrade to Enterprise", false)
  ]

  const InitialTier: string := "trial"
  const CurrentPlanLabel: string := "Current Plan"

  /** `formatTierName`: the trial gets its own wording; any other tier has
      its first character uppercased and the rest kept. */
  function FormatTierName(tier: string): (r: string)
    ensures tier == "trial" ==> r == "Trial (14 days free)"
    ensures tier != "trial" ==> |r| == |tier|
    ensures tier != "trial" && tier != "" ==> r[0] == UpperChar(tier[0]) && r[1..] == tier[1..]
  {
    if tier == "trial" then "Trial (14 days free)"
    else if tier == "" then ""
    else [UpperChar(tier[0])] + tier[1..]
  }

  /** A plan is the current one when the tier names it, ignoring case. */
  predicate IsCurrentPlan(tier: string, plan: Plan)
  {
    Lower(tier) == Lower(plan.name)
  }

  /** The plan button is disabled on the current plan. */
  predicate ButtonDisabled(tier: string, plan: Plan)
  {
    IsCurrentPlan(tier, plan)
  }

  function ButtonLabel(tier: string, plan: Plan): (r: string)
    ensures IsCurrentPlan(tier, plan) ==> r == CurrentPlanLabel
    ensures !IsCurrentPlan(tier, plan) ==> r == plan.buttonText
  {
    if IsCurrentPlan(tier, plan) then CurrentPlanLabel else plan.buttonText
  }

  /** On the three plans, the label reads "Current Plan" exactly when the
      button is disabled. */
  lemma LabelIffDisabled(tier: string, i: int)
    requires 0 <= i < |Plans|
    ensures ButtonLabel(tier, Plans[i]) == CurrentPlanLabel <==> ButtonDisabled(tier, Plans[i])
  {
    if !ButtonDisabled(tier, Plans[i]) {
      assert Plans[i].buttonText[..10] == "Upgrade to";
    }
  }

  lemma LowerPlanNames()
    ensures Lower(Plans[0].name) == "starter"
    ensures Lower(Plans[1].name) == "professional"
    ensures Lower(Plans[2].name) == "enterprise"
  {
    assert Lower("Starter") == "starter";
    assert Lower("Professional") == "professional";
    assert Lower("Enterprise") == "enterprise";
  }

  /** At most one plan is current: a tier that names one plan names no
      other. */
  lemma AtMostOneCurrentPlan(tier: string, i: int)
    requires 0 <= i < |Plans| && IsCurrentPlan(tier, Plans[i])
    ensures forall j :: 0 <= j < |Plans| && j != i ==> !IsCurrentPlan(tier, Plans[j])
  {
    LowerPlanNames();
  }

  /** The initial trial tier, and a tier stored in lower case. */
  lemma TierExamples()
    ensures forall i :: 0 <= i < |Plans| ==> !IsCurrentPlan(InitialTier, Plans[i])
    ensures IsCurrentPlan("starter", Plans[0])
    ensures IsCurrentPlan("professional", Plans[1])
    ensures IsCurrentPlan("enterprise", Plans[2])
  {
    LowerPlanNames();
    assert Lower("trial") == "trial";
    assert Lower("starter") == "starter";
    assert Lower("professional") == "professional";
    assert Lower("enterprise") == "enterprise";
  }

  /** `handleUpgrade`: upgrades are announced, not performed. */
  function UpgradeNotice(planName: string): Notice
  {
    Notice("Upgrade Coming Soon", planName + " plan upgrade will be available soon.", false)
  }

  /** What the `user_profiles` query returned: an error, or a row (possibly
      none) with its tier. */
  datatype TierQuery = TierFailed | TierRow(data: Option<string>)

  class BillingPanel {
    var subscriptionTier: string

    constructor()
      ensures subscriptionTier == InitialTier
    {
      subscriptionTier := InitialTier;
    }

    /** `fetchSubscriptionTier`: only a successful query that returned a row
        replaces the tier. */
    method Fetch(hasUser: bool, result: TierQuery)
      modifies this
      ensures hasUser && result.TierRow? && result.data.Some? ==> subscriptionTier == result.data.value
      ensures !(hasUser && result.TierRow? && result.data.Some?) ==> subscriptionTier == old(subscriptionTier)
    {
      if !hasUser {
        return;
      }
      if result.TierFailed? {
        return;
      }
      if result.data.Some? {
        subscriptionTier := result.data.value;
      }
    }
  }
}
