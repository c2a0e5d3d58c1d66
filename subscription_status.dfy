/** The subscription-status screen: labels and sections derived from the
    entitlement session, a monthly/yearly switch, and an upgrade button. */
module SubscriptionStatus {
  import opened Entitlement

  /** The plan name in "Plan Details"; premium is checked first. */
  function PlanLabel(s: Session): (r: string)
    ensures r == "Premium" <==> s.isPremium
    ensures r == "Free Trial" <==> !s.isPremium && s.isTrialActive
    ensures r == "Free" <==> !s.isPremium && !s.isTrialActive
  {
    if s.isPremium then "Premium" else if s.isTrialActive then "Free Trial" else "Free"
  }

  /** The status badge beside the plan name. */
  function StatusBadge(s: Session): (r: string)
    ensures r == "Active" <==> s.isPremium
    ensures r == "Trial" <==> !s.isPremium && s.isTrialActive
    ensures r == "Free" <==> !s.isPremium && !s.isTrialActive
  {
    if s.isPremium then "Active" else if s.isTrialActive then "Trial" else "Free"
  }

  /** The "Free Trial Active" card. */
  predicate TrialCardShown(s: Session)
    ensures TrialCardShown(s) <==> PlanLabel(s) == "Free Trial"
  {
    s.isTrialActive && !s.isPremium
  }

  /** The "Trial Expired" card. */
  predicate ExpiredCardShown(s: Session)
    ensures ExpiredCardShown(s) <==> UpgradeButtonLabel(s) == "Upgrade Now" && PlanLabel(s) != "Premium"
  {
    s.hasTrialExpired && !s.isPremium
  }

  /** The pricing section with its upgrade button. */
  predicate PricingShown(s: Session)
    ensures PricingShown(s) <==> StatusBadge(s) != "Active"
  {
    !s.isPremium
  }

  /** The "Locked" badge on each premium feature row. */
  predicate FeatureLocked(s: Session)
    ensures FeatureLocked(s) <==> PlanLabel(s) == "Free"
    ensures FeatureLocked(s) <==> !HasPlan(s)
  {
    !s.isPremium && !s.isTrialActive
  }

  /** The upgrade button's caption. */
  function UpgradeButtonLabel(s: Session): (r: string)
    ensures r == "Upgrade Now" <==> s.hasTrialExpired
    ensures r != "Upgrade Now" ==> r == "Start Premium"
  {
    if s.hasTrialExpired then "Upgrade Now" else "Start Premium"
  }

  /** "n of 7 days used" on the trial card. */
  function DaysUsed(s: Session): (r: int)
    ensures s.trialDaysLeft == TrialDays ==> r == 0
    ensures 0 <= s.trialDaysLeft <= TrialDays ==> 0 <= r <= TrialDays
  {
    7 - s.trialDaysLeft
  }

  /** The price shown for the chosen billing period. */
  function PriceLabel(isYearly: bool): (r: string)
    ensures isYearly <==> r == "$71.99/year"
    ensures !isYearly <==> r == "$9.99/month"
  {
    if isYearly then "$71.99/year" else "$9.99/month"
  }

  /** The screen's callback props. */
  datatype Callback = OnBack | OnUpgrade

  /** The screen component: its billing switch and the shared session. */
  class SubscriptionStatusScreen {
    var isYearly: bool
    const premium: PremiumProvider

    constructor (premium: PremiumProvider)
      ensures !isYearly && this.premium == premium
    {
      isYearly := false;
      this.premium := premium;
    }

    method ToggleBilling(yearly: bool)
      modifies this
      ensures isYearly == yearly
    {
      isYearly := yearly;
    }

    /** `handleUpgrade`: upgrade the session, then go back. */
    method HandleUpgrade() returns (calls: seq<Callback>)
      modifies premium
      ensures premium.State() == Upgraded(old(premium.State()))
      ensures calls == [OnBack]
      ensures PlanLabel(premium.State()) == "Premium" && !TrialCardShown(premium.State())
      ensures !PricingShown(premium.State()) && !ExpiredCardShown(premium.State())
    {
      premium.UpgradeToPremium();
      calls := [OnBack];
    }
  }

  // ---------------------------------------------------------------------
  // Properties of the derived labels

  /** The plan label and the status badge tell the same story. */
  lemma LabelsAgree(s: Session)
    ensures PlanLabel(s) == "Premium" <==> StatusBadge(s) == "Active"
    ensures PlanLabel(s) == "Free Trial" <==> StatusBadge(s) == "Trial"
    ensures PlanLabel(s) == "Free" <==> StatusBadge(s) == "Free"
  {
  }

  /** Premium takes priority when both flags are set. */
  lemma PremiumTakesPriority(s: Session)
    requires s.isPremium && s.isTrialActive
    ensures PlanLabel(s) == "Premium" && StatusBadge(s) == "Active" && !TrialCardShown(s)
  {
  }

  /** A feature row shows "Locked" exactly when the gate denies the four
      gated features, and the plan is then "Free". */
  lemma LockedMatchesGate(s: Session, f: string)
    requires IsGated(f)
    ensures FeatureLocked(s) <==> !Access(f, s)
    ensures FeatureLocked(s) <==> PlanLabel(s) == "Free"
  {
  }

  /** Nothing expires a trial, so on every reachable session the expired card
      never shows, the button always reads "Start Premium", and no trial day
      has been used. */
  lemma ExpiredStateUnreachable(ops: seq<Operation>)
    ensures !ExpiredCardShown(ApplyAll(Fresh(), ops))
    ensures UpgradeButtonLabel(ApplyAll(Fresh(), ops)) == "Start Premium"
    ensures DaysUsed(ApplyAll(Fresh(), ops)) == 0
  {
    ReachableTrialFields(ops);
  }

  /** After upgrading, whatever the session was, the screen shows premium:
      no trial card, no pricing, nothing locked. */
  lemma UpgradeShowsPremium(s: Session)
    ensures PlanLabel(Upgraded(s)) == "Premium"
    ensures !TrialCardShown(Upgraded(s)) && !PricingShown(Upgraded(s))
    ensures !ExpiredCardShown(Upgraded(s)) && !FeatureLocked(Upgraded(s))
  {
  }
}
