/** The entitlement session kept by `PremiumProvider`: four pieces of React
    state, two mutations and the feature gate `checkFeatureAccess`. */
module Entitlement {

  /** The trial length the provider starts with and resets to. */
  const TrialDays: int := 7

  /** The gated feature names, in the order the provider lists them. */
  const PremiumFeatures: seq<string> :=
    ["advanced-route-prediction", "virtual-guardian", "cloud-storage", "fake-call-generator"]

  /** A snapshot of the provider's four state fields. */
  datatype Session = Session(isPremium: bool, trialDaysLeft: int, isTrialActive: bool, hasTrialExpired: bool)

  /** The two mutations the provider exposes. */
  datatype Operation = StartTrial | UpgradeToPremium

  /** The session every provider starts with. */
  function Fresh(): Session {
    Session(false, TrialDays, false, false)
  }

  /** The session after `startTrial`. */
  function Trialed(s: Session): Session {
    s.(isTrialActive := true, trialDaysLeft := TrialDays, hasTrialExpired := false)
  }

  /** The session after `upgradeToPremium`. */
  function Upgraded(s: Session): Session {
    s.(isPremium := true, isTrialActive := false, hasTrialExpired := false)
  }

  function Apply(s: Session, op: Operation): Session {
    match op
    case StartTrial => Trialed(s)
    case UpgradeToPremium => Upgraded(s)
  }

  /** The session after the operations `ops`, applied first to last. */
  function ApplyAll(s: Session, ops: seq<Operation>): Session
    decreases |ops|
  {
    if ops == [] then s else ApplyAll(Apply(s, ops[0]), ops[1..])
  }

  /** The gated names written out one by one, as a reference for the list lookup. */
  predicate IsGated(feature: string) {
    || feature == "advanced-route-prediction"
    || feature == "virtual-guardian"
    || feature == "cloud-storage"
    || feature == "fake-call-generator"
  }

  /** `Array.prototype.includes` on a list of names. */
  function Includes(names: seq<string>, name: string): (r: bool)
    ensures r <==> name in names
  {
    if names == [] then false
    else names[0] == name || Includes(names[1..], name)
  }

  /** Premium or an active trial: what every gated feature requires, and
      what the dashboard tests to choose between its two plan buttons. */
  predicate HasPlan(s: Session) {
    s.isPremium || s.isTrialActive
  }

  /** `checkFeatureAccess` on a given session: a name outside the gated list
      is free, a gated one needs premium or a running trial. */
  function Access(feature: string, s: Session): (r: bool)
    ensures !IsGated(feature) ==> r
    ensures IsGated(feature) ==> (r <==> s.isPremium || s.isTrialActive)
  {
    if !Includes(PremiumFeatures, feature) then true
    else s.isPremium || s.isTrialActive
  }

  /** The provider component with its four state fields. */
  class PremiumProvider {
    var isPremium: bool
    var trialDaysLeft: int
    var isTrialActive: bool
    var hasTrialExpired: bool

    function State(): Session
      reads this
    {
      Session(isPremium, trialDaysLeft, isTrialActive, hasTrialExpired)
    }

    constructor ()
      ensures State() == Fresh()
      ensures !isPremium && !isTrialActive && !hasTrialExpired && trialDaysLeft == 7
    {
      isPremium := false;
      trialDaysLeft := TrialDays;
      isTrialActive := false;
      hasTrialExpired := false;
    }

    method StartTrial()
      modifies this
      ensures State() == Trialed(old(State()))
      ensures isTrialActive && trialDaysLeft == 7 && !hasTrialExpired
      ensures isPremium == old(isPremium)
    {
      isTrialActive := true;
      trialDaysLeft := TrialDays;
      hasTrialExpired := false;
    }

    method UpgradeToPremium()
      modifies this
      ensures State() == Upgraded(old(State()))
      ensures isPremium && !isTrialActive && !hasTrialExpired
      ensures trialDaysLeft == old(trialDaysLeft)
    {
      isPremium := true;
      isTrialActive := false;
      hasTrialExpired := false;
    }

    function CheckFeatureAccess(feature: string): (r: bool)
      reads this
      ensures r <==> !IsGated(feature) || isPremium || isTrialActive
    {
      Access(feature, State())
    }
  }

  // ---------------------------------------------------------------------
  // Properties of the session

  /** Calling `startTrial` a second time changes nothing: trials do not stack. */
  lemma StartTrialIdempotent(s: Session)
    ensures Trialed(Trialed(s)) == Trialed(s)
    ensures Trialed(s).trialDaysLeft == TrialDays && Trialed(s).isTrialActive
  {
  }

  /** No operation clears `isPremium`. */
  lemma {:induction false} PremiumNeverLost(s: Session, ops: seq<Operation>)
    requires s.isPremium
    ensures ApplyAll(s, ops).isPremium
    decreases |ops|
  {
    if ops != [] {
      PremiumNeverLost(Apply(s, ops[0]), ops[1..]);
    }
  }

  /** Nothing counts a trial down or expires it: from a session with a full,
      unexpired trial, every run keeps `trialDaysLeft == 7` and
      `hasTrialExpired == false`. */
  lemma {:induction false} TrialNeverExpires(s: Session, ops: seq<Operation>)
    requires s.trialDaysLeft == TrialDays && !s.hasTrialExpired
    ensures ApplyAll(s, ops).trialDaysLeft == TrialDays
    ensures !ApplyAll(s, ops).hasTrialExpired
    decreases |ops|
  {
    if ops != [] {
      TrialNeverExpires(Apply(s, ops[0]), ops[1..]);
    }
  }

  /** Every session the provider can reach keeps the trial fields at their
      initial values. */
  lemma ReachableTrialFields(ops: seq<Operation>)
    ensures ApplyAll(Fresh(), ops).trialDaysLeft == 7
    ensures !ApplyAll(Fresh(), ops).hasTrialExpired
  {
    TrialNeverExpires(Fresh(), ops);
  }

  /** Once granted, access to the gated features is never withdrawn. */
  lemma {:induction false} AccessNeverRevoked(s: Session, ops: seq<Operation>, feature: string)
    requires Access(feature, s)
    ensures Access(feature, ApplyAll(s, ops))
    decreases |ops|
  {
    if ops != [] {
      AccessNeverRevoked(Apply(s, ops[0]), ops[1..], feature);
    }
  }

  /** The gate denies every gated feature on a fresh session, and grants every
      feature after either mutation, whatever the session was before. */
  lemma GateAfterMutations(feature: string, s: Session)
    ensures Access(feature, Fresh()) <==> !IsGated(feature)
    ensures Access(feature, Trialed(s))
    ensures Access(feature, Upgraded(s))
  {
  }

  /** A session with no operation applied denies the gated features exactly
      until the first mutation; after it they stay granted. */
  lemma GatedAccessIffMutated(feature: string, ops: seq<Operation>)
    requires IsGated(feature)
    ensures Access(feature, ApplyAll(Fresh(), ops)) <==> ops != []
  {
    if ops != [] {
      AccessNeverRevoked(Apply(Fresh(), ops[0]), ops[1..], feature);
    }
  }

  /** The two flags are not exclusive: upgrading and then starting a trial
      leaves both set. */
  lemma PremiumAndTrialCoexist()
    ensures ApplyAll(Fresh(), [UpgradeToPremium, StartTrial]).isPremium
    ensures ApplyAll(Fresh(), [UpgradeToPremium, StartTrial]).isTrialActive
  {
    assert [UpgradeToPremium, StartTrial][1..] == [StartTrial];
  }

  /** The names in the provider's list are exactly the four gated ones. */
  lemma GatedListMatches(feature: string)
    ensures feature in PremiumFeatures <==> IsGated(feature)
  {
  }
}
