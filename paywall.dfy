/** The paywall dialog: its buttons start a trial on the shared session and
    report back to the host screen through `onClose` and `onUpgrade`. */
module Paywall {
  import Entitlement

  /** The host's callback props, in the order the dialog calls them. */
  datatype Callback = OnClose | OnUpgrade

  /** What the user can do in the open dialog: "Start Free Trial", "Maybe
      Later", the X button, or dismissing it (Escape, a click outside), which
      `onOpenChange` reports. */
  datatype Action = StartFreeTrial | MaybeLater | CloseButton | Dismiss

  /** The session after an action. */
  function SessionAfter(a: Action, s: Entitlement.Session): Entitlement.Session {
    if a == StartFreeTrial then Entitlement.Trialed(s) else s
  }

  /** Performs an action: "Start Free Trial" runs `handleStartTrial`, which
      starts the trial and then closes; the other three only close. No action
      reaches `handleUpgrade`, so `onUpgrade` is never called. */
  method Perform(premium: Entitlement.PremiumProvider, a: Action) returns (calls: seq<Callback>)
    modifies premium
    ensures premium.State() == SessionAfter(a, old(premium.State()))
    ensures calls == [OnClose]
    ensures a == StartFreeTrial ==> forall f :: premium.CheckFeatureAccess(f)
  {
    if a == StartFreeTrial {
      premium.StartTrial();
    }
    calls := [OnClose];
  }

  /** Only "Start Free Trial" changes the session, and after it every
      feature is accessible; the three ways to close leave it alone. */
  lemma TrialOnlyFromStartButton(a: Action, s: Entitlement.Session, f: string)
    ensures a != StartFreeTrial ==> SessionAfter(a, s) == s
    ensures a == StartFreeTrial ==> Entitlement.Access(f, SessionAfter(a, s))
    ensures SessionAfter(a, s).isPremium == s.isPremium
  {
  }
}
