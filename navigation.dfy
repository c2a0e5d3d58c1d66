/** The screen-navigation controller of `App`: one `currentScreen` field,
    one handler per transition, and `renderScreen`, which decides which
    handlers the displayed screen receives. The shared entitlement session
    is part of the application state: the dashboard chooses its plan button
    by it, and two screens change it. */
module Navigation {
  import Entitlement
  import Paywall
  import opened Wrappers

  /** The twelve members of `ScreenType`. */
  datatype Screen =
    | Welcome | Onboarding | Setup | Dashboard | SafeRoute | FakeCall
    | PremiumUpgrade | SubscriptionStatus | Alert | Contacts | Deterrent | Confirmation

  /** The `handle*` callbacks `App` defines. */
  datatype Handler =
    | WelcomeComplete | OnboardingComplete | SetupComplete | PanicPress
    | SafeRouteAccess | SafeRouteBack | FakeCallAccess | FakeCallBack
    | PremiumUpgradeAccess | SubscriptionStatusAccess | StartTrial
    | AlertCancel | AlertConfirm | ContactsNext | DeterrentNext | ReturnHome

  /** The string literal of each screen in `ScreenType`. */
  function Name(s: Screen): string {
    match s
    case Welcome => "welcome"
    case Onboarding => "onboarding"
    case Setup => "setup"
    case Dashboard => "dashboard"
    case SafeRoute => "safe-route"
    case FakeCall => "fake-call"
    case PremiumUpgrade => "premium-upgrade"
    case SubscriptionStatus => "subscription-status"
    case Alert => "alert"
    case Contacts => "contacts"
    case Deterrent => "deterrent"
    case Confirmation => "confirmation"
  }

  /** The screen `renderScreen` draws for a raw `currentScreen` string: the
      matching case, or the welcome screen from the `default` branch. */
  function Render(name: string): (r: Screen)
    ensures Name(r) == name || r == Welcome
    ensures (forall s: Screen :: Name(s) != name) ==> r == Welcome
  {
    if name == "welcome" then Welcome
    else if name == "onboarding" then Onboarding
    else if name == "setup" then Setup
    else if name == "dashboard" then Dashboard
    else if name == "safe-route" then SafeRoute
    else if name == "fake-call" then FakeCall
    else if name == "alert" then Alert
    else if name == "contacts" then Contacts
    else if name == "deterrent" then Deterrent
    else if name == "confirmation" then Confirmation
    else if name == "premium-upgrade" then PremiumUpgrade
    else if name == "subscription-status" then SubscriptionStatus
    else Welcome
  }

  /** The screen each handler sets; `handleStartTrial` has an empty body. */
  function Target(h: Handler): (r: Option<Screen>)
    ensures r.None? <==> h == StartTrial
  {
    match h
    case WelcomeComplete => Some(Onboarding)
    case OnboardingComplete => Some(Setup)
    case SetupComplete => Some(Dashboard)
    case PanicPress => Some(Alert)
    case SafeRouteAccess => Some(SafeRoute)
    case SafeRouteBack => Some(Dashboard)
    case FakeCallAccess => Some(FakeCall)
    case FakeCallBack => Some(Dashboard)
    case PremiumUpgradeAccess => Some(PremiumUpgrade)
    case SubscriptionStatusAccess => Some(SubscriptionStatus)
    case StartTrial => None
    case AlertCancel => Some(Dashboard)
    case AlertConfirm => Some(Contacts)
    case ContactsNext => Some(Deterrent)
    case DeterrentNext => Some(Confirmation)
    case ReturnHome => Some(Dashboard)
  }

  /** The handlers `renderScreen` passes to each screen as callback props. */
  function Passed(s: Screen): set<Handler> {
    match s
    case Welcome => {WelcomeComplete}
    case Onboarding => {OnboardingComplete}
    case Setup => {SetupComplete}
    case Dashboard => {PanicPress, SafeRouteAccess, FakeCallAccess, PremiumUpgradeAccess, SubscriptionStatusAccess}
    case SafeRoute => {SafeRouteBack, PanicPress}
    case FakeCall => {FakeCallBack, PanicPress, PremiumUpgradeAccess}
    case Alert => {AlertCancel, AlertConfirm}
    case Contacts => {ContactsNext}
    case Deterrent => {DeterrentNext}
    case Confirmation => {ReturnHome}
    case PremiumUpgrade => {ReturnHome, StartTrial}
    case SubscriptionStatus => {ReturnHome, PremiumUpgradeAccess}
  }

  /** The handlers the shown screen can actually call. The dashboard shows its
      subscription-status button only with a plan and its upgrade button only
      without one; fake-call and subscription-status never call the
      `onUpgrade` they are passed. */
  function Wired(s: Screen, sess: Entitlement.Session): (r: set<Handler>)
    ensures r <= Passed(s)
    ensures Passed(s) - r <= {PremiumUpgradeAccess, SubscriptionStatusAccess}
  {
    match s
    case Dashboard =>
      {PanicPress, SafeRouteAccess, FakeCallAccess}
        + (if Entitlement.HasPlan(sess) then {SubscriptionStatusAccess} else {PremiumUpgradeAccess})
    case FakeCall => {FakeCallBack, PanicPress}
    case SubscriptionStatus => {ReturnHome}
    case _ => Passed(s)
  }

  /** The screen after handler `h` is called while `s` is shown; a handler the
      screen does not call leaves it shown. */
  function Next(s: Screen, sess: Entitlement.Session, h: Handler): (r: Screen)
    ensures r != s ==> h in Wired(s, sess) && Target(h) == Some(r)
    ensures h in Wired(s, sess) && Target(h).Some? ==> r == Target(h).value
  {
    if h in Wired(s, sess) && Target(h).Some? then Target(h).value else s
  }

  /** The shown screen and the shared session. */
  datatype AppState = AppState(screen: Screen, session: Entitlement.Session)

  function Initial(): AppState {
    AppState(Welcome, Entitlement.Fresh())
  }

  /** What can happen: a handler is called, the fake-call paywall's
      "Start Free Trial" starts a trial, or the subscription-status upgrade
      button upgrades and goes back. */
  datatype Event = Handle(h: Handler) | PaywallStartsTrial | PlanUpgraded

  /** One event. The fake-call screen opens its paywall only when the session
      has no plan; the upgrade button sits in the pricing section, which is
      shown only without premium. */
  function Step(st: AppState, e: Event): (r: AppState)
    ensures e.Handle? ==> r.session == st.session
    ensures r.session == st.session || r.session == Entitlement.Trialed(st.session)
            || r.session == Entitlement.Upgraded(st.session)
    ensures Entitlement.HasPlan(st.session) ==> Entitlement.HasPlan(r.session)
  {
    match e
    case Handle(h) => st.(screen := Next(st.screen, st.session, h))
    case PaywallStartsTrial =>
      if st.screen == FakeCall && !Entitlement.HasPlan(st.session)
      then st.(session := Paywall.SessionAfter(Paywall.StartFreeTrial, st.session))
      else st
    case PlanUpgraded =>
      if st.screen == SubscriptionStatus && !st.session.isPremium
      then AppState(Next(st.screen, st.session, ReturnHome), Entitlement.Upgraded(st.session))
      else st
  }

  /** The state after the events `es`, one after another. */
  function Run(st: AppState, es: seq<Event>): AppState
    decreases |es|
  {
    if es == [] then st else Run(Step(st, es[0]), es[1..])
  }

  /** The application root: the current screen and the one entitlement
      session every screen shares. */
  class App {
    var currentScreen: Screen
    const premium: Entitlement.PremiumProvider

    function State(): AppState
      reads this, premium
    {
      AppState(currentScreen, premium.State())
    }

    constructor ()
      ensures fresh(premium)
      ensures State() == Initial()
    {
      currentScreen := Welcome;
      premium := new Entitlement.PremiumProvider();
    }

    /** A handler is called from the rendered screen; it only ever sets the screen. */
    method Fire(h: Handler)
      modifies this
      ensures State() == Step(old(State()), Handle(h))
      ensures premium.State() == old(premium.State())
    {
      if h in Wired(currentScreen, premium.State()) {
        match Target(h)
        case Some(t) => currentScreen := t;
        case None =>
      }
    }

    /** "Start Free Trial" in the paywall the fake-call screen opens. */
    method StartTrialFromPaywall()
      modifies premium
      ensures State() == Step(old(State()), PaywallStartsTrial)
    {
      if currentScreen == FakeCall && !(premium.isPremium || premium.isTrialActive) {
        var _ := Paywall.Perform(premium, Paywall.StartFreeTrial);
      }
    }

    /** The subscription-status upgrade button: `upgradeToPremium`, then `onBack`. */
    method UpgradeFromStatus()
      modifies this, premium
      ensures State() == Step(old(State()), PlanUpgraded)
    {
      if currentScreen == SubscriptionStatus && !premium.isPremium {
        premium.UpgradeToPremium();
        currentScreen := Dashboard;
      }
    }
  }

  // ---------------------------------------------------------------------
  // Properties of the controller

  /** The names are distinct, so `renderScreen` draws every screen it is given
      and falls back to welcome only for strings outside `ScreenType`. */
  lemma RenderRoundTrip(s: Screen, name: string)
    ensures Render(Name(s)) == s
    ensures (forall t: Screen :: Name(t) != name) ==> Render(name) == Welcome
  {
  }

  /** Every handler that sets a screen sets the same one from every screen
      that calls it. */
  lemma HandlersIgnoreCurrent(h: Handler, s1: Screen, s2: Screen, sess: Entitlement.Session)
    requires h in Wired(s1, sess) && h in Wired(s2, sess)
    ensures Next(s1, sess, h) == Next(s2, sess, h) || Target(h).None?
  {
  }

  /** No handler targets welcome. */
  lemma NoHandlerTargetsWelcome(h: Handler)
    ensures Target(h) != Some(Welcome)
  {
  }

  /** Once left, the welcome screen is never shown again. */
  lemma {:induction false} WelcomeNeverReentered(st: AppState, es: seq<Event>)
    requires st.screen != Welcome
    ensures Run(st, es).screen != Welcome
    decreases |es|
  {
    if es != [] {
      if es[0].Handle? {
        NoHandlerTargetsWelcome(es[0].h);
      }
      WelcomeNeverReentered(Step(st, es[0]), es[1..]);
    }
  }

  /** From welcome, only `handleWelcomeComplete` moves on, and it goes to onboarding. */
  lemma WelcomeExits(h: Handler, sess: Entitlement.Session)
    ensures Next(Welcome, sess, h) != Welcome <==> h == WelcomeComplete
    ensures Next(Welcome, sess, WelcomeComplete) == Onboarding
  {
  }

  /** The emergency callback is called exactly from dashboard, safe-route and
      fake-call, and leads to alert from each. */
  lemma PanicWiring(s: Screen, sess: Entitlement.Session)
    ensures PanicPress in Wired(s, sess) <==> s == Dashboard || s == SafeRoute || s == FakeCall
    ensures PanicPress in Wired(s, sess) ==> Next(s, sess, PanicPress) == Alert
  {
  }

  /** The dashboard shows exactly one of its two plan buttons: upgrade
      without a plan, subscription status with one. */
  lemma DashboardPlanButtons(sess: Entitlement.Session)
    ensures PremiumUpgradeAccess in Wired(Dashboard, sess) <==> !Entitlement.HasPlan(sess)
    ensures SubscriptionStatusAccess in Wired(Dashboard, sess) <==> Entitlement.HasPlan(sess)
  {
  }

  /** Fake-call and subscription-status are passed `onUpgrade` but never call
      it, so only the dashboard leads to premium-upgrade. */
  lemma UpgradePropsUnused(s: Screen, sess: Entitlement.Session)
    ensures PremiumUpgradeAccess in Passed(FakeCall) && PremiumUpgradeAccess in Passed(SubscriptionStatus)
    ensures PremiumUpgradeAccess in Wired(s, sess) <==> s == Dashboard && !Entitlement.HasPlan(sess)
  {
  }

  /** The alert screen offers exactly confirm and cancel: confirm goes to
      contacts, cancel back to the dashboard. */
  lemma AlertOutcomes(sess: Entitlement.Session)
    ensures Wired(Alert, sess) == {AlertCancel, AlertConfirm}
    ensures Next(Alert, sess, AlertConfirm) == Contacts
    ensures Next(Alert, sess, AlertCancel) == Dashboard
  {
  }

  /** The emergency chain alert, contacts, deterrent, confirmation, dashboard
      takes one handler per step, and each of those screens offers only it. */
  lemma EmergencyChain(sess: Entitlement.Session)
    ensures Wired(Contacts, sess) == {ContactsNext} && Next(Contacts, sess, ContactsNext) == Deterrent
    ensures Wired(Deterrent, sess) == {DeterrentNext} && Next(Deterrent, sess, DeterrentNext) == Confirmation
    ensures Wired(Confirmation, sess) == {ReturnHome} && Next(Confirmation, sess, ReturnHome) == Dashboard
    ensures Run(AppState(Alert, sess), [Handle(AlertConfirm), Handle(ContactsNext), Handle(DeterrentNext), Handle(ReturnHome)])
            == AppState(Dashboard, sess)
  {
    var es := [Handle(AlertConfirm), Handle(ContactsNext), Handle(DeterrentNext), Handle(ReturnHome)];
    assert Run(AppState(Confirmation, sess), es[3..]) == AppState(Dashboard, sess) by {
      assert Step(AppState(Confirmation, sess), es[3]) == AppState(Dashboard, sess);
      assert es[3..][1..] == [];
    }
    assert Run(AppState(Deterrent, sess), es[2..]) == AppState(Dashboard, sess) by {
      assert Step(AppState(Deterrent, sess), es[2]) == AppState(Confirmation, sess);
      assert es[2..][1..] == es[3..];
    }
    assert Run(AppState(Contacts, sess), es[1..]) == AppState(Dashboard, sess) by {
      assert Step(AppState(Contacts, sess), es[1]) == AppState(Deterrent, sess);
      assert es[1..][1..] == es[2..];
    }
    assert Step(AppState(Alert, sess), es[0]) == AppState(Contacts, sess);
  }

  /** Back on premium-upgrade and subscription-status, and "return home" on
      confirmation, all lead to the dashboard. */
  lemma ReturnHomeLeadsToDashboard(s: Screen, sess: Entitlement.Session)
    requires s == PremiumUpgrade || s == SubscriptionStatus || s == Confirmation
    ensures Next(s, sess, ReturnHome) == Dashboard
  {
  }

  /** `handleStartTrial` changes no screen and no session. The premium-upgrade
      "start trial" button calls it and then back, so it only returns to the
      dashboard, with the session as it was. */
  lemma StartTrialIsNoOp(s: Screen, sess: Entitlement.Session)
    ensures Next(s, sess, StartTrial) == s
    ensures Run(AppState(PremiumUpgrade, sess), [Handle(StartTrial), Handle(ReturnHome)]) == AppState(Dashboard, sess)
  {
    assert [Handle(StartTrial), Handle(ReturnHome)][1..] == [Handle(ReturnHome)];
    assert [Handle(ReturnHome)][1..] == [];
  }

  /** The session changes only through the fake-call paywall's trial and the
      subscription-status upgrade; no handler of `App` touches it. */
  lemma SessionChangesOnlyOnPurchase(st: AppState, e: Event)
    ensures Step(st, e).session != st.session ==>
              (e == PaywallStartsTrial && st.screen == FakeCall && !Entitlement.HasPlan(st.session))
              || (e == PlanUpgraded && st.screen == SubscriptionStatus && !st.session.isPremium)
  {
  }

  /** The subscription-status upgrade, taken without premium, lands on the
      dashboard with the upgraded session. */
  lemma UpgradeStep(sess: Entitlement.Session)
    requires !sess.isPremium
    ensures Step(AppState(SubscriptionStatus, sess), PlanUpgraded) == AppState(Dashboard, Entitlement.Upgraded(sess))
  {
  }

  /** The back buttons of safe-route and fake-call return to the dashboard. */
  lemma BackButtonsLeadHome(sess: Entitlement.Session)
    ensures Next(SafeRoute, sess, SafeRouteBack) == Dashboard
    ensures Next(FakeCall, sess, FakeCallBack) == Dashboard
  {
  }

  /** Once the session has a plan, it keeps one, and the premium-upgrade
      screen cannot be reached again. */
  lemma {:induction false} UpgradeClosedOnceSubscribed(st: AppState, es: seq<Event>)
    requires Entitlement.HasPlan(st.session) && st.screen != PremiumUpgrade
    ensures Entitlement.HasPlan(Run(st, es).session)
    ensures Run(st, es).screen != PremiumUpgrade
    decreases |es|
  {
    if es != [] {
      UpgradeClosedOnceSubscribed(Step(st, es[0]), es[1..]);
    }
  }

  /** Subscription-status is shown only while the session has a plan. */
  lemma {:induction false} StatusOnlyWithPlan(st: AppState, es: seq<Event>)
    requires st.screen == SubscriptionStatus ==> Entitlement.HasPlan(st.session)
    ensures Run(st, es).screen == SubscriptionStatus ==> Entitlement.HasPlan(Run(st, es).session)
    decreases |es|
  {
    if es != [] {
      StatusOnlyWithPlan(Step(st, es[0]), es[1..]);
    }
  }

  /** Runs compose: the state after `a + b` is the state after `b` from the
      state after `a`. */
  lemma {:induction false} RunAppend(st: AppState, a: seq<Event>, b: seq<Event>)
    ensures Run(st, a + b) == Run(Run(st, a), b)
    decreases |a|
  {
    if a == [] {
      assert a + b == b;
    } else {
      assert (a + b)[0] == a[0];
      assert (a + b)[1..] == a[1..] + b;
      RunAppend(Step(st, a[0]), a[1..], b);
    }
  }

  /** One more event after a run. */
  lemma RunSnoc(st: AppState, es: seq<Event>, e: Event)
    ensures Run(st, es + [e]) == Step(Run(st, es), e)
  {
    RunAppend(st, es, [e]);
    assert [e][1..] == [];
  }

  /** The start-up path: welcome, onboarding and setup lead to the dashboard. */
  lemma StartUpPath()
    ensures Run(Initial(), [Handle(WelcomeComplete)]).screen == Onboarding
    ensures Run(Initial(), [Handle(WelcomeComplete), Handle(OnboardingComplete)]).screen == Setup
    ensures Run(Initial(), StartUp()) == AppState(Dashboard, Entitlement.Fresh())
  {
    var p1 := [Handle(WelcomeComplete)];
    var p2 := p1 + [Handle(OnboardingComplete)];
    RunSnoc(Initial(), [], Handle(WelcomeComplete));
    assert [] + [Handle(WelcomeComplete)] == p1;
    RunSnoc(Initial(), p1, Handle(OnboardingComplete));
    RunSnoc(Initial(), p2, Handle(SetupComplete));
    assert p2 + [Handle(SetupComplete)] == StartUp();
  }

  /** The handlers of the start-up path. */
  function StartUp(): seq<Event> {
    [Handle(WelcomeComplete), Handle(OnboardingComplete), Handle(SetupComplete)]
  }

  /** From the dashboard of a fresh session, the emergency chain reaches
      alert, contacts, deterrent and confirmation. */
  lemma EmergencyPath()
    ensures Run(AppState(Dashboard, Entitlement.Fresh()), [Handle(PanicPress)]).screen == Alert
    ensures Run(AppState(Dashboard, Entitlement.Fresh()), [Handle(PanicPress), Handle(AlertConfirm)]).screen == Contacts
    ensures Run(AppState(Dashboard, Entitlement.Fresh()),
                [Handle(PanicPress), Handle(AlertConfirm), Handle(ContactsNext)]).screen == Deterrent
    ensures Run(AppState(Dashboard, Entitlement.Fresh()),
                [Handle(PanicPress), Handle(AlertConfirm), Handle(ContactsNext), Handle(DeterrentNext)]).screen == Confirmation
  {
    var d := AppState(Dashboard, Entitlement.Fresh());
    var p1 := [Handle(PanicPress)];
    var p2 := p1 + [Handle(AlertConfirm)];
    var p3 := p2 + [Handle(ContactsNext)];
    RunSnoc(d, [], Handle(PanicPress));
    assert [] + [Handle(PanicPress)] == p1;
    assert Run(d, p1) == AppState(Alert, Entitlement.Fresh());
    RunSnoc(d, p1, Handle(AlertConfirm));
    assert Run(d, p2) == AppState(Contacts, Entitlement.Fresh());
    RunSnoc(d, p2, Handle(ContactsNext));
    assert Run(d, p3) == AppState(Deterrent, Entitlement.Fresh());
    RunSnoc(d, p3, Handle(DeterrentNext));
  }

  /** From the dashboard of a fresh session, one handler opens safe-route,
      fake-call or premium-upgrade; subscription-status needs a trial first,
      started from the fake-call paywall. */
  lemma DashboardPaths()
    ensures Run(AppState(Dashboard, Entitlement.Fresh()), [Handle(SafeRouteAccess)]).screen == SafeRoute
    ensures Run(AppState(Dashboard, Entitlement.Fresh()), [Handle(FakeCallAccess)]).screen == FakeCall
    ensures Run(AppState(Dashboard, Entitlement.Fresh()), [Handle(PremiumUpgradeAccess)]).screen == PremiumUpgrade
    ensures Run(AppState(Dashboard, Entitlement.Fresh()),
                [Handle(FakeCallAccess), PaywallStartsTrial, Handle(FakeCallBack), Handle(SubscriptionStatusAccess)]).screen
            == SubscriptionStatus
  {
    var d := AppState(Dashboard, Entitlement.Fresh());
    var trial := Entitlement.Trialed(Entitlement.Fresh());
    assert Run(d, [Handle(SafeRouteAccess)]).screen == SafeRoute by {
      RunSnoc(d, [], Handle(SafeRouteAccess));
    }
    assert Run(d, [Handle(PremiumUpgradeAccess)]).screen == PremiumUpgrade by {
      RunSnoc(d, [], Handle(PremiumUpgradeAccess));
    }
    var p1 := [Handle(FakeCallAccess)];
    var p2 := p1 + [PaywallStartsTrial];
    var p3 := p2 + [Handle(FakeCallBack)];
    assert Run(d, p1) == AppState(FakeCall, Entitlement.Fresh()) by {
      RunSnoc(d, [], Handle(FakeCallAccess));
      assert [] + [Handle(FakeCallAccess)] == p1;
    }
    assert Run(d, p2) == AppState(FakeCall, trial) by {
      RunSnoc(d, p1, PaywallStartsTrial);
    }
    assert Run(d, p3) == AppState(Dashboard, trial) by {
      RunSnoc(d, p2, Handle(FakeCallBack));
    }
    assert Run(d, p3 + [Handle(SubscriptionStatusAccess)]) == AppState(SubscriptionStatus, trial) by {
      RunSnoc(d, p3, Handle(SubscriptionStatusAccess));
    }
  }

  /** A run that starts up first continues from the fresh dashboard. */
  lemma ViaDashboard(rest: seq<Event>)
    ensures Run(Initial(), StartUp() + rest) == Run(AppState(Dashboard, Entitlement.Fresh()), rest)
  {
    StartUpPath();
    RunAppend(Initial(), StartUp(), rest);
  }

  /** Every one of the twelve screens can be reached from a fresh start. */
  lemma EveryScreenReachable(t: Screen)
    ensures exists es: seq<Event> :: Run(Initial(), es).screen == t
  {
    match t
    case Welcome =>
      assert Run(Initial(), []).screen == t;
    case Onboarding =>
      assert Run(Initial(), [Handle(WelcomeComplete)]).screen == t by {
        StartUpPath();
      }
    case Setup =>
      assert Run(Initial(), [Handle(WelcomeComplete), Handle(OnboardingComplete)]).screen == t by {
        StartUpPath();
      }
    case Dashboard =>
      assert Run(Initial(), StartUp()).screen == t by {
        StartUpPath();
      }
    case Alert =>
      var rest := [Handle(PanicPress)];
      assert Run(Initial(), StartUp() + rest).screen == t by {
        EmergencyPath();
        ViaDashboard(rest);
      }
    case Contacts =>
      var rest := [Handle(PanicPress), Handle(AlertConfirm)];
      assert Run(Initial(), StartUp() + rest).screen == t by {
        EmergencyPath();
        ViaDashboard(rest);
      }
    case Deterrent =>
      var rest := [Handle(PanicPress), Handle(AlertConfirm), Handle(ContactsNext)];
      assert Run(Initial(), StartUp() + rest).screen == t by {
        EmergencyPath();
        ViaDashboard(rest);
      }
    case Confirmation =>
      var rest := [Handle(PanicPress), Handle(AlertConfirm), Handle(ContactsNext), Handle(DeterrentNext)];
      assert Run(Initial(), StartUp() + rest).screen == t by {
        EmergencyPath();
        ViaDashboard(rest);
      }
    case SafeRoute =>
      var rest := [Handle(SafeRouteAccess)];
      assert Run(Initial(), StartUp() + rest).screen == t by {
        DashboardPaths();
        ViaDashboard(rest);
      }
    case FakeCall =>
      var rest := [Handle(FakeCallAccess)];
      assert Run(Initial(), StartUp() + rest).screen == t by {
        DashboardPaths();
        ViaDashboard(rest);
      }
    case PremiumUpgrade =>
      var rest := [Handle(PremiumUpgradeAccess)];
      assert Run(Initial(), StartUp() + rest).screen == t by {
        DashboardPaths();
        ViaDashboard(rest);
      }
    case SubscriptionStatus =>
      var rest := [Handle(FakeCallAccess), PaywallStartsTrial, Handle(FakeCallBack), Handle(SubscriptionStatusAccess)];
      assert Run(Initial(), StartUp() + rest).screen == t by {
        DashboardPaths();
        ViaDashboard(rest);
      }
  }
}
