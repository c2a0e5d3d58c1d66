# SHEild prototype: navigation, entitlement and per-screen state machines

SHEild is a demonstration companion app for a personal-safety wearable. Its
behaviour is a set of small, deterministic state machines:

- the **entitlement session** (`PremiumProvider`): premium, trial and expiry
  flags, two mutations (`startTrial`, `upgradeToPremium`) and the feature gate
  `checkFeatureAccess`;
- the **navigation controller** (`App`): one `currentScreen` out of twelve,
  one handler per transition, and `renderScreen`, which decides which handlers
  each screen is given;
- the **per-screen state**: the alert screen's ten-second auto-confirm countdown,
  the fake-call setup/countdown/incoming-call machine, the paywall dialog, the
  onboarding carousel, the setup wizard, the safe-route progress bar and idle
  check, and the subscription-status labels with their upgrade action.

Each component whose fields change in place is a Dafny `class` with those
fields. Its methods say the new state as a pure transition function of the
old one, through a snapshot datatype (`Session`, `CallState`, `SetupState`,
`RouteState`). Properties of whole runs are lemmas over those functions: a
sequence of handlers, `n` timer ticks, or a sequence of session operations.
Timer callbacks are explicit methods (`Tick`, `CountdownTick`,
`ConnectTimerFired`, `IdleTimerFires`, ...). `Date.now()` becomes a `now`
parameter, and the random route-deviation draw becomes a `deviates` parameter.

Three behaviours of the code that the model keeps as written:

- No code sets `hasTrialExpired` to true or lowers `trialDaysLeft`.
  `Entitlement.TrialNeverExpires` proves that the flag stays `false` and the
  count stays 7, so the subscription screen's "Trial Expired" card and
  "Upgrade Now" caption never appear
  (`SubscriptionStatus.ExpiredStateUnreachable`).
- `App` passes `handlePremiumUpgradeAccess` to fake-call and to
  subscription-status as `onUpgrade`. Subscription-status never calls it, and
  fake-call calls it only from its paywall's `handleUpgrade`, which no button
  of the dialog reaches. The model keeps the props `App` passes
  (`Navigation.Passed`) apart from the handlers a screen can call
  (`Navigation.Wired`). The dashboard shows its subscription-status button
  only when the session is premium or on trial (src/components/Dashboard.tsx line 50), and
  its upgrade button only when it is neither (line 217). The only way into
  subscription-status from a fresh start therefore begins with a trial taken
  from the fake-call paywall (`Navigation.DashboardPaths`).
- The premium-upgrade screen's "Start Free Trial" button calls `onStartTrial`
  and then `onBack`. `App` wires `onStartTrial` to an empty `handleStartTrial`,
  so the button only returns to the dashboard and starts no trial
  (`Navigation.StartTrialIsNoOp`).

## Model

| member | source | states |
|---|---|---|
| `Entitlement.Includes` | src/components/utils/premiumContext.tsx:38-45 | the list lookup is true exactly when the name is in the list |
| `Entitlement.Access` | src/components/utils/premiumContext.tsx:37-50 | a name outside the four gated names is always granted; a gated name is granted iff `isPremium || isTrialActive` |
| `Entitlement.GatedListMatches` | src/components/utils/premiumContext.tsx:38-43 | the provider's list holds exactly the four gated names |
| `Entitlement.PremiumProvider.constructor` | src/components/utils/premiumContext.tsx:20-23 | a fresh session is not premium, has no trial, is not expired, and has 7 days left |
| `Entitlement.PremiumProvider.StartTrial` | src/components/utils/premiumContext.tsx:25-29 | the trial becomes active with 7 days left and not expired; `isPremium` is unchanged |
| `Entitlement.PremiumProvider.UpgradeToPremium` | src/components/utils/premiumContext.tsx:31-35 | the session becomes premium, with the trial inactive and not expired; `trialDaysLeft` is unchanged |
| `Entitlement.PremiumProvider.CheckFeatureAccess` | src/components/utils/premiumContext.tsx:37-50 | the gate on the provider's current fields: free outside the gated names, else premium or trial |
| `Entitlement.StartTrialIdempotent` | src/components/utils/premiumContext.tsx:25-29 | starting a trial twice gives the same session as starting it once, so trials do not stack |
| `Entitlement.PremiumNeverLost` | src/components/utils/premiumContext.tsx:20-35 | no sequence of operations clears `isPremium` once it is set |
| `Entitlement.TrialNeverExpires` | src/components/utils/premiumContext.tsx:21-35 | every operation sequence keeps `trialDaysLeft == 7` and `hasTrialExpired == false` |
| `Entitlement.ReachableTrialFields` | src/components/utils/premiumContext.tsx:20-35 | every session reachable from a fresh one has 7 days left and is not expired |
| `Entitlement.AccessNeverRevoked` | src/components/utils/premiumContext.tsx:25-49 | once the gate grants a feature, no later operation withdraws it |
| `Entitlement.GateAfterMutations` | src/components/utils/premiumContext.tsx:20-49 | a fresh session denies exactly the gated names; after `startTrial` or `upgradeToPremium` every feature is granted |
| `Entitlement.GatedAccessIffMutated` | src/components/utils/premiumContext.tsx:20-49 | from a fresh session, a gated feature is granted iff at least one operation has run |
| `Entitlement.PremiumAndTrialCoexist` | src/components/utils/premiumContext.tsx:25-35 | upgrading and then starting a trial leaves both flags set, so the two are not exclusive |
| `Navigation.Render` | src/App.tsx:85-113 | `renderScreen` draws the screen whose name matches, and falls back to welcome for a name outside `ScreenType` |
| `Navigation.RenderRoundTrip` | src/App.tsx:16-113 | every `ScreenType` value renders its own screen; only unknown names fall back to welcome |
| `Navigation.Target` | src/App.tsx:21-83 | every handler sets one fixed screen, except `handleStartTrial`, which sets none |
| `Navigation.Wired` | src/App.tsx:93-110 | the handlers a screen can call are among the props `App` passes it; only the two plan-screen handlers are ever passed without being callable |
| `Navigation.Step` | src/App.tsx:21-83 | handler events never change the session; the two purchase events change it only to the trialed or the upgraded session, and a plan once held is kept |
| `Navigation.Next` | src/App.tsx:21-110 | a handler the shown screen can call always moves it to that handler's target, and the screen changes in no other way |
| `Navigation.App.constructor` | src/App.tsx:19 | the app starts on welcome with a fresh entitlement session |
| `Navigation.App.Fire` | src/App.tsx:21-83 | a handler the shown screen can call sets its target; the session is unchanged |
| `Navigation.App.StartTrialFromPaywall` | src/components/FakeCallScreen.tsx:59-66 | on fake-call without a plan, the paywall's "Start Free Trial" starts a trial; nothing else changes |
| `Navigation.App.UpgradeFromStatus` | src/components/SubscriptionStatusScreen.tsx:22-25 | on subscription-status without premium, the upgrade button upgrades the session and returns to the dashboard |
| `Navigation.UpgradeStep` | src/components/SubscriptionStatusScreen.tsx:22-25 | the upgrade without premium lands on the dashboard with the upgraded session |
| `Navigation.BackButtonsLeadHome` | src/App.tsx:41-51 | Back on safe-route and on fake-call returns to the dashboard |
| `Navigation.HandlersIgnoreCurrent` | src/App.tsx:21-83 | a handler with a target leads to that same screen from every screen that calls it; `handleStartTrial` has none |
| `Navigation.NoHandlerTargetsWelcome` | src/App.tsx:21-83 | no handler sets the screen to welcome |
| `Navigation.WelcomeNeverReentered` | src/App.tsx:21-83 | once welcome is left, no sequence of events shows it again |
| `Navigation.WelcomeExits` | src/App.tsx:87-88 | from welcome, only `handleWelcomeComplete` changes the screen, and it goes to onboarding |
| `Navigation.PanicWiring` | src/App.tsx:33-98 | the emergency callback is called exactly from dashboard, safe-route and fake-call, and leads to alert |
| `Navigation.DashboardPlanButtons` | src/components/Dashboard.tsx:50-219 | the dashboard offers the upgrade button iff the session has no plan, and the subscription-status button iff it has one |
| `Navigation.UpgradePropsUnused` | src/App.tsx:98-110 | fake-call and subscription-status are passed `onUpgrade` but never call it; only a plan-less dashboard leads to premium-upgrade |
| `Navigation.AlertOutcomes` | src/App.tsx:65-100 | alert offers only confirm and cancel; confirm leads to contacts, cancel to dashboard |
| `Navigation.EmergencyChain` | src/App.tsx:69-106 | alert → contacts → deterrent → confirmation → dashboard, one handler per step, each screen offering only that handler, with the session untouched |
| `Navigation.ReturnHomeLeadsToDashboard` | src/App.tsx:81-110 | "return home" from confirmation, premium-upgrade or subscription-status leads to dashboard |
| `Navigation.StartTrialIsNoOp` | src/App.tsx:61-63 | `handleStartTrial` changes nothing; the premium-upgrade trial button (trial, then back) returns to the dashboard with the session as it was |
| `Navigation.SessionChangesOnlyOnPurchase` | src/App.tsx:21-83 | the session changes only through the fake-call paywall's trial without a plan or the subscription-status upgrade without premium |
| `Navigation.UpgradeClosedOnceSubscribed` | src/components/Dashboard.tsx:217 | once the session has a plan it keeps one through every run, and premium-upgrade is never shown again |
| `Navigation.StatusOnlyWithPlan` | src/components/Dashboard.tsx:50 | subscription-status is shown only while the session has a plan, through every run |
| `Navigation.StartUpPath` | src/App.tsx:21-31 | welcome, onboarding and setup lead to the dashboard of a fresh session |
| `Navigation.EmergencyPath` | src/App.tsx:33-75 | from the dashboard, the panic button and the chain reach alert, contacts, deterrent and confirmation |
| `Navigation.DashboardPaths` | src/App.tsx:37-59 | from a fresh dashboard one handler opens safe-route, fake-call or premium-upgrade; subscription-status takes a paywall trial first |
| `Navigation.EveryScreenReachable` | src/App.tsx:19-110 | each of the twelve screens is reachable from a fresh start by events the app allows |
| `AlertCountdown.AlertScreen.constructor` | src/components/AlertScreen.tsx:14-26 | the countdown starts at 10 with the interval running |
| `AlertCountdown.AlertScreen.Tick` | src/components/AlertScreen.tsx:17-26 | one interval firing: above 1 it decrements without confirming; at 1 or below it sets 0, stops the interval and confirms |
| `AlertCountdown.AlertScreen.Unmount` | src/components/AlertScreen.tsx:28 | leaving the screen clears the interval |
| `AlertCountdown.StepCases` | src/components/AlertScreen.tsx:18-24 | a running tick above 1 decrements by exactly one; at 1 or below it gives 0, stops and confirms |
| `AlertCountdown.ConfirmsOnceAfter` | src/components/AlertScreen.tsx:14-26 | from a countdown `c`, the `c`-th tick confirms, exactly once, and the countdown never goes below 0 |
| `AlertCountdown.StoppedStaysQuiet` | src/components/AlertScreen.tsx:20-28 | a cleared interval never confirms again |
| `AlertCountdown.ConfirmsOnTenthTick` | src/components/AlertScreen.tsx:14-26 | with no input, `onConfirm` fires on the tenth tick and on no other |
| `FakeCall.FindCaller` | src/components/FakeCallScreen.tsx:55 | `find` returns the first option with the value, or nothing when no option has it |
| `FakeCall.CurrentCaller` | src/components/FakeCallScreen.tsx:47-52 | for `custom`, the custom name, or "Unknown" when it is empty; otherwise the selected caller |
| `FakeCall.CurrentEmoji` | src/components/FakeCallScreen.tsx:54-57 | the matching option's emoji, or the default emoji when no option matches |
| `FakeCall.OptionValuesDistinct` | src/components/FakeCallScreen.tsx:30-38 | the seven option values are distinct and every emoji is non-empty |
| `FakeCall.FakeCallScreen.constructor` | src/components/FakeCallScreen.tsx:21-27 | caller Mom, empty custom name, timer 10, no call, countdown 0, incoming view and paywall hidden |
| `FakeCall.FakeCallScreen.SelectCaller` | src/components/FakeCallScreen.tsx:213 | the picker sets the selected caller and nothing else |
| `FakeCall.FakeCallScreen.SetCustomName` | src/components/FakeCallScreen.tsx:242 | the name field sets the custom name and nothing else |
| `FakeCall.FakeCallScreen.SelectTimer` | src/components/FakeCallScreen.tsx:258-261 | a timer button sets one of the four offered delays and nothing else |
| `FakeCall.FakeCallScreen.StartFakeCall` | src/components/FakeCallScreen.tsx:59-66 | without access, only the paywall opens; with access, the call becomes active with the countdown at the selected delay |
| `FakeCall.FakeCallScreen.CancelFakeCall` | src/components/FakeCallScreen.tsx:68-72 | the call becomes inactive, the incoming view hidden, and the countdown 0 |
| `FakeCall.FakeCallScreen.AnswerCall` | src/components/FakeCallScreen.tsx:74-80 | the incoming view hides at once; the call stays active and a hang-up is scheduled |
| `FakeCall.FakeCallScreen.HangUpTimerFires` | src/components/FakeCallScreen.tsx:77-79 | a scheduled hang-up makes the call inactive |
| `FakeCall.FakeCallScreen.DeclineCall` | src/components/FakeCallScreen.tsx:82-85 | the incoming view hides and the call becomes inactive |
| `FakeCall.FakeCallScreen.CountdownTick` | src/components/FakeCallScreen.tsx:87-97 | while a call is active and above 0, the countdown drops by one, and reaching 0 shows the incoming view |
| `FakeCall.FakeCallScreen.PaywallAction` | src/components/FakeCallScreen.tsx:361-364 | every paywall action ends by hiding the dialog; only "Start Free Trial" changes the session |
| `FakeCall.PaywallOpensWithoutPlan` | src/components/FakeCallScreen.tsx:60 | the gate on "fake-call-generator" denies exactly when the session has neither premium nor a trial |
| `FakeCall.StartGate` | src/components/FakeCallScreen.tsx:40-66 | starting without access only opens the paywall; with access the countdown is one of 10, 30, 60 or 300 |
| `FakeCall.IncomingAfterCountdown` | src/components/FakeCallScreen.tsx:87-97 | from an active countdown `c`, the incoming view appears exactly on tick `c`, and each earlier tick drops the countdown by one |
| `FakeCall.TicksIdleAtZero` | src/components/FakeCallScreen.tsx:89-96 | at countdown 0 no timeout is scheduled, so ticks change nothing |
| `FakeCall.AnsweredCallEnds` | src/components/FakeCallScreen.tsx:59-97 | start with access, wait out the delay, answer: the view hides at once and the call ends only at the hang-up |
| `FakeCall.EndingACall` | src/components/FakeCallScreen.tsx:68-85 | cancel and decline both end the call and hide the incoming view; only cancel resets the countdown |
| `FakeCall.CustomUsesDefaultEmoji` | src/components/FakeCallScreen.tsx:30-57 | `custom` shows the same emoji as an unknown value, and Mom shows her own |
| `Paywall.Perform` | src/components/PaywallModal.tsx:27-125 | "Start Free Trial" starts the trial and then closes, after which every feature check passes; the other three actions only close |
| `Paywall.TrialOnlyFromStartButton` | src/components/PaywallModal.tsx:27-125 | only "Start Free Trial" changes the session, and never its premium flag |
| `Onboarding.PrimaryLabel` | src/components/OnboardingSlides.tsx:170 | the caption is "Get Started" exactly on the last slide, otherwise "Next" |
| `Onboarding.BackVisibility` | src/components/OnboardingSlides.tsx:158 | Back is invisible exactly on the first slide |
| `Onboarding.OnboardingSlides.constructor` | src/components/OnboardingSlides.tsx:13 | the index starts at 0 |
| `Onboarding.OnboardingSlides.Next` | src/components/OnboardingSlides.tsx:81-87 | below the last slide the index goes up by one without completing; on the last slide it stays and `onComplete` is called |
| `Onboarding.OnboardingSlides.Back` | src/components/OnboardingSlides.tsx:89-93 | above 0 the index goes down by one; at 0 nothing changes |
| `Onboarding.IndexStaysInRange` | src/components/OnboardingSlides.tsx:81-93 | any sequence of presses keeps the index within the five slides |
| `Onboarding.CompletionOnlyFromLast` | src/components/OnboardingSlides.tsx:81-87 | a completion happens only through a Next press made on the last slide |
| `Onboarding.CompletesAfterLastSlide` | src/components/OnboardingSlides.tsx:81-87 | from slide `i`, `n` Next presses reach `min(i + n, 4)`, and complete iff `i + n > 4` |
| `Onboarding.AtLastSlide` | src/components/OnboardingSlides.tsx:84-85 | on the last slide every Next completes and the index stays |
| `Onboarding.FirstCompletionOnFifthPress` | src/components/OnboardingSlides.tsx:13-87 | from the first slide, four presses reach "Get Started" without completing, and the fifth completes |
| `Setup.StepLabel` | src/components/SetupScreen.tsx:245 | the caption is "Step n of 4" with n = current step + 1 |
| `Setup.ProgressValue` | src/components/SetupScreen.tsx:243 | the progress bar is 0 at the first step and 100 at the last |
| `Setup.ProgressRises` | src/components/SetupScreen.tsx:243 | the progress bar rises strictly with the step |
| `Setup.SetupScreen.constructor` | src/components/SetupScreen.tsx:14-15 | setup starts at step 0, not connecting |
| `Setup.SetupScreen.PressButton` | src/components/SetupScreen.tsx:48-229 | Connect starts connecting; Continue on contacts goes to step 2 and on location to step 3; the step never decreases; only the last step completes |
| `Setup.SetupScreen.ConnectTimerFired` | src/components/SetupScreen.tsx:40-46 | the connection timeout clears `isConnecting` and moves to step 1 |
| `Setup.StepNeverDecreases` | src/components/SetupScreen.tsx:40-229 | over any run of presses and timeouts, the step never decreases and stays in 0..3, and connecting happens only on step 0 |
| `Setup.CompleteOnlyFromTest` | src/components/SetupScreen.tsx:183-223 | `onComplete` is called only on the last step, "test" |
| `Setup.HappyPath` | src/components/SetupScreen.tsx:40-220 | connect, its timeout and the two Continue buttons reach the test step, where the final button completes |
| `SafeRoute.SafeRouteScreen.constructor` | src/components/SafeRouteScreen.tsx:16-19 | no dialog, not off route, last activity now, progress 0 |
| `SafeRoute.SafeRouteScreen.ProgressTimerFires` | src/components/SafeRouteScreen.tsx:36-42 | progress becomes `min(prev + 1, 100)` |
| `SafeRoute.SafeRouteScreen.IdleTimerFires` | src/components/SafeRouteScreen.tsx:45-53 | the dialog opens when `now - lastActivity > 120000` |
| `SafeRoute.SafeRouteScreen.HandleActivity` | src/components/SafeRouteScreen.tsx:67-70 | last activity becomes now and the dialog closes |
| `SafeRoute.SafeRouteScreen.HandleIdleResponse` | src/components/SafeRouteScreen.tsx:72-78 | closes the dialog, resets last activity, and asks for an emergency iff not safe |
| `SafeRoute.SafeRouteScreen.VoiceHelpCommand` | src/components/SafeRouteScreen.tsx:85 | the "help me" voice command opens the dialog |
| `SafeRoute.SafeRouteScreen.GetBackOnRouteButton` | src/components/SafeRouteScreen.tsx:128 | "Get Back On Route" clears the off-route warning |
| `SafeRoute.SafeRouteScreen.DeviationTimerFires` | src/components/SafeRouteScreen.tsx:56-62 | a deviation sets the warning and schedules its clear; otherwise nothing changes |
| `SafeRoute.SafeRouteScreen.OffRouteClearTimerFires` | src/components/SafeRouteScreen.tsx:60 | a scheduled clear removes the warning |
| `SafeRoute.ProgressAfterTicks` | src/components/SafeRouteScreen.tsx:36-39 | after `n` ticks progress is `min(p + n, 100)`: monotone and never above 100 |
| `SafeRoute.ProgressFullAfterHundredTicks` | src/components/SafeRouteScreen.tsx:19-39 | from mounting, the bar reaches 100 exactly from the hundredth tick on |
| `SafeRoute.IdleCheckOpensIff` | src/components/SafeRouteScreen.tsx:46-49 | the idle check opens the dialog iff strictly more than 120000 ms have passed; otherwise it changes nothing |
| `SafeRoute.QuietAfterActivity` | src/components/SafeRouteScreen.tsx:46-70 | within two minutes of activity, the idle check does not open the dialog |
| `SafeRoute.IdleResponseCases` | src/components/SafeRouteScreen.tsx:72-78 | an answer always closes the dialog and resets the clock, and calls `onEmergency` iff not safe |
| `SafeRoute.DialogAndWarningControls` | src/components/SafeRouteScreen.tsx:85-128 | the voice command opens the dialog, the button clears the warning, and neither touches progress |
| `SubscriptionStatus.PlanLabel` | src/components/SubscriptionStatusScreen.tsx:209 | Premium iff premium, Free Trial iff trial without premium, Free otherwise |
| `SubscriptionStatus.StatusBadge` | src/components/SubscriptionStatusScreen.tsx:214-221 | Active iff premium, Trial iff trial without premium, Free otherwise |
| `SubscriptionStatus.UpgradeButtonLabel` | src/components/SubscriptionStatusScreen.tsx:195 | "Upgrade Now" iff the trial has expired, "Start Premium" otherwise |
| `SubscriptionStatus.TrialCardShown` | src/components/SubscriptionStatusScreen.tsx:69 | the trial card shows exactly when the plan reads "Free Trial" |
| `SubscriptionStatus.ExpiredCardShown` | src/components/SubscriptionStatusScreen.tsx:98 | the expired card shows exactly when the button reads "Upgrade Now" and the plan is not Premium |
| `SubscriptionStatus.PricingShown` | src/components/SubscriptionStatusScreen.tsx:151 | the pricing section shows exactly when the badge is not "Active" |
| `SubscriptionStatus.FeatureLocked` | src/components/SubscriptionStatusScreen.tsx:142 | feature rows read "Locked" exactly when the plan is "Free", i.e. with neither premium nor a trial |
| `SubscriptionStatus.DaysUsed` | src/components/SubscriptionStatusScreen.tsx:90 | a full seven-day trial shows 0 days used, and the figure stays within 0..7 |
| `SubscriptionStatus.PriceLabel` | src/components/SubscriptionStatusScreen.tsx:171-176 | the yearly price for the yearly setting and the monthly price otherwise |
| `SubscriptionStatus.SubscriptionStatusScreen.constructor` | src/components/SubscriptionStatusScreen.tsx:17 | billing starts monthly |
| `SubscriptionStatus.SubscriptionStatusScreen.ToggleBilling` | src/components/SubscriptionStatusScreen.tsx:157-159 | the switch sets the billing period |
| `SubscriptionStatus.SubscriptionStatusScreen.HandleUpgrade` | src/components/SubscriptionStatusScreen.tsx:22-25 | upgrades the session and then calls only `onBack`; the screen then shows premium, with no trial card and no pricing |
| `SubscriptionStatus.LabelsAgree` | src/components/SubscriptionStatusScreen.tsx:209-221 | the plan label and the status badge always agree |
| `SubscriptionStatus.PremiumTakesPriority` | src/components/SubscriptionStatusScreen.tsx:69-221 | with both flags set, the labels say premium and the trial card is hidden |
| `SubscriptionStatus.LockedMatchesGate` | src/components/SubscriptionStatusScreen.tsx:142 | a feature row is "Locked" iff the gate denies the gated features, iff the plan is Free |
| `SubscriptionStatus.ExpiredStateUnreachable` | src/components/SubscriptionStatusScreen.tsx:90-195 | on every reachable session, the expired card never shows, the button reads "Start Premium", and 0 days are used |
| `SubscriptionStatus.UpgradeShowsPremium` | src/components/SubscriptionStatusScreen.tsx:22-151 | after an upgrade the plan is Premium, with no trial card, no expired card, no pricing and nothing locked |

## Left out

- Rendering: JSX, styling, icons and the `./ui/*` components are not part of this model, and neither are the static screens (welcome, contacts, deterrent, confirmation, dashboard, premium badge, premium upgrade) beyond which of the callbacks `App` gives them they can call.
- Timing: real timers and the order in which they fire relative to one another are not modelled. Each timer firing is a separate method, so the model allows orderings that wall-clock time rules out, such as a fake call's two-second hang-up firing after a new ten-second countdown has already run out. The same goes for how often a timer fires: the safe-route deviation check is a single timeout per mount, yet `SafeRoute.SafeRouteScreen.DeviationTimerFires` may be called any number of times, so more than one ten-second clear can be pending.
- `Date.now()` and `Math.random()` are parameters. The deviation check's draw (`Math.random() > 0.7`) is the `deviates` flag.
- Voice recognition (`src/components/utils/voiceCommands.tsx`) is not part of this model. Its random detection decides when a screen's callback fires. While the screen that detected the command is still shown, the model treats that callback as an event of its own.
- Navigation.Next: a late voice callback from a screen that is no longer shown is not modelled. A detected command runs its action in a 1.5-second timeout that is never cleared (voiceCommands.tsx lines 38-47; the cleanup at lines 55-63 clears only the polling interval). The action can therefore run after its screen is gone. For example, "emergency" is detected on alert, the user taps Cancel, and `handleAlertConfirm` still moves the app to contacts. `Navigation.Next` accepts only handlers the shown screen can call, so it rules this run out.
- Haptic feedback (`src/components/utils/hapticFeedback.ts`) is a side-effect wrapper around the handlers and is not part of this model.
- Event bubbling on the safe-route screen: every click also reaches the root `handleActivity`. The model treats each handler as a separate event.
- The idle interval restarting when `lastActivity` changes only shifts when checks happen, so it is not modelled.
- Setup.ProgressValue: computed in exact real arithmetic. JavaScript's floating-point rounding for the intermediate steps is not modelled, and the end points 0 and 100 are exact either way.
- The trial-progress percentage on the subscription screen is display arithmetic and is not modelled. The "days used" figure is modelled (`SubscriptionStatus.DaysUsed`).
- The paywall's `handleUpgrade` and the fake-call screen's `onUpgrade` wiring (hide the dialog, then go to premium-upgrade) are not modelled, because no control of the dialog calls `handleUpgrade`. `Paywall.Perform` ensures that every action calls only `onClose`.
- Navigation.Wired: on fake-call it does not depend on the screen's own state. While the incoming-call view is shown (FakeCallScreen.tsx lines 100-160), that view has no Back, emergency or voice control, yet the model still lets `handleFakeCallBack` and `handlePanicPress` fire. The model therefore admits navigation that the incoming-call view rules out.
- Navigation.Step: the paywall trial is taken as soon as the fake-call screen is shown without a plan. The model does not require a prior press of "Start Fake Call" that opened the dialog (`FakeCall.FakeCallScreen.StartFakeCall` models that step on its own).
- `usePremium` throwing outside a provider is React context plumbing and is not modelled.
- React's scheduling of state updates, including batching and effects re-running on dependency changes, is folded into each handler's net effect. Example: the fake-call countdown effect showing the incoming view when the countdown reaches 0 is part of `FakeCall.Tick`.
