/** The fake-call screen: pick a caller and a delay, and, if the session
    grants the "fake-call-generator" feature, a countdown ends in a simulated
    incoming call that can be answered or declined. */
module FakeCall {
  import Entitlement
  import Paywall
  import opened Wrappers

  /** One entry of the caller picker (`caption` is the option's `label`). */
  datatype CallerOption = CallerOption(value: string, caption: string, emoji: string)

  const DefaultEmoji: string := "\U{1F464}"

  const CallerOptions: seq<CallerOption> := [
    CallerOption("Mom", "Mom", "\U{1F469}\U{200D}\U{1F4BC}"),
    CallerOption("Dad", "Dad", "\U{1F468}\U{200D}\U{1F4BC}"),
    CallerOption("Boss", "Boss", "\U{1F4BC}"),
    CallerOption("Sister", "Sister", "\U{1F46D}"),
    CallerOption("Police", "Police", "\U{1F46E}\U{200D}\U{2640}\U{FE0F}"),
    CallerOption("Doctor", "Doctor", "\U{1F469}\U{200D}\U{2695}\U{FE0F}"),
    CallerOption("custom", "Custom", "\U{1F464}")
  ]

  /** The delays, in seconds, the timer buttons offer. */
  const TimerValues: seq<int> := [10, 30, 60, 300]

  const Feature: string := "fake-call-generator"

  /** `Array.prototype.find` on the caller options: the first option whose
      value matches. */
  function FindCaller(options: seq<CallerOption>, value: string): (r: Option<CallerOption>)
    ensures r.None? <==> forall i :: 0 <= i < |options| ==> options[i].value != value
    ensures r.Some? ==> exists i :: 0 <= i < |options| && options[i] == r.value && options[i].value == value
                          && forall j :: 0 <= j < i ==> options[j].value != value
  {
    if options == [] then None
    else if options[0].value == value then Some(options[0])
    else
      var r := FindCaller(options[1..], value);
      assert r.Some? ==> exists i :: 0 < i < |options| && options[i] == r.value && options[i].value == value
                          && forall j :: 0 <= j < i ==> options[j].value != value by {
        if r.Some? {
          var k :| 0 <= k < |options[1..]| && options[1..][k] == r.value && options[1..][k].value == value
                    && forall j :: 0 <= j < k ==> options[1..][j].value != value;
          assert options[k + 1] == r.value;
          assert forall j :: 1 <= j < k + 1 ==> options[j].value != value by {
            forall j | 1 <= j < k + 1 ensures options[j].value != value {
              assert options[j] == options[1..][j - 1];
            }
          }
        }
      }
      r
  }

  /** `getCurrentCaller`: the name the incoming-call view shows. */
  function CurrentCaller(selected: string, customName: string): (r: string)
    ensures selected != "custom" ==> r == selected
    ensures selected == "custom" ==> r != ""
    ensures selected == "custom" && customName != "" ==> r == customName
    ensures selected == "custom" && customName == "" ==> r == "Unknown"
  {
    if selected == "custom" then
      if customName != "" then customName else "Unknown"
    else selected
  }

  /** `getCurrentEmoji`: the emoji of the selected option, or the default one
      when no option matches. */
  function CurrentEmoji(selected: string): (r: string)
    ensures r != ""
    ensures (forall i :: 0 <= i < |CallerOptions| ==> CallerOptions[i].value != selected) ==> r == DefaultEmoji
    ensures forall i :: 0 <= i < |CallerOptions| && CallerOptions[i].value == selected ==> r == CallerOptions[i].emoji
  {
    var found := FindCaller(CallerOptions, selected);
    OptionValuesDistinct();
    if found.Some? && found.value.emoji != "" then found.value.emoji else DefaultEmoji
  }

  /** No two caller options share a value, so the first match is the only one. */
  lemma OptionValuesDistinct()
    ensures forall i, j :: 0 <= i < j < |CallerOptions| ==> CallerOptions[i].value != CallerOptions[j].value
    ensures forall i :: 0 <= i < |CallerOptions| ==> CallerOptions[i].emoji != ""
  {
    var values := seq(|CallerOptions|, i requires 0 <= i < |CallerOptions| => CallerOptions[i].value);
    assert values == ["Mom", "Dad", "Boss", "Sister", "Police", "Doctor", "custom"];
  }

  /** A snapshot of the screen's call-related state; `pendingHangUps` counts
      the two-second timeouts `answerCall` has scheduled and that have not
      fired yet. */
  datatype CallState = CallState(
    isCallActive: bool,
    countdown: int,
    showIncomingCall: bool,
    showPaywall: bool,
    pendingHangUps: nat)

  function Initial(): CallState {
    CallState(false, 0, false, false, 0)
  }

  /** `startFakeCall`: without access only the paywall opens. */
  function Start(st: CallState, hasAccess: bool, timer: int): CallState {
    if !hasAccess then st.(showPaywall := true)
    else st.(isCallActive := true, countdown := timer)
  }

  /** `cancelFakeCall`. */
  function Cancel(st: CallState): CallState {
    st.(isCallActive := false, showIncomingCall := false, countdown := 0)
  }

  /** `answerCall`: hides the incoming view now and schedules the hang-up. */
  function Answer(st: CallState): CallState {
    st.(showIncomingCall := false, pendingHangUps := st.pendingHangUps + 1)
  }

  /** The hang-up timeout `answerCall` scheduled fires; it is never cleared. */
  function HangUp(st: CallState): CallState {
    if st.pendingHangUps == 0 then st
    else st.(isCallActive := false, pendingHangUps := st.pendingHangUps - 1)
  }

  /** `declineCall`. */
  function Decline(st: CallState): CallState {
    st.(showIncomingCall := false, isCallActive := false)
  }

  /** The countdown effect: while a call is active and the countdown is above
      0, a one-second timeout decrements it; when it reaches 0 the effect
      runs again and shows the incoming-call view. */
  function Tick(st: CallState): CallState {
    if st.isCallActive && st.countdown > 0 then
      var c := st.countdown - 1;
      st.(countdown := c, showIncomingCall := if c == 0 then true else st.showIncomingCall)
    else st
  }

  function Ticks(st: CallState, n: nat): CallState
    decreases n
  {
    if n == 0 then st else Ticks(Tick(st), n - 1)
  }

  /** The paywall dialog's `onClose`. */
  function ClosePaywall(st: CallState): CallState {
    st.(showPaywall := false)
  }

  /** The screen with its picker fields, its call state and the shared session. */
  class FakeCallScreen {
    var selectedCaller: string
    var customName: string
    var selectedTimer: int
    var isCallActive: bool
    var countdown: int
    var showIncomingCall: bool
    var showPaywall: bool
    var pendingHangUps: nat
    const premium: Entitlement.PremiumProvider

    function State(): CallState
      reads this
    {
      CallState(isCallActive, countdown, showIncomingCall, showPaywall, pendingHangUps)
    }

    ghost predicate Valid()
      reads this
    {
      selectedTimer in TimerValues && countdown >= 0
    }

    constructor (premium: Entitlement.PremiumProvider)
      ensures Valid()
      ensures selectedCaller == "Mom" && customName == "" && selectedTimer == 10
      ensures State() == Initial()
      ensures this.premium == premium
    {
      selectedCaller := "Mom";
      customName := "";
      selectedTimer := 10;
      isCallActive := false;
      countdown := 0;
      showIncomingCall := false;
      showPaywall := false;
      pendingHangUps := 0;
      this.premium := premium;
    }

    /** The picker reports a new option value. */
    method SelectCaller(value: string)
      modifies this
      ensures selectedCaller == value
      ensures customName == old(customName) && selectedTimer == old(selectedTimer) && State() == old(State())
    {
      selectedCaller := value;
    }

    /** The custom-name field changes. */
    method SetCustomName(name: string)
      modifies this
      ensures customName == name
      ensures selectedCaller == old(selectedCaller) && selectedTimer == old(selectedTimer) && State() == old(State())
    {
      customName := name;
    }

    /** One of the four timer buttons is pressed. */
    method SelectTimer(t: int)
      requires t in TimerValues
      modifies this
      ensures selectedTimer == t
      ensures selectedCaller == old(selectedCaller) && customName == old(customName) && State() == old(State())
    {
      selectedTimer := t;
    }

    method StartFakeCall()
      requires Valid()
      modifies this
      ensures Valid()
      ensures State() == Start(old(State()), premium.CheckFeatureAccess(Feature), selectedTimer)
      ensures !premium.CheckFeatureAccess(Feature) ==>
        showPaywall && isCallActive == old(isCallActive) && countdown == old(countdown)
      ensures premium.CheckFeatureAccess(Feature) ==> isCallActive && countdown in TimerValues
      ensures selectedCaller == old(selectedCaller) && customName == old(customName) && selectedTimer == old(selectedTimer)
    {
      if !premium.CheckFeatureAccess(Feature) {
        showPaywall := true;
        return;
      }
      isCallActive := true;
      countdown := selectedTimer;
    }

    method CancelFakeCall()
      requires Valid()
      modifies this
      ensures Valid()
      ensures State() == Cancel(old(State()))
      ensures !isCallActive && !showIncomingCall && countdown == 0
      ensures selectedCaller == old(selectedCaller) && customName == old(customName) && selectedTimer == old(selectedTimer)
    {
      isCallActive := false;
      showIncomingCall := false;
      countdown := 0;
    }

    method AnswerCall()
      requires Valid()
      modifies this
      ensures Valid()
      ensures State() == Answer(old(State()))
      ensures !showIncomingCall && isCallActive == old(isCallActive)
      ensures selectedCaller == old(selectedCaller) && customName == old(customName) && selectedTimer == old(selectedTimer)
    {
      showIncomingCall := false;
      pendingHangUps := pendingHangUps + 1;
    }

    /** The two-second timeout scheduled by `AnswerCall` fires. */
    method HangUpTimerFires()
      requires Valid()
      modifies this
      ensures Valid()
      ensures State() == HangUp(old(State()))
      ensures selectedCaller == old(selectedCaller) && customName == old(customName) && selectedTimer == old(selectedTimer)
    {
      if pendingHangUps > 0 {
        isCallActive := false;
        pendingHangUps := pendingHangUps - 1;
      }
    }

    method DeclineCall()
      requires Valid()
      modifies this
      ensures Valid()
      ensures State() == Decline(old(State()))
      ensures !showIncomingCall && !isCallActive
      ensures selectedCaller == old(selectedCaller) && customName == old(customName) && selectedTimer == old(selectedTimer)
    {
      showIncomingCall := false;
      isCallActive := false;
    }

    /** One second passes on the countdown timeout, if one is scheduled. */
    method CountdownTick()
      requires Valid()
      modifies this
      ensures Valid()
      ensures State() == Tick(old(State()))
      ensures selectedCaller == old(selectedCaller) && customName == old(customName) && selectedTimer == old(selectedTimer)
    {
      if isCallActive && countdown > 0 {
        countdown := countdown - 1;
        if countdown == 0 {
          showIncomingCall := true;
        }
      }
    }

    /** An action in the paywall dialog; each one ends in its `onClose`,
        which hides the dialog. */
    method PaywallAction(a: Paywall.Action)
      requires Valid()
      modifies this, premium
      ensures Valid()
      ensures State() == ClosePaywall(old(State()))
      ensures premium.State() == Paywall.SessionAfter(a, old(premium.State()))
      ensures selectedCaller == old(selectedCaller) && customName == old(customName) && selectedTimer == old(selectedTimer)
    {
      var calls := Paywall.Perform(premium, a);
      if Paywall.OnClose in calls {
        showPaywall := false;
      }
    }
  }

  // ---------------------------------------------------------------------
  // Properties of the call machine

  /** The screen's feature is gated, so the paywall opens exactly when the
      session has neither premium nor an active trial. */
  lemma PaywallOpensWithoutPlan(s: Entitlement.Session)
    ensures !Entitlement.Access(Feature, s) <==> !Entitlement.HasPlan(s)
  {
  }

  /** Starting without access only opens the paywall; with access it arms a
      countdown of one of the four offered delays. */
  lemma StartGate(st: CallState, timer: int)
    requires timer in TimerValues
    ensures Start(st, false, timer) == st.(showPaywall := true)
    ensures Start(st, true, timer).isCallActive
    ensures Start(st, true, timer).countdown in {10, 30, 60, 300}
  {
  }

  /** After a countdown of `c` seconds from an active call with the incoming
      view hidden, the incoming view appears exactly on the c-th tick; before
      that the countdown drops by one per tick. */
  lemma {:induction false} IncomingAfterCountdown(st: CallState, n: nat)
    requires st.isCallActive && st.countdown >= 1 && !st.showIncomingCall
    ensures Ticks(st, n).showIncomingCall <==> n >= st.countdown
    ensures Ticks(st, n).countdown == if n >= st.countdown then 0 else st.countdown - n
    ensures Ticks(st, n).isCallActive
    decreases n
  {
    if n > 0 {
      if st.countdown == 1 {
        TicksIdleAtZero(Tick(st), n - 1);
      } else {
        IncomingAfterCountdown(Tick(st), n - 1);
      }
    }
  }

  /** With the countdown at 0 no timeout is scheduled, so ticks change nothing. */
  lemma {:induction false} TicksIdleAtZero(st: CallState, n: nat)
    requires st.countdown == 0
    ensures Ticks(st, n) == st
    decreases n
  {
    if n > 0 {
      TicksIdleAtZero(Tick(st), n - 1);
    }
  }

  /** The whole call with access: start with the selected delay, wait it
      out, answer; the incoming view is then hidden and the call stays active
      until the hang-up fires. */
  lemma AnsweredCallEnds(timer: int)
    requires timer in TimerValues
    ensures Ticks(Start(Initial(), true, timer), timer).showIncomingCall
    ensures !Answer(Ticks(Start(Initial(), true, timer), timer)).showIncomingCall
    ensures Answer(Ticks(Start(Initial(), true, timer), timer)).isCallActive
    ensures !HangUp(Answer(Ticks(Start(Initial(), true, timer), timer))).isCallActive
  {
    IncomingAfterCountdown(Start(Initial(), true, timer), timer);
  }

  /** Cancel and decline both end the call and hide the incoming view; only
      cancel also resets the countdown. */
  lemma EndingACall(st: CallState)
    ensures !Cancel(st).isCallActive && !Cancel(st).showIncomingCall && Cancel(st).countdown == 0
    ensures !Decline(st).isCallActive && !Decline(st).showIncomingCall && Decline(st).countdown == st.countdown
  {
  }

  /** The "custom" option shows the default emoji, just as an unknown value does. */
  lemma CustomUsesDefaultEmoji()
    ensures CurrentEmoji("custom") == DefaultEmoji
    ensures CurrentEmoji("Mom") == "\U{1F469}\U{200D}\U{1F4BC}"
  {
    assert CallerOptions[6].value == "custom";
    assert CallerOptions[0].value == "Mom";
  }
}
