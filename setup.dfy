/** The device-setup wizard: four steps (device, contacts, location, test),
    a simulated three-second Bluetooth connection on the first, a Continue
    button on the two middle ones, and `onComplete` on the last. */
module Setup {

  /** The `component` of each step, in order. */
  const StepComponents: seq<string> := ["device", "contacts", "location", "test"]

  const LastStep: int := |StepComponents| - 1

  /** The buttons the steps render. */
  datatype Button = ConnectDevice | ContinueContacts | ContinueLocation | EnterDashboard

  datatype SetupState = SetupState(currentStep: int, isConnecting: bool)

  function Initial(): SetupState {
    SetupState(0, false)
  }

  /** The buttons `renderStepContent` shows for a state: Connect on the device
      step only while not connecting, one button on each later step. */
  function Buttons(st: SetupState): set<Button> {
    if st.currentStep == 0 then (if st.isConnecting then {} else {ConnectDevice})
    else if st.currentStep == 1 then {ContinueContacts}
    else if st.currentStep == 2 then {ContinueLocation}
    else if st.currentStep == 3 then {EnterDashboard}
    else {}
  }

  /** The state after an event, and whether it called `onComplete`. */
  datatype Outcome = Outcome(state: SetupState, completed: bool)

  /** A button press; a button the step does not show cannot be pressed. */
  function Press(st: SetupState, b: Button): Outcome {
    if b !in Buttons(st) then Outcome(st, false)
    else match b
      case ConnectDevice => Outcome(st.(isConnecting := true), false)
      case ContinueContacts => Outcome(st.(currentStep := 2), false)
      case ContinueLocation => Outcome(st.(currentStep := 3), false)
      case EnterDashboard => Outcome(st, true)
  }

  /** The timeout `handleDeviceConnect` schedules fires. Connect is hidden
      while connecting, so a timeout is pending exactly while `isConnecting`. */
  function ConnectTimerFires(st: SetupState): SetupState {
    if st.isConnecting then SetupState(1, false) else st
  }

  datatype Event = Pressed(b: Button) | ConnectTimer

  function Step(st: SetupState, e: Event): Outcome {
    match e
    case Pressed(b) => Press(st, b)
    case ConnectTimer => Outcome(ConnectTimerFires(st), false)
  }

  function Run(st: SetupState, es: seq<Event>): SetupState
    decreases |es|
  {
    if es == [] then st else Run(Step(st, es[0]).state, es[1..])
  }

  /** What every reachable state satisfies. */
  predicate Reachable(st: SetupState) {
    0 <= st.currentStep <= LastStep && (st.isConnecting ==> st.currentStep == 0)
  }

  /** The header's "Step n of 4" caption. */
  function StepLabel(step: int): (r: string)
    requires 0 <= step <= LastStep
    ensures |r| == 11 && r[..5] == "Step " && r[6..] == " of 4"
    ensures r[5] as int - '0' as int == step + 1
  {
    "Step " + [('1' as int + step) as char] + " of 4"
  }

  /** The progress bar's value, `currentStep / (steps.length - 1) * 100`, in
      exact arithmetic. */
  function ProgressValue(step: int): (r: real)
    ensures step == 0 ==> r == 0.0
    ensures step == LastStep ==> r == 100.0
  {
    (step as real / (|StepComponents| - 1) as real) * 100.0
  }

  /** The wizard component with its two state fields. */
  class SetupScreen {
    var currentStep: int
    var isConnecting: bool

    function State(): SetupState
      reads this
    {
      SetupState(currentStep, isConnecting)
    }

    constructor ()
      ensures State() == Initial()
      ensures Reachable(State())
    {
      currentStep := 0;
      isConnecting := false;
    }

    method PressButton(b: Button) returns (completed: bool)
      requires Reachable(State())
      modifies this
      ensures Reachable(State())
      ensures Outcome(State(), completed) == Press(old(State()), b)
      ensures currentStep >= old(currentStep)
      ensures completed ==> old(currentStep) == LastStep
    {
      completed := false;
      if b in Buttons(State()) {
        match b
        case ConnectDevice => isConnecting := true;
        case ContinueContacts => currentStep := 2;
        case ContinueLocation => currentStep := 3;
        case EnterDashboard => completed := true;
      }
    }

    method ConnectTimerFired()
      requires Reachable(State())
      modifies this
      ensures Reachable(State())
      ensures State() == ConnectTimerFires(old(State()))
      ensures old(isConnecting) ==> currentStep == 1 && !isConnecting
      ensures currentStep >= old(currentStep)
    {
      if isConnecting {
        isConnecting := false;
        currentStep := 1;
      }
    }
  }

  // ---------------------------------------------------------------------
  // Properties of the wizard

  /** The step only ever increases and stays within the four steps. */
  lemma {:induction false} StepNeverDecreases(st: SetupState, es: seq<Event>)
    requires Reachable(st)
    ensures Reachable(Run(st, es))
    ensures Run(st, es).currentStep >= st.currentStep
    decreases |es|
  {
    if es != [] {
      StepNeverDecreases(Step(st, es[0]).state, es[1..]);
    }
  }

  /** `onComplete` is called only from the last step, "test". */
  lemma CompleteOnlyFromTest(st: SetupState, e: Event)
    ensures Step(st, e).completed ==> st.currentStep == LastStep && StepComponents[st.currentStep] == "test"
  {
  }

  /** Connect, its timeout, and the two Continue buttons lead to the test step. */
  lemma HappyPath()
    ensures Run(Initial(), [Pressed(ConnectDevice), ConnectTimer, Pressed(ContinueContacts), Pressed(ContinueLocation)])
            == SetupState(LastStep, false)
    ensures Step(SetupState(LastStep, false), Pressed(EnterDashboard)).completed
  {
    var es := [Pressed(ConnectDevice), ConnectTimer, Pressed(ContinueContacts), Pressed(ContinueLocation)];
    assert es[1..] == [ConnectTimer, Pressed(ContinueContacts), Pressed(ContinueLocation)];
    assert es[1..][1..] == [Pressed(ContinueContacts), Pressed(ContinueLocation)];
    assert es[1..][1..][1..] == [Pressed(ContinueLocation)];
    assert es[1..][1..][1..][1..] == [];
  }

  /** The progress bar rises strictly from step to step. */
  lemma ProgressRises(a: int, b: int)
    requires a < b
    ensures ProgressValue(a) < ProgressValue(b)
  {
  }
}
