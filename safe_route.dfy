/** The safe-route screen: a route-progress bar advanced by an interval, an
    idle check that asks "Are you safe?" after two minutes without
    activity, and an off-route warning. Clock readings are the `now`
    parameters, in milliseconds. */
module SafeRoute {

  /** Inactivity, in milliseconds, after which the idle check asks. */
  const IdleLimit: int := 120000

  const MaxProgress: int := 100

  /** The screen's state fields; `pendingOffRouteClears` counts the ten-second
      timeouts that will clear the off-route warning. */
  datatype RouteState = RouteState(
    isIdleDialogOpen: bool,
    isOffRoute: bool,
    lastActivity: int,
    routeProgress: int,
    pendingOffRouteClears: nat)

  function Initial(now: int): RouteState {
    RouteState(false, false, now, 0, 0)
  }

  function Min(a: int, b: int): int {
    if a <= b then a else b
  }

  /** The two-second progress interval fires. */
  function ProgressTick(s: RouteState): RouteState {
    s.(routeProgress := Min(s.routeProgress + 1, MaxProgress))
  }

  function ProgressTicks(s: RouteState, n: nat): RouteState
    decreases n
  {
    if n == 0 then s else ProgressTicks(ProgressTick(s), n - 1)
  }

  /** The thirty-second idle interval fires at time `now`. */
  function IdleCheck(s: RouteState, now: int): RouteState {
    if now - s.lastActivity > IdleLimit then s.(isIdleDialogOpen := true) else s
  }

  /** `handleActivity`: a click anywhere on the screen. */
  function Activity(s: RouteState, now: int): RouteState {
    s.(lastActivity := now, isIdleDialogOpen := false)
  }

  /** The state after answering the idle dialog, and whether `onEmergency`
      was called. */
  datatype Response = Response(state: RouteState, emergency: bool)

  /** `handleIdleResponse`: "Yes, I'm Safe" or "No, Send Help". */
  function IdleResponse(s: RouteState, isSafe: bool, now: int): Response {
    Response(s.(isIdleDialogOpen := false, lastActivity := now), !isSafe)
  }

  /** The voice "help me" command opens the dialog. */
  function VoiceHelp(s: RouteState): RouteState {
    s.(isIdleDialogOpen := true)
  }

  /** "Get Back On Route". */
  function GetBackOnRoute(s: RouteState): RouteState {
    s.(isOffRoute := false)
  }

  /** The one-off fifteen-second deviation check; `deviates` is the outcome
      of its random draw. A deviation schedules its own ten-second clear. */
  function DeviationCheck(s: RouteState, deviates: bool): RouteState {
    if deviates then s.(isOffRoute := true, pendingOffRouteClears := s.pendingOffRouteClears + 1)
    else s
  }

  /** A scheduled ten-second clear fires. */
  function OffRouteClearFires(s: RouteState): RouteState {
    if s.pendingOffRouteClears == 0 then s
    else s.(isOffRoute := false, pendingOffRouteClears := s.pendingOffRouteClears - 1)
  }

  /** The screen component with its state fields. */
  class SafeRouteScreen {
    var isIdleDialogOpen: bool
    var isOffRoute: bool
    var lastActivity: int
    var routeProgress: int
    var pendingOffRouteClears: nat

    function State(): RouteState
      reads this
    {
      RouteState(isIdleDialogOpen, isOffRoute, lastActivity, routeProgress, pendingOffRouteClears)
    }

    ghost predicate Valid()
      reads this
    {
      0 <= routeProgress <= MaxProgress
    }

    constructor (now: int)
      ensures Valid()
      ensures State() == Initial(now)
    {
      isIdleDialogOpen := false;
      isOffRoute := false;
      lastActivity := now;
      routeProgress := 0;
      pendingOffRouteClears := 0;
    }

    method ProgressTimerFires()
      requires Valid()
      modifies this
      ensures Valid()
      ensures State() == ProgressTick(old(State()))
      ensures routeProgress >= old(routeProgress)
    {
      routeProgress := Min(routeProgress + 1, MaxProgress);
    }

    method IdleTimerFires(now: int)
      requires Valid()
      modifies this
      ensures Valid()
      ensures State() == IdleCheck(old(State()), now)
    {
      if now - lastActivity > IdleLimit {
        isIdleDialogOpen := true;
      }
    }

    method HandleActivity(now: int)
      requires Valid()
      modifies this
      ensures Valid()
      ensures State() == Activity(old(State()), now)
    {
      lastActivity := now;
      isIdleDialogOpen := false;
    }

    method HandleIdleResponse(isSafe: bool, now: int) returns (emergency: bool)
      requires Valid()
      modifies this
      ensures Valid()
      ensures Response(State(), emergency) == IdleResponse(old(State()), isSafe, now)
    {
      isIdleDialogOpen := false;
      lastActivity := now;
      emergency := !isSafe;
    }

    method VoiceHelpCommand()
      requires Valid()
      modifies this
      ensures Valid()
      ensures State() == VoiceHelp(old(State()))
    {
      isIdleDialogOpen := true;
    }

    method GetBackOnRouteButton()
      requires Valid()
      modifies this
      ensures Valid()
      ensures State() == GetBackOnRoute(old(State()))
    {
      isOffRoute := false;
    }

    method DeviationTimerFires(deviates: bool)
      requires Valid()
      modifies this
      ensures Valid()
      ensures State() == DeviationCheck(old(State()), deviates)
    {
      if deviates {
        isOffRoute := true;
        pendingOffRouteClears := pendingOffRouteClears + 1;
      }
    }

    method OffRouteClearTimerFires()
      requires Valid()
      modifies this
      ensures Valid()
      ensures State() == OffRouteClearFires(old(State()))
    {
      if pendingOffRouteClears > 0 {
        isOffRoute := false;
        pendingOffRouteClears := pendingOffRouteClears - 1;
      }
    }
  }

  // ---------------------------------------------------------------------
  // Properties of the screen

  /** After `n` progress ticks the bar stands at `min(p + n, 100)`: it never
      goes back and never passes 100. */
  lemma {:induction false} ProgressAfterTicks(s: RouteState, n: nat)
    requires 0 <= s.routeProgress <= MaxProgress
    ensures ProgressTicks(s, n).routeProgress == Min(s.routeProgress + n, MaxProgress)
    ensures s.routeProgress <= ProgressTicks(s, n).routeProgress <= MaxProgress
    decreases n
  {
    if n > 0 {
      ProgressAfterTicks(ProgressTick(s), n - 1);
    }
  }

  /** From mounting, the bar is full after 100 ticks and not before. */
  lemma ProgressFullAfterHundredTicks(now: int, n: nat)
    ensures ProgressTicks(Initial(now), n).routeProgress == MaxProgress <==> n >= 100
  {
    ProgressAfterTicks(Initial(now), n);
  }

  /** The idle check opens the dialog exactly when strictly more than two
      minutes have passed since the last activity; otherwise it changes nothing. */
  lemma IdleCheckOpensIff(s: RouteState, now: int)
    ensures IdleCheck(s, now).isIdleDialogOpen <==> s.isIdleDialogOpen || now - s.lastActivity > IdleLimit
    ensures now - s.lastActivity <= IdleLimit ==> IdleCheck(s, now) == s
  {
  }

  /** After activity at time `t`, no idle check up to two minutes later
      opens the dialog. */
  lemma QuietAfterActivity(s: RouteState, t: int, now: int)
    requires now - t <= IdleLimit
    ensures !IdleCheck(Activity(s, t), now).isIdleDialogOpen
  {
  }

  /** Answering the idle dialog always closes it and restarts the idle
      clock, and calls `onEmergency` exactly when the user is not safe. */
  lemma IdleResponseCases(s: RouteState, isSafe: bool, now: int)
    ensures !IdleResponse(s, isSafe, now).state.isIdleDialogOpen
    ensures IdleResponse(s, isSafe, now).state.lastActivity == now
    ensures IdleResponse(s, isSafe, now).emergency <==> !isSafe
    ensures IdleResponse(s, isSafe, now).state.routeProgress == s.routeProgress
  {
  }

  /** The voice command opens the dialog; "Get Back On Route" clears the
      warning; neither touches the progress. */
  lemma DialogAndWarningControls(s: RouteState)
    ensures VoiceHelp(s).isIdleDialogOpen && !GetBackOnRoute(s).isOffRoute
    ensures VoiceHelp(s).routeProgress == s.routeProgress == GetBackOnRoute(s).routeProgress
  {
  }
}
