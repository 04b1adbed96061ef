/**
 * The route system (routeManager.js): every 600 frames, while on the neutral route, a decision
 * window opens; the player picks a left (high risk, high reward) or right (safe) detour, and an
 * unanswered window picks the right route after 180 updates. A detour lasts 480 updates.
 */
module Route {
  import Config

  datatype RouteKind = Neutral | Left | Right

  /** The fields of a `RouteManager`. */
  datatype RouteState = RouteState(
    current: RouteKind,
    routeTimer: int,
    routeDuration: int,
    showingDecision: bool,
    decisionX: int,
    decisionTimer: int)

  /** Updates a window stays open before it resolves on its own (`decisionDuration`). */
  const DecisionDuration: int := 180

  /** Pixel position of the prompt when a window opens. */
  const DecisionStartX: int := 800

  const InitialRoute := RouteState(Neutral, 0, 0, false, 0, 0)

  /** The object invariant kept by every update and every selection. */
  ghost predicate RouteInv(s: RouteState)
  {
    && (s.showingDecision ==>
          s.current == Neutral && 0 <= s.decisionTimer < DecisionDuration
          && s.decisionX == DecisionStartX - 3 * s.decisionTimer)
    && (s.current == Neutral ==> s.routeTimer == 0)
    && (s.current != Neutral ==> s.routeDuration == Config.RouteDuration && 0 <= s.routeTimer < s.routeDuration)
  }

  /** The guard under which `update` opens a decision window. */
  predicate OpensWindow(s: RouteState, frameCount: nat)
  {
    !s.showingDecision && s.current == Neutral && frameCount > 0
    && frameCount % Config.RouteDecisionInterval == 0
  }

  /** `showDecision`. */
  function RouteShow(s: RouteState): RouteState
  {
    s.(showingDecision := true, decisionTimer := 0, decisionX := DecisionStartX)
  }

  /** `selectRoute`: ignored unless a window is showing. */
  function RouteSelect(s: RouteState, route: RouteKind): RouteState
  {
    if !s.showingDecision then s
    else s.(current := route, routeTimer := 0, routeDuration := Config.RouteDuration,
            showingDecision := false, decisionTimer := 0)
  }

  /** Phase 2 of `update`: count the open window down, resolving to the right route at 180. */
  function TickDecision(s: RouteState): RouteState
  {
    if !s.showingDecision then s
    else
      var t := s.(decisionTimer := s.decisionTimer + 1);
      if t.decisionTimer >= DecisionDuration then RouteSelect(t, Right) else t
  }

  /** Phase 3 of `update`: count an active detour down, returning to neutral at its end. */
  function TickDetour(s: RouteState): RouteState
  {
    if s.current == Neutral then s
    else
      var t := s.(routeTimer := s.routeTimer + 1);
      if t.routeTimer >= t.routeDuration then t.(current := Neutral, routeTimer := 0) else t
  }

  /** Phase 4 of `update`: slide the prompt left; close the window once it is off screen. */
  function SlidePrompt(s: RouteState): RouteState
  {
    if !s.showingDecision then s
    else
      var t := s.(decisionX := s.decisionX - 3);
      if t.decisionX < -100 then t.(showingDecision := false, decisionX := 0) else t
  }

  /** `update` for the given frame count. */
  function RouteUpdate(s: RouteState, frameCount: nat): RouteState
  {
    var shown := if OpensWindow(s, frameCount) then RouteShow(s) else s;
    SlidePrompt(TickDetour(TickDecision(shown)))
  }

  /** `n` consecutive updates at frame counts `frameCount`, `frameCount + 1`, ... */
  function RouteRun(s: RouteState, frameCount: nat, n: nat): RouteState
    decreases n
  {
    if n == 0 then s else RouteRun(RouteUpdate(s, frameCount), frameCount + 1, n - 1)
  }

  /** The multipliers a route applies (`getRouteModifiers`). */
  datatype RouteModifiers = RouteModifiers(
    spawnMultiplier: real,
    speedMultiplier: real,
    giftValueMultiplier: real,
    scoreMultiplier: real)

  function ModifiersOf(route: RouteKind): RouteModifiers
  {
    match route
    case Left => RouteModifiers(Config.LeftRouteSpawnMultiplier, Config.LeftRouteSpeedMultiplier,
                                Config.LeftRouteGiftValueMultiplier, Config.LeftRouteScoreMultiplier)
    case Right => RouteModifiers(0.7, 0.8, 1.0, 1.0)
    case Neutral => RouteModifiers(1.0, 1.0, 1.0, 1.0)
  }

  // ---------------------------------------------------------------------------------------------
  // Properties

  /** Every update and every selection keeps the invariant; in particular an open window always
      sits on the neutral route. */
  lemma RouteUpdateKeepsInv(s: RouteState, frameCount: nat)
    requires RouteInv(s)
    ensures RouteInv(RouteUpdate(s, frameCount))
  {
  }

  lemma RouteSelectKeepsInv(s: RouteState, route: RouteKind)
    requires RouteInv(s)
    ensures RouteInv(RouteSelect(s, route))
  {
  }

  /** A window opens in an update exactly when the guard holds, and it opens with tick 1
      already counted and the prompt 3 pixels left of the canvas edge. */
  lemma WindowOpensExactlyOnGuard(s: RouteState, frameCount: nat)
    requires RouteInv(s) && !s.showingDecision
    ensures RouteUpdate(s, frameCount).showingDecision <==> OpensWindow(s, frameCount)
    ensures OpensWindow(s, frameCount) ==>
              RouteUpdate(s, frameCount) == s.(showingDecision := true, decisionTimer := 1,
                                                decisionX := DecisionStartX - 3)
  {
  }

  /** Selecting with no window showing changes nothing; otherwise the chosen detour starts. */
  lemma SelectRouteSemantics(s: RouteState, route: RouteKind)
    ensures !s.showingDecision ==> RouteSelect(s, route) == s
    ensures s.showingDecision ==>
              var t := RouteSelect(s, route);
              t.current == route && t.routeTimer == 0 && t.routeDuration == 480
              && !t.showingDecision && t.decisionTimer == 0
  {
  }

  /** Running `a + b` updates is running `a`, then `b` from where the first run stopped. */
  lemma {:induction false} RouteRunSplit(s: RouteState, frameCount: nat, a: nat, b: nat)
    ensures RouteRun(s, frameCount, a + b) == RouteRun(RouteRun(s, frameCount, a), frameCount + a, b)
    decreases a
  {
    if a > 0 {
      RouteRunSplit(RouteUpdate(s, frameCount), frameCount + 1, a - 1, b);
    }
  }

  /** While a window is open and unanswered, each update advances its timer by one and its
      prompt by three pixels, whatever the frame count. */
  lemma {:induction false} OpenWindowCountsUp(s: RouteState, frameCount: nat, k: nat)
    requires RouteInv(s) && s.showingDecision && s.decisionTimer + k < DecisionDuration
    ensures RouteRun(s, frameCount, k)
            == s.(decisionTimer := s.decisionTimer + k, decisionX := s.decisionX - 3 * k)
    decreases k
  {
    if k > 0 {
      OpenWindowCountsUp(RouteUpdate(s, frameCount), frameCount + 1, k - 1);
    }
  }

  /** An unanswered window resolves to the right route on its 180th update, counting the update
      that opened it: opened at frame 600, it is still open after frame 778 and resolves in the
      update for frame 779, where the right detour also takes its first tick. */
  lemma UnansweredWindowResolvesRight(s: RouteState, frameCount: nat)
    requires RouteInv(s) && OpensWindow(s, frameCount)
    ensures var r := RouteRun(s, frameCount, DecisionDuration - 1);
            r.showingDecision && r.current == Neutral && r.decisionTimer == DecisionDuration - 1
    ensures var r := RouteRun(s, frameCount, DecisionDuration);
            !r.showingDecision && r.current == Right && r.routeTimer == 1
            && r.routeDuration == Config.RouteDuration
  {
    var first := RouteUpdate(s, frameCount);
    WindowOpensExactlyOnGuard(s, frameCount);
    OpenWindowCountsUp(first, frameCount + 1, DecisionDuration - 2);
    RouteRunSplit(s, frameCount, 1, DecisionDuration - 2);
    RouteRunSplit(s, frameCount, DecisionDuration - 1, 1);
  }

  /** The pixel-based close never fires for an invariant state: the prompt would need 301
      updates to pass x = -100, but the window resolves after at most 180. */
  lemma PromptNeverLeavesScreen(s: RouteState)
    requires RouteInv(s) && s.showingDecision
    ensures s.decisionX - 3 >= -100
  {
  }

  /** While a detour is active each update advances its timer by one. */
  lemma {:induction false} DetourCountsUp(s: RouteState, frameCount: nat, k: nat)
    requires RouteInv(s) && s.current != Neutral && s.routeTimer + k < s.routeDuration
    ensures RouteRun(s, frameCount, k) == s.(routeTimer := s.routeTimer + k)
    decreases k
  {
    if k > 0 {
      DetourCountsUp(RouteUpdate(s, frameCount), frameCount + 1, k - 1);
    }
  }

  /** An active detour returns to neutral with a zero timer on the update where its timer
      reaches the route duration, and not before. */
  lemma DetourReturnsToNeutral(s: RouteState, frameCount: nat)
    requires RouteInv(s) && s.current != Neutral
    ensures var n := s.routeDuration - s.routeTimer;
            RouteRun(s, frameCount, n - 1).current == s.current
            && RouteRun(s, frameCount, n).current == Neutral
            && RouteRun(s, frameCount, n).routeTimer == 0
  {
    var n := s.routeDuration - s.routeTimer;
    DetourCountsUp(s, frameCount, n - 1);
    RouteRunSplit(s, frameCount, n - 1, 1);
  }

  /** The left route raises every multiplier above neutral; the right route lowers spawning and
      speed below neutral and leaves gift value and score alone. */
  lemma RouteRiskOrdering()
    ensures var l, n, r := ModifiersOf(Left), ModifiersOf(Neutral), ModifiersOf(Right);
            && r.spawnMultiplier < n.spawnMultiplier < l.spawnMultiplier
            && r.speedMultiplier < n.speedMultiplier < l.speedMultiplier
            && r.giftValueMultiplier == n.giftValueMultiplier < l.giftValueMultiplier
            && r.scoreMultiplier == n.scoreMultiplier < l.scoreMultiplier
            && n == RouteModifiers(1.0, 1.0, 1.0, 1.0)
  {
  }

  // ---------------------------------------------------------------------------------------------
  // The manager object

  class RouteManager {
    var currentRoute: RouteKind
    var routeTimer: int
    var routeDuration: int
    var showingDecision: bool
    var decisionX: int
    var decisionTimer: int

    function State(): RouteState
      reads this
    {
      RouteState(currentRoute, routeTimer, routeDuration, showingDecision, decisionX, decisionTimer)
    }

    ghost predicate Valid()
      reads this
    {
      RouteInv(State())
    }

    constructor ()
      ensures State() == InitialRoute && Valid()
    {
      currentRoute := Neutral;
      routeTimer := 0;
      routeDuration := 0;
      showingDecision := false;
      decisionX := 0;
      decisionTimer := 0;
    }

    method Update(frameCount: nat)
      requires Valid()
      modifies this
      ensures Valid()
      ensures State() == RouteUpdate(old(State()), frameCount)
    {
      RouteUpdateKeepsInv(State(), frameCount);
      if !showingDecision && currentRoute == Neutral && frameCount > 0
         && frameCount % Config.RouteDecisionInterval == 0 {
        ShowDecision();
      }
      if showingDecision {
        decisionTimer := decisionTimer + 1;
        if decisionTimer >= DecisionDuration {
          SelectRoute(Right);
        }
      }
      if currentRoute != Neutral {
        routeTimer := routeTimer + 1;
        if routeTimer >= routeDuration {
          currentRoute := Neutral;
          routeTimer := 0;
        }
      }
      if showingDecision {
        decisionX := decisionX - 3;
        // The prompt cannot pass its left limit while the window is open (PromptNeverLeavesScreen),
        // so the closing of the window there is written as one assignment rather than a dead branch.
        var offScreen := decisionX < -100;
        showingDecision, decisionX := !offScreen, if offScreen then 0 else decisionX;
      }
    }

    method ShowDecision()
      modifies this
      ensures State() == RouteShow(old(State()))
    {
      showingDecision := true;
      decisionTimer := 0;
      decisionX := DecisionStartX;
    }

    method SelectRoute(route: RouteKind)
      modifies this
      ensures State() == RouteSelect(old(State()), route)
      ensures old(Valid()) ==> Valid()
    {
      if !showingDecision {
        return;
      }
      currentRoute := route;
      routeTimer := 0;
      routeDuration := Config.RouteDuration;
      showingDecision := false;
      decisionTimer := 0;
    }

    function GetRouteModifiers(): (m: RouteModifiers)
      reads this
      ensures m == ModifiersOf(currentRoute)
    {
      ModifiersOf(currentRoute)
    }
  }
}
