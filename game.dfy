/**
 * The per-frame composition and collision resolution (game.js): one `update` advances the run
 * state and the three managers, combines their effect bundles into the multipliers the entities
 * move by, resolves the sleigh's collisions with obstacles and collectibles, and adds the time
 * score.
 */
module Game {
  import opened Support
  import opened Geometry
  import Config
  import Route
  import Moment
  import Ability
  import Session
  import Obstacles
  import Collectibles
  import Sleigh
  import Goals

  /** Everything one frame draws from `Math.random`, `Math.sin` and the clock. `goldRoll(i)` is
      the gold-present draw made when the collectible at index `i` of the pass is a gift. */
  datatype FrameInput = FrameInput(
    sin: real -> real,
    momentDice: Moment.MomentDice,
    obstacleDice: Obstacles.ObstacleDice,
    collectibleDice: Collectibles.CollectibleDice,
    goldRoll: nat -> real,
    timeScore: int)

  predicate FairInput(input: FrameInput)
  {
    Moment.FairDice(input.momentDice) && Obstacles.FairDice(input.obstacleDice)
    && Collectibles.FairDice(input.collectibleDice)
  }

  /** The state of every component a frame touches. */
  datatype World = World(
    session: Session.SessionState,
    sleigh: Sleigh.SleighState,
    obstacles: Obstacles.ObstacleState,
    collectibles: Collectibles.CollectibleState,
    route: Route.RouteState,
    moment: Moment.MomentState,
    ability: Ability.AbilityState,
    goals: Goals.GoalsState)

  function InitialWorld(savedHighScore: real): World
  {
    World(Session.SessionState(Session.Start, 0.0, savedHighScore, 0, Session.NoPowerUps),
          Sleigh.InitialSleigh, Obstacles.ObstacleState([], 0), Collectibles.CollectibleState([], 0),
          Route.InitialRoute, Moment.InitialMoment, Ability.InitialAbility,
          Goals.GoalsState(Goals.InitialGoals, Goals.InitialUnlocked, Goals.InitialEquipped))
  }

  /** The multipliers `update` derives from the three effect bundles. */
  datatype Multipliers = Multipliers(speed: real, obstacleSpawn: real, obstacleSpeed: real, giftSpawn: real)

  function Combined(r: Route.RouteModifiers, m: Moment.MomentEffects, a: Ability.AbilityEffects): Multipliers
  {
    Multipliers(m.speedMultiplier * a.timeSlowFactor,
                r.spawnMultiplier * m.obstacleSpawnMultiplier,
                r.speedMultiplier * m.speedMultiplier * a.timeSlowFactor,
                m.giftSpawnMultiplier)
  }

  function MultipliersOf(w: World): Multipliers
  {
    Combined(Route.ModifiersOf(w.route.current), Moment.EffectsOf(w.moment.active), Ability.EffectsOf(w.ability))
  }

  /** The first stage of a playing frame: frame counter, power-up timers and the three managers;
      a snowstorm that ends counts towards its goal. */
  function Advanced(w: World, d: Moment.MomentDice): World
    requires Moment.FairDice(d)
  {
    var s1 := Session.FrameIncremented(w.session);
    var s2 := s1.(powerUps := Session.Ticked(s1.powerUps));
    var goals := if Moment.EndsSnowstorm(w.moment) then Goals.GoalUpdated(w.goals, "surviveSnowstorm", 1.0)
                 else w.goals;
    w.(session := s2,
       route := Route.RouteUpdate(w.route, s2.frameCount),
       moment := Moment.MomentUpdate(w.moment, s2.frameCount, d),
       ability := Ability.AbilityUpdate(w.ability),
       goals := goals)
  }

  /** The second stage: wind, sleigh, obstacles and collectibles move by the combined multipliers. */
  function Moved(w: World, input: FrameInput): World
    requires FairInput(input)
  {
    var m := MultipliersOf(w);
    var isDashing := w.ability.isActive && w.ability.kind == Ability.Dash;
    var windForce := Obstacles.WindForceOf(w.obstacles.obstacles, Sleigh.BoundsOf(w.sleigh));
    var frame := w.session.frameCount;
    w.(sleigh := Sleigh.SleighUpdate(w.sleigh, m.speed, windForce, isDashing),
       obstacles := Obstacles.ObstacleUpdate(w.obstacles, frame, m.obstacleSpeed,
                      Obstacles.ObstacleModifiers(m.obstacleSpawn, m.obstacleSpeed), input.sin, input.obstacleDice),
       collectibles := Collectibles.CollectibleUpdate(w.collectibles, frame, m.speed, m.giftSpawn, input.sin,
                         input.collectibleDice))
  }

  datatype Outcome = Outcome(session: Session.SessionState, ability: Ability.AbilityState, fatal: bool)

  /** The obstacle loop of `checkCollisions`, from the given obstacle on. `abilityShield` is the
      ability's shield as read once before the loop; the power-up shield is read live. */
  function ObstaclePass(obs: seq<Obstacles.Obstacle>, player: Box, abilityShield: bool,
                        s: Session.SessionState, a: Ability.AbilityState): Outcome
  {
    if obs == [] then Outcome(s, a, false)
    else if obs[0].kind == Obstacles.WindGust || !Overlaps(player, Obstacles.BoxOf(obs[0])) then
      ObstaclePass(obs[1..], player, abilityShield, s, a)
    else if s.powerUps.active.shield || abilityShield then
      if abilityShield then ObstaclePass(obs[1..], player, abilityShield, s, Ability.Deactivated(a))
      else ObstaclePass(obs[1..], player, abilityShield, s.(powerUps := Session.ShieldCleared(s.powerUps)), a)
    else Outcome(Session.AfterGameOver(s), a, true)
  }

  /** The number of obstacles that can hit the sleigh: those overlapping it, gusts excepted. */
  function Hits(obs: seq<Obstacles.Obstacle>, player: Box): nat
  {
    if obs == [] then 0
    else (if obs[0].kind != Obstacles.WindGust && Overlaps(player, Obstacles.BoxOf(obs[0])) then 1 else 0)
         + Hits(obs[1..], player)
  }

  /** `handleCollectible`: the score and goal changes for one collected item. */
  function Handled(kind: Collectibles.CollectibleKind, s: Session.SessionState, g: Goals.GoalsState,
                   giftValueMultiplier: real, goldRoll: real, timeScore: int): (Session.SessionState, Goals.GoalsState)
  {
    match kind
    case Gift =>
      var g1 := Goals.GoalUpdated(g, "deliver10", 1.0);
      (Session.Scored(s, Config.ScorePerGift * giftValueMultiplier, timeScore),
       if goldRoll < 0.1 then Goals.GoalUpdated(g1, "collect3Gold", 1.0) else g1)
    case PowerUpItem(k) =>
      (Session.Scored(s.(powerUps := Session.Activated(s.powerUps, k)), Config.ScorePerPowerUp, timeScore), g)
  }

  datatype Pickup = Pickup(collectibles: seq<Collectibles.Collectible>, session: Session.SessionState,
                           goals: Goals.GoalsState)

  /** The collectible loop of `checkCollisions` from index `i` on: it walks the live list, so
      the item that moves into a removed item's place is passed over. */
  function CollectFrom(i: nat, cs: seq<Collectibles.Collectible>, player: Box, giftValueMultiplier: real,
                       goldRoll: nat -> real, timeScore: int, s: Session.SessionState, g: Goals.GoalsState): Pickup
    decreases |cs| - i
  {
    if i >= |cs| then Pickup(cs, s, g)
    else if Overlaps(player, Collectibles.BoxOf(cs[i])) then
      var (s1, g1) := Handled(cs[i].kind, s, g, giftValueMultiplier, goldRoll(i), timeScore);
      Collectibles.RemoveFirstSemantics(cs, cs[i]);
      CollectFrom(i + 1, Collectibles.RemoveFirst(cs, cs[i]), player, giftValueMultiplier, goldRoll, timeScore, s1, g1)
    else CollectFrom(i + 1, cs, player, giftValueMultiplier, goldRoll, timeScore, s, g)
  }

  /** The third stage, `checkCollisions`: a fatal hit ends the pass before any collectible. */
  function Collided(w: World, goldRoll: nat -> real, timeScore: int): World
  {
    var player := Sleigh.BoundsOf(w.sleigh);
    var o := ObstaclePass(w.obstacles.obstacles, player, Ability.EffectsOf(w.ability).hasShield, w.session, w.ability);
    if o.fatal then w.(session := o.session, ability := o.ability)
    else
      var p := CollectFrom(0, w.collectibles.collectibles, player,
                           Route.ModifiersOf(w.route.current).giftValueMultiplier, goldRoll, timeScore,
                           o.session, w.goals);
      w.(session := p.session, ability := o.ability, goals := p.goals,
         collectibles := w.collectibles.(collectibles := p.collectibles))
  }

  /** The last stage: the time score, then the score goal once the score reaches 5000. */
  function Finished(w: World, timeScore: int): World
  {
    var s := Session.Scored(w.session, 0.0, timeScore);
    w.(session := s, goals := if s.score >= 5000.0 then Goals.GoalUpdated(w.goals, "score5000", s.score) else w.goals)
  }

  /** One `update`: nothing moves unless the run is playing. */
  function WorldStep(w: World, input: FrameInput): World
    requires FairInput(input)
  {
    if w.session.runState != Session.Playing then w
    else Finished(Collided(Moved(Advanced(w, input.momentDice), input), input.goldRoll, input.timeScore), input.timeScore)
  }

  /** `reset`, run whenever a game starts or restarts. */
  function AfterReset(w: World): World
  {
    w.(sleigh := Sleigh.SleighReset(w.sleigh),
       obstacles := Obstacles.ObstacleState([], 0),
       collectibles := Collectibles.CollectibleState([], 0),
       route := Route.InitialRoute, moment := Moment.InitialMoment, ability := Ability.InitialAbility)
  }

  // ---------------------------------------------------------------------------------------------
  // Properties

  /** The combined multipliers over every route, moment and ability state: the sleigh and
      collectibles move at 0.4 to 1.5 times normal, obstacles at 0.32 to 1.95, obstacles spawn at
      0.35 to 1.5 times normal and gifts at 0.5 to 3. */
  lemma CombinedRanges(route: Route.RouteKind, moment: Option<Moment.MomentKind>, a: Ability.AbilityState)
    ensures var m := Combined(Route.ModifiersOf(route), Moment.EffectsOf(moment), Ability.EffectsOf(a));
            && 0.4 <= m.speed <= 1.5
            && 0.32 <= m.obstacleSpeed <= 1.95
            && 0.35 <= m.obstacleSpawn <= 1.5
            && 0.5 <= m.giftSpawn <= 3.0
            && m.obstacleSpeed == Route.ModifiersOf(route).speedMultiplier * m.speed
  {
    var r := Route.ModifiersOf(route);
    var me := Moment.EffectsOf(moment);
    var ae := Ability.EffectsOf(a);
    assert 0.4 <= ae.timeSlowFactor <= 1.0;
    assert 1.0 <= me.speedMultiplier <= 1.5 && 0.5 <= me.obstacleSpawnMultiplier <= 1.0;
    assert 0.8 <= r.speedMultiplier <= 1.3 && 0.7 <= r.spawnMultiplier <= 1.5;
    assert 0.4 <= me.speedMultiplier * ae.timeSlowFactor <= 1.5;
  }

  /** The obstacle speed multiplier reaches the obstacles twice, as the speed argument and as the
      route modifier, so obstacles move at 3 · difficulty · m². */
  lemma ObstacleSpeedAppliedTwice(f: nat, spawn: real, m: real)
    ensures Obstacles.CurrentSpeed(f, m, Obstacles.ObstacleModifiers(spawn, m))
            == 3.0 * Obstacles.Difficulty(f) * m * m
  {
  }

  /** Outside a playing run a frame changes nothing, so a finished run stays as it ended. */
  lemma FrozenUnlessPlaying(w: World, input: FrameInput)
    requires FairInput(input) && w.session.runState != Session.Playing
    ensures WorldStep(w, input) == w
  {
  }

  /** With the ability shield up every hit is absorbed: the run goes on, the session is untouched
      (the power-up shield included), and the ability is spent if anything hit. */
  lemma {:induction false} AbilityShieldAbsorbsEveryHit(obs: seq<Obstacles.Obstacle>, player: Box,
                                                       s: Session.SessionState, a: Ability.AbilityState)
    ensures var o := ObstaclePass(obs, player, true, s, a);
            && !o.fatal && o.session == s
            && o.ability == (if Hits(obs, player) > 0 then Ability.Deactivated(a) else a)
  {
    if obs != [] {
      var hit := obs[0].kind != Obstacles.WindGust && Overlaps(player, Obstacles.BoxOf(obs[0]));
      if hit {
        AbilityShieldAbsorbsEveryHit(obs[1..], player, s, Ability.Deactivated(a));
      } else {
        AbilityShieldAbsorbsEveryHit(obs[1..], player, s, a);
      }
    }
  }

  /** Without the ability shield the run ends exactly when the number of hits exceeds the
      power-up shields available (one if the power-up shield is on, none otherwise); a single
      absorbed hit clears the power-up shield; and the score is never touched. */
  lemma {:induction false} PowerUpShieldAbsorbsOneHit(obs: seq<Obstacles.Obstacle>, player: Box,
                                                     s: Session.SessionState, a: Ability.AbilityState)
    ensures var o := ObstaclePass(obs, player, false, s, a);
            var allowed := if s.powerUps.active.shield then 1 else 0;
            && (o.fatal <==> Hits(obs, player) > allowed)
            && o.ability == a && o.session.score == s.score
            && (o.fatal ==> o.session.runState == Session.GameOver
                            && o.session.highScore == Max(s.highScore, s.score))
            && (Hits(obs, player) == 0 ==> o.session == s)
            && (!o.fatal && Hits(obs, player) == 1 ==> o.session == s.(powerUps := Session.ShieldCleared(s.powerUps)))
  {
    if obs != [] {
      var hit := obs[0].kind != Obstacles.WindGust && Overlaps(player, Obstacles.BoxOf(obs[0]));
      if !hit {
        PowerUpShieldAbsorbsOneHit(obs[1..], player, s, a);
      } else if s.powerUps.active.shield {
        var cleared := s.(powerUps := Session.ShieldCleared(s.powerUps));
        PowerUpShieldAbsorbsOneHit(obs[1..], player, cleared, a);
      }
    }
  }

  /** Wind gusts never end the run or use up a shield. */
  lemma {:induction false} GustsNeverCollide(obs: seq<Obstacles.Obstacle>, player: Box, shield: bool,
                                             s: Session.SessionState, a: Ability.AbilityState)
    requires forall i :: 0 <= i < |obs| ==> obs[i].kind == Obstacles.WindGust
    ensures Hits(obs, player) == 0
    ensures ObstaclePass(obs, player, shield, s, a) == Outcome(s, a, false)
  {
    if obs != [] {
      GustsNeverCollide(obs[1..], player, shield, s, a);
    }
  }

  /** Collecting never lowers the score and never changes the run state or the high score. */
  lemma {:induction false} CollectingNeverLowersScore(i: nat, cs: seq<Collectibles.Collectible>, player: Box,
                                                      gv: real, goldRoll: nat -> real, ts: int,
                                                      s: Session.SessionState, g: Goals.GoalsState)
    requires gv >= 0.0
    ensures var p := CollectFrom(i, cs, player, gv, goldRoll, ts, s, g);
            && p.session.score >= s.score && p.session.runState == s.runState
            && p.session.highScore == s.highScore && |p.collectibles| <= |cs|
    decreases |cs| - i
  {
    if i < |cs| {
      if Overlaps(player, Collectibles.BoxOf(cs[i])) {
        var (s1, g1) := Handled(cs[i].kind, s, g, gv, goldRoll(i), ts);
        Collectibles.RemoveFirstSemantics(cs, cs[i]);
        CollectingNeverLowersScore(i + 1, Collectibles.RemoveFirst(cs, cs[i]), player, gv, goldRoll, ts, s1, g1);
      } else {
        CollectingNeverLowersScore(i + 1, cs, player, gv, goldRoll, ts, s, g);
      }
    }
  }

  /** A gift scores 50 times the route's gift value, doubled under double score, and counts
      towards the delivery goal and, on a draw below 0.1, the gold goal; a power-up turns its kind
      on and scores 100, so a double-score pickup already scores 200 itself. */
  lemma HandledSemantics(kind: Collectibles.CollectibleKind, s: Session.SessionState, g: Goals.GoalsState,
                         gv: real, gold: real, ts: int)
    requires s.runState == Session.Playing
    ensures kind == Collectibles.Gift ==>
              var (s1, g1) := Handled(kind, s, g, gv, gold, ts);
              && s1.score == Max(s.score + 50.0 * gv * Session.ScoreMultiplier(s.powerUps), ts as real)
              && s1.powerUps == s.powerUps
              && (gold >= 0.1 ==> g1 == Goals.GoalUpdated(g, "deliver10", 1.0))
              && (gold < 0.1 ==> g1 == Goals.GoalUpdated(Goals.GoalUpdated(g, "deliver10", 1.0), "collect3Gold", 1.0))
    ensures kind.PowerUpItem? ==>
              var (s1, g1) := Handled(kind, s, g, gv, gold, ts);
              && s1.powerUps == Session.Activated(s.powerUps, kind.power)
              && g1 == g
              && (kind.power == Session.DoubleScore ==> s1.score == Max(s.score + 200.0, ts as real))
              && (kind.power != Session.DoubleScore ==>
                    s1.score == Max(s.score + 100.0 * Session.ScoreMultiplier(s.powerUps), ts as real))
  {
  }

  /** What the collectible pass leaves, by overlap alone: an overlapping item is taken, and the
      item after it, moved into its place, stays untested. */
  function PassedOver(cs: seq<Collectibles.Collectible>, player: Box): seq<Collectibles.Collectible>
    decreases |cs|
  {
    if cs == [] then []
    else if Overlaps(player, Collectibles.BoxOf(cs[0])) then
      if |cs| == 1 then [] else [cs[1]] + PassedOver(cs[2..], player)
    else [cs[0]] + PassedOver(cs[1..], player)
  }

  /** The collectibles are pairwise distinct. */
  predicate Distinct(cs: seq<Collectibles.Collectible>)
  {
    forall a, b :: 0 <= a < b < |cs| ==> cs[a] != cs[b]
  }

  /** Splicing out one item keeps a list distinct. */
  lemma DistinctSplice(cs: seq<Collectibles.Collectible>, i: nat)
    requires i < |cs| && Distinct(cs)
    ensures Distinct(cs[..i] + cs[i + 1..])
  {
    var rest := cs[..i] + cs[i + 1..];
    forall a, b | 0 <= a < b < |rest| ensures rest[a] != rest[b] {
      var a' := if a < i then a else a + 1;
      var b' := if b < i then b else b + 1;
      assert rest[a] == cs[a'] && rest[b] == cs[b'];
    }
  }

  /** One taken item in the pass: it is spliced out at its own index and the pass goes on from
      the next index in the shortened list. */
  lemma CollectTaken(i: nat, cs: seq<Collectibles.Collectible>, player: Box, gv: real, goldRoll: nat -> real,
                     ts: int, s: Session.SessionState, g: Goals.GoalsState)
    requires i < |cs| && Overlaps(player, Collectibles.BoxOf(cs[i])) && cs[i] !in cs[..i]
    ensures var h := Handled(cs[i].kind, s, g, gv, goldRoll(i), ts);
            CollectFrom(i, cs, player, gv, goldRoll, ts, s, g).collectibles
            == CollectFrom(i + 1, cs[..i] + cs[i + 1..], player, gv, goldRoll, ts, h.0, h.1).collectibles
  {
    Collectibles.IndexOfFirst(cs, cs[i], i);
  }

  /** One passed item: the pass goes on from the next index in the same list. */
  lemma CollectPassed(i: nat, cs: seq<Collectibles.Collectible>, player: Box, gv: real, goldRoll: nat -> real,
                      ts: int, s: Session.SessionState, g: Goals.GoalsState)
    requires i < |cs| && !Overlaps(player, Collectibles.BoxOf(cs[i]))
    ensures CollectFrom(i, cs, player, gv, goldRoll, ts, s, g).collectibles
            == CollectFrom(i + 1, cs, player, gv, goldRoll, ts, s, g).collectibles
  {
  }

  /** The two splice facts behind a taken item at `i` with a successor. */
  lemma TakenShape(cs: seq<Collectibles.Collectible>, i: nat, player: Box)
    requires i + 1 < |cs| && Overlaps(player, Collectibles.BoxOf(cs[i]))
    ensures var rest := cs[..i] + cs[i + 1..];
            rest[..i + 1] + PassedOver(rest[i + 1..], player) == cs[..i] + PassedOver(cs[i..], player)
  {
    var rest := cs[..i] + cs[i + 1..];
    assert rest[..i + 1] == cs[..i] + [cs[i + 1]];
    assert rest[i + 1..] == cs[i + 2..];
    assert cs[i..][0] == cs[i] && cs[i..][1] == cs[i + 1] && cs[i..][2..] == cs[i + 2..];
  }

  /** The splice fact behind a passed item at `i`. */
  lemma PassedShape(cs: seq<Collectibles.Collectible>, i: nat, player: Box)
    requires i < |cs| && !Overlaps(player, Collectibles.BoxOf(cs[i]))
    ensures cs[..i + 1] + PassedOver(cs[i + 1..], player) == cs[..i] + PassedOver(cs[i..], player)
  {
    assert cs[..i + 1] == cs[..i] + [cs[i]];
    assert cs[i..][0] == cs[i] && cs[i..][1..] == cs[i + 1..];
  }

  /** For a list of distinct collectibles (the source's objects, compared by identity), the pass
      from index `i` keeps the prefix before `i` and leaves exactly `PassedOver` of the rest: the
      item right after a collected one is never collected in the same pass. */
  lemma {:induction false} CollectFromLeavesPassedOver(i: nat, cs: seq<Collectibles.Collectible>, player: Box,
                                                      gv: real, goldRoll: nat -> real, ts: int,
                                                      s: Session.SessionState, g: Goals.GoalsState)
    requires i <= |cs| && Distinct(cs)
    ensures CollectFrom(i, cs, player, gv, goldRoll, ts, s, g).collectibles == cs[..i] + PassedOver(cs[i..], player)
    decreases |cs| - i
  {
    if i == |cs| {
      assert cs[..i] == cs && cs[i..] == [];
    } else if Overlaps(player, Collectibles.BoxOf(cs[i])) {
      var h := Handled(cs[i].kind, s, g, gv, goldRoll(i), ts);
      assert cs[i] !in cs[..i];
      CollectTaken(i, cs, player, gv, goldRoll, ts, s, g);
      if i + 1 == |cs| {
        assert cs[..i] + cs[i + 1..] == cs[..i];
        assert cs[i..] == [cs[i]];
      } else {
        DistinctSplice(cs, i);
        CollectFromLeavesPassedOver(i + 1, cs[..i] + cs[i + 1..], player, gv, goldRoll, ts, h.0, h.1);
        TakenShape(cs, i, player);
      }
    } else {
      CollectPassed(i, cs, player, gv, goldRoll, ts, s, g);
      CollectFromLeavesPassedOver(i + 1, cs, player, gv, goldRoll, ts, s, g);
      PassedShape(cs, i, player);
    }
  }

  /** Two overlapping collectibles next to each other: the first is collected and the second,
      moved into its place, is passed over and stays. */
  lemma SecondOfAdjacentPairIsSkipped(s: Session.SessionState, g: Goals.GoalsState, gv: real,
                                      goldRoll: nat -> real, ts: int)
    ensures var player := Box(100.0, 300.0, 60.0, 40.0);
            var c1 := Collectibles.Collectible(Collectibles.Gift, 110.0, 305.0, 30.0, 30.0, 1.0);
            var c2 := Collectibles.Collectible(Collectibles.Gift, 120.0, 305.0, 30.0, 30.0, 2.0);
            var p := CollectFrom(0, [c1, c2], player, gv, goldRoll, ts, s, g);
            && p.collectibles == [c2]
            && (p.session, p.goals) == Handled(Collectibles.Gift, s, g, gv, goldRoll(0), ts)
  {
    var player := Box(100.0, 300.0, 60.0, 40.0);
    var c1 := Collectibles.Collectible(Collectibles.Gift, 110.0, 305.0, 30.0, 30.0, 1.0);
    var c2 := Collectibles.Collectible(Collectibles.Gift, 120.0, 305.0, 30.0, 30.0, 2.0);
    assert Collectibles.IndexOf([c1, c2], c1) == 0;
    assert Collectibles.RemoveFirst([c1, c2], c1) == [c2];
  }

  /** A playing frame never lowers the score or the high score. */
  lemma StepNeverLowersScore(w: World, input: FrameInput)
    requires FairInput(input)
    ensures WorldStep(w, input).session.score >= w.session.score
    ensures WorldStep(w, input).session.highScore >= w.session.highScore
  {
    if w.session.runState == Session.Playing {
      var w1 := Moved(Advanced(w, input.momentDice), input);
      assert w1.session.score == w.session.score && w1.session.highScore == w.session.highScore;
      var player := Sleigh.BoundsOf(w1.sleigh);
      var shield := Ability.EffectsOf(w1.ability).hasShield;
      if shield {
        AbilityShieldAbsorbsEveryHit(w1.obstacles.obstacles, player, w1.session, w1.ability);
      } else {
        PowerUpShieldAbsorbsOneHit(w1.obstacles.obstacles, player, w1.session, w1.ability);
      }
      var o := ObstaclePass(w1.obstacles.obstacles, player, shield, w1.session, w1.ability);
      if !o.fatal {
        CollectingNeverLowersScore(0, w1.collectibles.collectibles, player,
                                   Route.ModifiersOf(w1.route.current).giftValueMultiplier,
                                   input.goldRoll, input.timeScore, o.session, w1.goals);
      }
    }
  }

  // ---------------------------------------------------------------------------------------------
  // The game object

  class Game {
    var gameState: Session.GameState
    var player: Sleigh.Player
    var obstacleManager: Obstacles.ObstacleManager
    var collectibleManager: Collectibles.CollectibleManager
    var routeManager: Route.RouteManager
    var momentManager: Moment.MomentManager
    var abilityManager: Ability.AbilityManager
    var goalsManager: Goals.GoalsManager

    function Snapshot(): World
      reads this, gameState, player, obstacleManager, collectibleManager, routeManager, momentManager,
            abilityManager, goalsManager
    {
      World(gameState.State(), player.State(), obstacleManager.State(), collectibleManager.State(),
            routeManager.State(), momentManager.State(), abilityManager.State(), goalsManager.State())
    }

    ghost predicate Valid()
      reads this, gameState, player, obstacleManager, collectibleManager, routeManager, momentManager,
            abilityManager, goalsManager
    {
      && gameState.Valid() && player.Valid() && obstacleManager.Valid() && routeManager.Valid()
      && momentManager.Valid() && abilityManager.Valid() && goalsManager.Valid()
    }

    /** The stored high score is loaded by the caller. */
    constructor (savedHighScore: real)
      ensures Valid() && Snapshot() == InitialWorld(savedHighScore)
    {
      var session := new Session.GameState(savedHighScore);
      var sleigh := new Sleigh.Player();
      var obstacles := new Obstacles.ObstacleManager();
      var collectibles := new Collectibles.CollectibleManager();
      var route := new Route.RouteManager();
      var moment := new Moment.MomentManager();
      var ability := new Ability.AbilityManager();
      var goals := new Goals.GoalsManager();
      gameState, player, obstacleManager, collectibleManager := session, sleigh, obstacles, collectibles;
      routeManager, momentManager, abilityManager, goalsManager := route, moment, ability, goals;
      new;
      assert Snapshot() == World(session.State(), sleigh.State(), obstacles.State(), collectibles.State(),
                                 route.State(), moment.State(), ability.State(), goals.State());
    }

    method Update(input: FrameInput)
      requires Valid() && FairInput(input)
      modifies gameState, player, obstacleManager, collectibleManager, routeManager, momentManager,
               abilityManager, goalsManager
      ensures Valid()
      ensures Snapshot() == WorldStep(old(Snapshot()), input)
    {
      if gameState.currentState != Session.Playing {
        return;
      }
      ghost var w0 := Snapshot();
      AdvanceManagers(input.momentDice);
      ghost var w1 := Snapshot();
      MoveEntities(input);
      ghost var w2 := Snapshot();
      CheckCollisions(input.goldRoll, input.timeScore);
      ghost var w3 := Snapshot();
      FinishFrame(input.timeScore);
      assert w1 == Advanced(w0, input.momentDice) && w2 == Moved(w1, input);
      assert w3 == Collided(w2, input.goldRoll, input.timeScore);
    }

    /** The tail of `update`: the time score, then the score goal. */
    method FinishFrame(timeScore: int)
      requires Valid()
      modifies gameState, goalsManager
      ensures Valid()
      ensures Snapshot() == Finished(old(Snapshot()), timeScore)
    {
      gameState.UpdateScore(0.0, timeScore);
      UpdateGoals();
    }

    /** The head of `update`: frame counter, power-up timers and the three managers. */
    method AdvanceManagers(d: Moment.MomentDice)
      requires Valid() && Moment.FairDice(d)
      modifies gameState, routeManager, momentManager, abilityManager, goalsManager
      ensures Valid()
      ensures Snapshot() == Advanced(old(Snapshot()), d)
    {
      ghost var w := Snapshot();
      gameState.IncrementFrame();
      gameState.UpdatePowerUps();
      var frame := gameState.GetFrameCount();
      routeManager.Update(frame);
      var snowstormEnded := momentManager.Update(frame, d);
      if snowstormEnded {
        goalsManager.UpdateGoal("surviveSnowstorm", 1.0);
      }
      abilityManager.Update();
      ghost var a := Advanced(w, d);
      assert gameState.State() == a.session && routeManager.State() == a.route;
      assert momentManager.State() == a.moment && goalsManager.State() == a.goals;
    }

    /** The movement part of `update`, with the combined multipliers. */
    method MoveEntities(input: FrameInput)
      requires Valid() && FairInput(input)
      modifies player, obstacleManager, collectibleManager
      ensures Valid()
      ensures Snapshot() == Moved(old(Snapshot()), input)
    {
      ghost var w := Snapshot();
      var routeModifiers := routeManager.GetRouteModifiers();
      var momentEffects := momentManager.GetMomentEffects();
      var abilityEffects := abilityManager.GetAbilityEffects();
      var m := Combined(routeModifiers, momentEffects, abilityEffects);
      assert m == MultipliersOf(w);
      var isDashing := abilityManager.isActive && abilityManager.abilityType == Ability.Dash;
      var frame := gameState.GetFrameCount();
      MoveSleigh(m.speed, isDashing);
      MoveObstacles(frame, m, input.sin, input.obstacleDice);
      MoveCollectibles(frame, m, input.sin, input.collectibleDice);
    }

    /** The obstacle update with the route's and the moment's multipliers. */
    method MoveObstacles(frame: nat, m: Multipliers, sin: real -> real, d: Obstacles.ObstacleDice)
      requires obstacleManager.Valid() && Obstacles.FairDice(d)
      modifies obstacleManager
      ensures obstacleManager.Valid()
      ensures obstacleManager.State()
              == Obstacles.ObstacleUpdate(old(obstacleManager.State()), frame, m.obstacleSpeed,
                                          Obstacles.ObstacleModifiers(m.obstacleSpawn, m.obstacleSpeed), sin, d)
    {
      obstacleManager.Update(frame, m.obstacleSpeed, Obstacles.ObstacleModifiers(m.obstacleSpawn, m.obstacleSpeed),
                             sin, d);
    }

    /** The collectible update with the moment's gift multiplier. */
    method MoveCollectibles(frame: nat, m: Multipliers, sin: real -> real, d: Collectibles.CollectibleDice)
      requires Collectibles.FairDice(d)
      modifies collectibleManager
      ensures collectibleManager.State()
              == Collectibles.CollectibleUpdate(old(collectibleManager.State()), frame, m.speed, m.giftSpawn, sin, d)
    {
      collectibleManager.Update(frame, m.speed, m.giftSpawn, sin, d);
    }

    /** The wind query and the sleigh's own update. */
    method MoveSleigh(speedMultiplier: real, isDashing: bool)
      requires player.Valid() && obstacleManager.Valid()
      modifies player
      ensures player.Valid()
      ensures player.State()
              == Sleigh.SleighUpdate(old(player.State()), speedMultiplier,
                                     Obstacles.WindForceOf(obstacleManager.obstacles, Sleigh.BoundsOf(old(player.State()))),
                                     isDashing)
    {
      var windForce := obstacleManager.ApplyWindForce(player.GetBounds());
      player.Update(speedMultiplier, windForce, isDashing);
    }

    method CheckCollisions(goldRoll: nat -> real, timeScore: int)
      requires Valid()
      modifies gameState, abilityManager, collectibleManager, goalsManager
      ensures Valid()
      ensures Snapshot() == Collided(old(Snapshot()), goldRoll, timeScore)
    {
      var playerBounds := player.GetBounds();
      var abilityEffects := abilityManager.GetAbilityEffects();
      var fatal := ResolveObstacles(playerBounds, abilityEffects.hasShield);
      if fatal {
        return;
      }
      CollectPickups(playerBounds, goldRoll, timeScore);
    }

    /** The obstacle loop, returning whether it ended the run. */
    method ResolveObstacles(playerBounds: Box, abilityShield: bool) returns (fatal: bool)
      requires gameState.Valid() && abilityManager.Valid()
      modifies gameState, abilityManager
      ensures gameState.Valid() && abilityManager.Valid()
      ensures Outcome(gameState.State(), abilityManager.State(), fatal)
              == ObstaclePass(obstacleManager.obstacles, playerBounds, abilityShield,
                              old(gameState.State()), old(abilityManager.State()))
    {
      var obstacles := obstacleManager.obstacles;
      var i := 0;
      while i < |obstacles|
        invariant 0 <= i <= |obstacles|
        invariant gameState.Valid() && abilityManager.Valid()
        invariant ObstaclePass(obstacles[i..], playerBounds, abilityShield, gameState.State(), abilityManager.State())
                  == ObstaclePass(obstacles, playerBounds, abilityShield,
                                  old(gameState.State()), old(abilityManager.State()))
      {
        assert obstacles[i..][1..] == obstacles[i + 1..];
        var obstacle := obstacles[i];
        if obstacle.kind == Obstacles.WindGust {
          i := i + 1;
          continue;
        }
        if Overlaps(playerBounds, Obstacles.BoxOf(obstacle)) {
          if gameState.HasShield() || abilityShield {
            if abilityShield {
              abilityManager.DeactivateAbility();
            } else {
              gameState.ClearShield();
            }
          } else {
            gameState.GameOver();
            return true;
          }
        }
        i := i + 1;
      }
      return false;
    }

    /** The collectible loop, over the live list the removals splice. */
    method CollectPickups(playerBounds: Box, goldRoll: nat -> real, timeScore: int)
      requires gameState.Valid() && goalsManager.Valid()
      modifies gameState, collectibleManager, goalsManager
      ensures gameState.Valid() && goalsManager.Valid()
      ensures Pickup(collectibleManager.collectibles, gameState.State(), goalsManager.State())
              == CollectFrom(0, old(collectibleManager.collectibles), playerBounds,
                             Route.ModifiersOf(routeManager.currentRoute).giftValueMultiplier, goldRoll, timeScore,
                             old(gameState.State()), old(goalsManager.State()))
      ensures collectibleManager.lastSpawnFrame == old(collectibleManager.lastSpawnFrame)
    {
      var i := 0;
      while i < |collectibleManager.collectibles|
        invariant gameState.Valid() && goalsManager.Valid()
        invariant collectibleManager.lastSpawnFrame == old(collectibleManager.lastSpawnFrame)
        invariant CollectFrom(i, collectibleManager.collectibles, playerBounds,
                              Route.ModifiersOf(routeManager.currentRoute).giftValueMultiplier, goldRoll, timeScore,
                              gameState.State(), goalsManager.State())
                  == CollectFrom(0, old(collectibleManager.collectibles), playerBounds,
                                 Route.ModifiersOf(routeManager.currentRoute).giftValueMultiplier, goldRoll, timeScore,
                                 old(gameState.State()), old(goalsManager.State()))
        decreases |collectibleManager.collectibles| - i
      {
        var collectible := collectibleManager.collectibles[i];
        Collectibles.RemoveFirstSemantics(collectibleManager.collectibles, collectible);
        if Overlaps(playerBounds, Collectibles.BoxOf(collectible)) {
          HandleCollectible(collectible.kind, goldRoll(i), timeScore);
          collectibleManager.RemoveCollectible(collectible);
        }
        i := i + 1;
      }
    }

    method HandleCollectible(kind: Collectibles.CollectibleKind, goldRoll: real, timeScore: int)
      requires gameState.Valid() && goalsManager.Valid()
      modifies gameState, goalsManager
      ensures gameState.Valid() && goalsManager.Valid()
      ensures (gameState.State(), goalsManager.State())
              == Handled(kind, old(gameState.State()), old(goalsManager.State()),
                         Route.ModifiersOf(routeManager.currentRoute).giftValueMultiplier, goldRoll, timeScore)
    {
      var routeModifiers := routeManager.GetRouteModifiers();
      match kind {
        case Gift =>
          var giftValue := Config.ScorePerGift * routeModifiers.giftValueMultiplier;
          gameState.UpdateScore(giftValue, timeScore);
          goalsManager.UpdateGoal("deliver10", 1.0);
          if goldRoll < 0.1 {
            goalsManager.UpdateGoal("collect3Gold", 1.0);
          }
        case PowerUpItem(k) =>
          gameState.ActivatePowerUp(k);
          gameState.UpdateScore(Config.ScorePerPowerUp, timeScore);
      }
    }

    /** `updateGoals`: the score goal, fed the whole score once it reaches 5000. */
    method UpdateGoals()
      requires goalsManager.Valid()
      modifies goalsManager
      ensures goalsManager.Valid()
      ensures goalsManager.State()
              == (if gameState.score >= 5000.0 then Goals.GoalUpdated(old(goalsManager.State()), "score5000", gameState.score)
                  else old(goalsManager.State()))
    {
      if gameState.score >= 5000.0 {
        goalsManager.UpdateGoal("score5000", gameState.score);
      }
    }

    /** The route keys: choosing a side only acts while the decision prompt is showing. */
    method ChooseRoute(route: Route.RouteKind)
      requires Valid() && route != Route.Neutral
      modifies routeManager
      ensures Valid()
      ensures Snapshot() == old(Snapshot()).(route := Route.RouteSelect(old(routeManager.State()), route))
    {
      if routeManager.showingDecision {
        routeManager.SelectRoute(route);
      }
    }

    /** The ability key: a successful activation counts towards the ability goal. */
    method UseAbility()
      requires Valid()
      modifies abilityManager, goalsManager
      ensures Valid()
      ensures var w := old(Snapshot());
              Snapshot() == w.(ability := Ability.Activated(w.ability),
                               goals := if Ability.CanActivate(w.ability) then Goals.GoalUpdated(w.goals, "useAbility10", 1.0)
                                        else w.goals)
    {
      var used := abilityManager.ActivateAbility();
      if used {
        goalsManager.UpdateGoal("useAbility10", 1.0);
      }
    }

    method Reset()
      requires Valid()
      modifies this, player, obstacleManager, collectibleManager
      ensures Valid()
      ensures gameState == old(gameState) && player == old(player) && goalsManager == old(goalsManager)
      ensures obstacleManager == old(obstacleManager) && collectibleManager == old(collectibleManager)
      ensures fresh(routeManager) && fresh(momentManager) && fresh(abilityManager)
      ensures Snapshot() == AfterReset(old(Snapshot()))
    {
      player.Reset();
      obstacleManager.Clear();
      collectibleManager.Clear();
      routeManager := new Route.RouteManager();
      momentManager := new Moment.MomentManager();
      abilityManager := new Ability.AbilityManager();
    }

    /** `startGame` and `restartGame`, which both end by calling `reset`. */
    method StartGame()
      requires Valid()
      modifies this, gameState, player, obstacleManager, collectibleManager
      ensures Valid()
      ensures Snapshot() == AfterReset(old(Snapshot()).(session := Session.AfterStart(old(gameState.State()))))
    {
      gameState.StartGame();
      Reset();
    }
  }
}
