/**
 * The obstacle engine (obstacles.js): obstacles enter at the right edge, move left at a speed
 * that ramps with the frame count, some of them sway with a sine wave, and they are dropped once
 * fully off the left edge. Wind gusts are not hazards but zones that push the sleigh.
 */
module Obstacles {
  import opened Support
  import opened Geometry
  import Config

  datatype ObstacleKind = Chimney | Snowman | Tree | Cloud | WindGust

  /** The kinds in the order the random index picks them from. */
  const ObstacleKinds: seq<ObstacleKind> := [Chimney, Snowman, Tree, Cloud, WindGust]

  /** One obstacle record. `force` is read only for wind gusts; `startX` and `startY` are the
      anchors a snowman and a chimney record lazily on their first update. */
  datatype Obstacle = Obstacle(
    kind: ObstacleKind,
    x: real,
    y: real,
    width: real,
    height: real,
    force: real,
    startX: Option<real>,
    startY: Option<real>)

  function BoxOf(o: Obstacle): Box
  {
    Box(o.x, o.y, o.width, o.height)
  }

  /** The multipliers the game passes in as `routeModifiers`. */
  datatype ObstacleModifiers = ObstacleModifiers(spawnMultiplier: real, speedMultiplier: real)

  /** The random draws of one update: the spawn roll, the kind, the height and the gust direction. */
  datatype ObstacleDice = ObstacleDice(spawn: real, kind: real, y: real, force: real)

  predicate FairDice(d: ObstacleDice)
  {
    0.0 <= d.spawn < 1.0 && 0.0 <= d.kind < 1.0 && 0.0 <= d.y < 1.0 && 0.0 <= d.force < 1.0
  }

  /** The fields of an `ObstacleManager`. */
  datatype ObstacleState = ObstacleState(obstacles: seq<Obstacle>, lastSpawnFrame: int)

  /** JavaScript's `m || 1.0` for a number: zero falls back to one. */
  function OrOne(m: real): real
  {
    if m == 0.0 then 1.0 else m
  }

  /** `getDifficultyMultiplier`. */
  function Difficulty(frameCount: nat): (d: real)
    ensures 1.0 <= d <= Config.MaxSpeedMultiplier
  {
    Min(1.0 + frameCount as real * Config.DifficultyIncreaseRate, Config.MaxSpeedMultiplier)
  }

  /** `currentSpeed` in `update`. */
  function CurrentSpeed(frameCount: nat, speedMultiplier: real, mods: ObstacleModifiers): real
  {
    Config.ObstacleBaseSpeed * Difficulty(frameCount) * speedMultiplier * OrOne(mods.speedMultiplier)
  }

  /** The lazily recorded anchor: a missing or zero anchor is replaced by the current value. */
  function Anchor(start: Option<real>, current: real): real
  {
    if start.None? || start.value == 0.0 then current else start.value
  }

  /** `updateObstacleBehavior`, with `updateChimney` and `updateSnowman`. */
  function Behave(o: Obstacle, frameCount: nat, sin: real -> real): Obstacle
  {
    match o.kind
    case Chimney =>
      var sy := Anchor(o.startY, o.y);
      o.(startY := Some(sy), y := sy + sin(frameCount as real * 0.05 + o.x * 0.01) * 15.0)
    case Snowman =>
      var sx := Anchor(o.startX, o.x);
      o.(startX := Some(sx), x := sx + sin(frameCount as real * 0.08) * 100.0)
    case _ => o
  }

  /** One iteration of the movement loop: behaviour first, then the horizontal move. */
  function Moved(o: Obstacle, frameCount: nat, speed: real, sin: real -> real): Obstacle
  {
    var b := Behave(o, frameCount, sin);
    b.(x := b.x - speed)
  }

  predicate OffScreen(o: Obstacle)
  {
    o.x + o.width < 0.0
  }

  /** The obstacles left by the movement loop, in their original order. */
  function Survivors(s: seq<Obstacle>, frameCount: nat, speed: real, sin: real -> real): (r: seq<Obstacle>)
    ensures |r| <= |s|
    ensures forall i :: 0 <= i < |r| ==> !OffScreen(r[i])
  {
    if s == [] then []
    else
      var m := Moved(s[0], frameCount, speed, sin);
      (if OffScreen(m) then [] else [m]) + Survivors(s[1..], frameCount, speed, sin)
  }

  function CreateChimney(): (o: Obstacle)
    ensures o.kind == Chimney && o.x == Config.CanvasWidth
    ensures o.y + o.height == Config.CanvasHeight - 20.0
  {
    Obstacle(Chimney, Config.CanvasWidth, Config.CanvasHeight - Config.ChimneyHeight - 20.0,
             Config.ChimneyWidth, Config.ChimneyHeight, 0.0, None, None)
  }

  function CreateSnowman(): (o: Obstacle)
    ensures o.kind == Snowman && o.x == Config.CanvasWidth
    ensures o.y + o.height == Config.CanvasHeight - 20.0
  {
    Obstacle(Snowman, Config.CanvasWidth, Config.CanvasHeight - Config.SnowmanHeight - 20.0,
             Config.SnowmanWidth, Config.SnowmanHeight, 0.0, None, None)
  }

  function CreateTree(): (o: Obstacle)
    ensures o.kind == Tree && o.x == Config.CanvasWidth
    ensures o.y + o.height == Config.CanvasHeight - 20.0
  {
    Obstacle(Tree, Config.CanvasWidth, Config.CanvasHeight - Config.TreeHeight - 20.0,
             Config.TreeWidth, Config.TreeHeight, 0.0, None, None)
  }

  /** A cloud floats at a random height in [50, 450). */
  function CreateCloud(r: real): (o: Obstacle)
    requires 0.0 <= r < 1.0
    ensures o.kind == Cloud && o.x == Config.CanvasWidth
    ensures 50.0 <= o.y < 450.0
  {
    var minY := 50.0;
    var maxY := Config.CanvasHeight - Config.CloudHeight - 100.0;
    Obstacle(Cloud, Config.CanvasWidth, r * (maxY - minY) + minY, Config.CloudWidth,
             Config.CloudHeight, 0.0, None, None)
  }

  /** A gust is a 100 by 150 zone at a random height that pushes up or down by 2. */
  function CreateWindGust(rY: real, rForce: real): (o: Obstacle)
    requires 0.0 <= rY < 1.0
    ensures o.kind == WindGust && o.x == Config.CanvasWidth
    ensures 100.0 <= o.y < 400.0 && o.width == 100.0 && o.height == 150.0
    ensures o.force == -2.0 <==> rForce > 0.5
    ensures o.force == -2.0 || o.force == 2.0
  {
    var minY := 100.0;
    var maxY := Config.CanvasHeight - 200.0;
    Obstacle(WindGust, Config.CanvasWidth, rY * (maxY - minY) + minY, 100.0, 150.0,
             if rForce > 0.5 then -2.0 else 2.0, None, None)
  }

  /** `types[Math.floor(r * 5)]`: each kind owns a fifth of the unit interval. */
  function KindOf(r: real): (k: ObstacleKind)
    requires 0.0 <= r < 1.0
    ensures k == Chimney <==> r < 0.2
    ensures k == Snowman <==> 0.2 <= r < 0.4
    ensures k == Tree <==> 0.4 <= r < 0.6
    ensures k == Cloud <==> 0.6 <= r < 0.8
    ensures k == WindGust <==> r >= 0.8
  {
    ObstacleKinds[(r * 5.0).Floor]
  }

  /** The obstacle `spawnObstacle` creates. */
  function Spawned(d: ObstacleDice): Obstacle
    requires FairDice(d)
  {
    match KindOf(d.kind)
    case Chimney => CreateChimney()
    case Snowman => CreateSnowman()
    case Tree => CreateTree()
    case Cloud => CreateCloud(d.y)
    case WindGust => CreateWindGust(d.y, d.force)
  }

  /** The spawn gate: enough frames since the last spawn and a lucky roll, both scaled by the
      difficulty. */
  predicate SpawnGate(lastSpawnFrame: int, frameCount: nat, mods: ObstacleModifiers, roll: real)
  {
    var difficulty := Difficulty(frameCount);
    (frameCount - lastSpawnFrame) as real >= Config.ObstacleMinSpawnInterval / difficulty
    && roll < Config.ObstacleSpawnRate * difficulty * OrOne(mods.spawnMultiplier)
  }

  /** `update`. */
  function ObstacleUpdate(s: ObstacleState, frameCount: nat, speedMultiplier: real,
                          mods: ObstacleModifiers, sin: real -> real, d: ObstacleDice): ObstacleState
    requires FairDice(d)
  {
    var moved := Survivors(s.obstacles, frameCount, CurrentSpeed(frameCount, speedMultiplier, mods), sin);
    if SpawnGate(s.lastSpawnFrame, frameCount, mods, d.spawn) then ObstacleState(moved + [Spawned(d)], frameCount)
    else ObstacleState(moved, s.lastSpawnFrame)
  }

  /** The force of the first wind gust overlapping the sleigh, or 0 (`applyWindForce`). */
  function WindForceOf(s: seq<Obstacle>, player: Box): real
  {
    if s == [] then 0.0
    else if s[0].kind == WindGust && Overlaps(player, BoxOf(s[0])) then s[0].force
    else WindForceOf(s[1..], player)
  }

  /** Every gust pushes by 2 one way or the other. */
  predicate GustForces(s: seq<Obstacle>)
  {
    forall i :: 0 <= i < |s| && s[i].kind == WindGust ==> s[i].force == -2.0 || s[i].force == 2.0
  }

  // ---------------------------------------------------------------------------------------------
  // Properties

  /** The difficulty starts at 1, grows by 0.0001 per frame, and is capped at 2.5, which it
      reaches at frame 15000. */
  lemma DifficultyRamp(f: nat, g: nat)
    ensures f <= g ==> Difficulty(f) <= Difficulty(g)
    ensures Difficulty(0) == 1.0
    ensures f >= 15000 ==> Difficulty(f) == 2.5
    ensures f < 15000 ==> Difficulty(f) == 1.0 + f as real * 0.0001 < 2.5
  {
  }

  /** Every obstacle but a snowman moves left by exactly the current speed; a snowman is placed
      at its anchor plus the sway, then moved. */
  lemma MovementShift(o: Obstacle, f: nat, speed: real, sin: real -> real)
    ensures o.kind != Snowman ==> Moved(o, f, speed, sin).x == o.x - speed
    ensures o.kind == Snowman ==>
              Moved(o, f, speed, sin).x == Anchor(o.startX, o.x) + sin(f as real * 0.08) * 100.0 - speed
    ensures Moved(o, f, speed, sin).width == o.width && Moved(o, f, speed, sin).kind == o.kind
    ensures Moved(o, f, speed, sin).force == o.force
  {
  }

  /** A chimney sways within 15 of its anchor, which is fixed once recorded. */
  lemma ChimneySwayBounded(o: Obstacle, f: nat, speed: real, sin: real -> real)
    requires o.kind == Chimney
    requires forall t :: -1.0 <= sin(t) <= 1.0
    ensures var m := Moved(o, f, speed, sin);
            m.startY == Some(Anchor(o.startY, o.y))
            && m.startY.value - 15.0 <= m.y <= m.startY.value + 15.0
  {
  }

  /** A snowman anchored at the right edge stays within 100 of it before the move, so for any
      speed up to 700 it is never dropped, and its anchor does not change. */
  lemma SnowmanNeverLeaves(o: Obstacle, f: nat, speed: real, sin: real -> real)
    requires o.kind == Snowman && o.width == Config.SnowmanWidth
    requires o.startX == Some(Config.CanvasWidth) || (o.startX.None? && o.x == Config.CanvasWidth)
    requires forall t :: -1.0 <= sin(t) <= 1.0
    requires 0.0 <= speed <= 700.0
    ensures !OffScreen(Moved(o, f, speed, sin))
    ensures Moved(o, f, speed, sin).startX == Some(Config.CanvasWidth)
  {
  }

  /** The movement loop distributes over concatenation, so it keeps the relative order. */
  lemma {:induction false} SurvivorsAppend(a: seq<Obstacle>, b: seq<Obstacle>, f: nat, speed: real, sin: real -> real)
    ensures Survivors(a + b, f, speed, sin) == Survivors(a, f, speed, sin) + Survivors(b, f, speed, sin)
    decreases |a|
  {
    if a == [] {
      assert a + b == b;
    } else {
      assert (a + b)[1..] == a[1..] + b;
      SurvivorsAppend(a[1..], b, f, speed, sin);
    }
  }

  /** Peeling off the obstacle at index `i`, the step the backwards loop takes. */
  lemma SurvivorsStep(s: seq<Obstacle>, i: nat, f: nat, speed: real, sin: real -> real)
    requires i < |s|
    ensures var m := Moved(s[i], f, speed, sin);
            Survivors(s[i..], f, speed, sin)
            == (if OffScreen(m) then [] else [m]) + Survivors(s[i + 1..], f, speed, sin)
  {
    assert s[i..][1..] == s[i + 1..];
  }

  /** An obstacle is kept exactly when it is the moved form of an input obstacle that is still
      on screen. */
  lemma {:induction false} SurvivorsMembership(s: seq<Obstacle>, f: nat, speed: real, sin: real -> real, o: Obstacle)
    ensures o in Survivors(s, f, speed, sin) <==>
            (exists p :: p in s && o == Moved(p, f, speed, sin)) && !OffScreen(o)
    decreases |s|
  {
    if s != [] {
      SurvivorsMembership(s[1..], f, speed, sin, o);
      if o == Moved(s[0], f, speed, sin) && !OffScreen(o) {
        assert o in Survivors(s, f, speed, sin);
      }
      forall p | p in s[1..]
        ensures p in s
      {
      }
      if exists p :: p in s && o == Moved(p, f, speed, sin) {
        var p :| p in s && o == Moved(p, f, speed, sin);
        if p != s[0] {
          assert p in s[1..];
        }
      }
    }
  }

  /** Nothing on screen is dropped: if no moved obstacle is off screen, all are kept. */
  lemma {:induction false} NoneDroppedWhenAllVisible(s: seq<Obstacle>, f: nat, speed: real, sin: real -> real)
    requires forall i :: 0 <= i < |s| ==> !OffScreen(Moved(s[i], f, speed, sin))
    ensures |Survivors(s, f, speed, sin)| == |s|
    decreases |s|
  {
    if s != [] {
      NoneDroppedWhenAllVisible(s[1..], f, speed, sin);
    }
  }

  /** One update spawns at most one obstacle, exactly when the gate opens; it is appended at the
      right edge after the survivors, and the last spawn frame moves only then. */
  lemma UpdateSpawnSemantics(s: ObstacleState, f: nat, m: real, mods: ObstacleModifiers,
                             sin: real -> real, d: ObstacleDice)
    requires FairDice(d)
    ensures var t := ObstacleUpdate(s, f, m, mods, sin, d);
            var moved := Survivors(s.obstacles, f, CurrentSpeed(f, m, mods), sin);
            && (SpawnGate(s.lastSpawnFrame, f, mods, d.spawn) ==>
                  t.obstacles == moved + [Spawned(d)] && t.lastSpawnFrame == f
                  && t.obstacles[|moved|].x == Config.CanvasWidth
                  && t.obstacles[|moved|].kind == KindOf(d.kind))
            && (!SpawnGate(s.lastSpawnFrame, f, mods, d.spawn) ==>
                  t.obstacles == moved && t.lastSpawnFrame == s.lastSpawnFrame)
            && |t.obstacles| <= |s.obstacles| + 1
  {
    var o := Spawned(d);
    assert o.x == Config.CanvasWidth && o.kind == KindOf(d.kind);
  }

  /** Ground obstacles stand 20 above the bottom edge; clouds and gusts are placed in their bands. */
  lemma SpawnPlacement(d: ObstacleDice)
    requires FairDice(d)
    ensures var o := Spawned(d);
            && (o.kind in {Chimney, Snowman, Tree} ==> o.y == Config.CanvasHeight - o.height - 20.0)
            && (o.kind == Cloud ==> 50.0 <= o.y < 450.0)
            && (o.kind == WindGust ==> 100.0 <= o.y < 400.0 && o.width == 100.0 && o.height == 150.0
                                       && (o.force == -2.0 || o.force == 2.0))
  {
  }

  lemma {:induction false} SurvivorsKeepGustForces(s: seq<Obstacle>, f: nat, speed: real, sin: real -> real)
    requires GustForces(s)
    ensures GustForces(Survivors(s, f, speed, sin))
    decreases |s|
  {
    if s != [] {
      SurvivorsKeepGustForces(s[1..], f, speed, sin);
    }
  }

  lemma UpdateKeepsGustForces(s: ObstacleState, f: nat, m: real, mods: ObstacleModifiers,
                              sin: real -> real, d: ObstacleDice)
    requires FairDice(d) && GustForces(s.obstacles)
    ensures GustForces(ObstacleUpdate(s, f, m, mods, sin, d).obstacles)
  {
    SurvivorsKeepGustForces(s.obstacles, f, CurrentSpeed(f, m, mods), sin);
  }

  /** The wind force is the force of an overlapping gust, 0 when none overlaps, and so one of
      -2, 0 and 2. */
  lemma {:induction false} WindForceCases(s: seq<Obstacle>, player: Box)
    requires GustForces(s)
    ensures WindForceOf(s, player) == 0.0 <==>
            forall i :: 0 <= i < |s| && s[i].kind == WindGust ==> !Overlaps(player, BoxOf(s[i]))
    ensures WindForceOf(s, player) in {-2.0, 0.0, 2.0}
    decreases |s|
  {
    if s != [] {
      WindForceCases(s[1..], player);
      assert forall i :: 1 <= i < |s| ==> s[i] == s[1..][i - 1];
    }
  }

  // ---------------------------------------------------------------------------------------------
  // The manager object

  class ObstacleManager {
    var obstacles: seq<Obstacle>
    var lastSpawnFrame: int

    function State(): ObstacleState
      reads this
    {
      ObstacleState(obstacles, lastSpawnFrame)
    }

    ghost predicate Valid()
      reads this
    {
      GustForces(obstacles)
    }

    constructor ()
      ensures State() == ObstacleState([], 0) && Valid()
    {
      obstacles := [];
      lastSpawnFrame := 0;
    }

    method Update(frameCount: nat, speedMultiplier: real, mods: ObstacleModifiers, sin: real -> real,
                  d: ObstacleDice)
      requires FairDice(d)
      modifies this
      ensures State() == ObstacleUpdate(old(State()), frameCount, speedMultiplier, mods, sin, d)
      ensures old(Valid()) ==> Valid()
    {
      ghost var s0 := State();
      var difficulty := Difficulty(frameCount);
      var currentSpeed := Config.ObstacleBaseSpeed * difficulty * speedMultiplier * OrOne(mods.speedMultiplier);
      assert currentSpeed == CurrentSpeed(frameCount, speedMultiplier, mods);
      MoveObstacles(frameCount, currentSpeed, sin);
      ghost var moved := obstacles;
      var framesSinceLastSpawn := frameCount - lastSpawnFrame;
      var spawnRate := Config.ObstacleSpawnRate * difficulty * OrOne(mods.spawnMultiplier);
      var minInterval := Config.ObstacleMinSpawnInterval / difficulty;
      if framesSinceLastSpawn as real >= minInterval && d.spawn < spawnRate {
        assert SpawnGate(s0.lastSpawnFrame, frameCount, mods, d.spawn);
        SpawnObstacle(d);
        lastSpawnFrame := frameCount;
        assert State() == ObstacleState(moved + [Spawned(d)], frameCount);
      } else {
        assert !SpawnGate(s0.lastSpawnFrame, frameCount, mods, d.spawn);
        assert State() == ObstacleState(moved, s0.lastSpawnFrame);
      }
      if old(Valid()) {
        UpdateKeepsGustForces(old(State()), frameCount, speedMultiplier, mods, sin, d);
      }
    }

    /** The backwards loop of `update`: move every obstacle, splicing out those off screen. */
    method MoveObstacles(frameCount: nat, currentSpeed: real, sin: real -> real)
      modifies this
      ensures obstacles == Survivors(old(obstacles), frameCount, currentSpeed, sin)
      ensures lastSpawnFrame == old(lastSpawnFrame)
    {
      ghost var initial := obstacles;
      var i := |obstacles|;
      while i > 0
        invariant 0 <= i <= |initial|
        invariant obstacles == initial[..i] + Survivors(initial[i..], frameCount, currentSpeed, sin)
        invariant lastSpawnFrame == old(lastSpawnFrame)
      {
        i := i - 1;
        ghost var rest := Survivors(initial[i + 1..], frameCount, currentSpeed, sin);
        SurvivorsStep(initial, i, frameCount, currentSpeed, sin);
        SpliceDrop(initial, i, rest, obstacles);
        var obstacle := Behave(obstacles[i], frameCount, sin);
        obstacle := obstacle.(x := obstacle.x - currentSpeed);
        assert obstacle == Moved(initial[i], frameCount, currentSpeed, sin);
        if obstacle.x + obstacle.width < 0.0 {
          obstacles := obstacles[..i] + obstacles[i + 1..];
        } else {
          SpliceKeep(initial, i, rest, obstacles, obstacle);
          obstacles := obstacles[i := obstacle];
        }
      }
      assert initial[0..] == initial;
    }

    method SpawnObstacle(d: ObstacleDice)
      requires FairDice(d)
      modifies this
      ensures obstacles == old(obstacles) + [Spawned(d)] && lastSpawnFrame == old(lastSpawnFrame)
    {
      var obstacle: Obstacle;
      match ObstacleKinds[(d.kind * 5.0).Floor] {
        case Chimney => obstacle := CreateChimney();
        case Snowman => obstacle := CreateSnowman();
        case Tree => obstacle := CreateTree();
        case Cloud => obstacle := CreateCloud(d.y);
        case WindGust => obstacle := CreateWindGust(d.y, d.force);
      }
      obstacles := obstacles + [obstacle];
    }

    /** The first overlapping gust decides the force. */
    method ApplyWindForce(playerBounds: Box) returns (force: real)
      requires Valid()
      ensures force == WindForceOf(obstacles, playerBounds)
      ensures force in {-2.0, 0.0, 2.0}
    {
      WindForceCases(obstacles, playerBounds);
      var i := 0;
      while i < |obstacles|
        invariant 0 <= i <= |obstacles|
        invariant WindForceOf(obstacles[i..], playerBounds) == WindForceOf(obstacles, playerBounds)
      {
        assert obstacles[i..][1..] == obstacles[i + 1..];
        var obstacle := obstacles[i];
        if obstacle.kind == WindGust {
          if Overlaps(playerBounds, BoxOf(obstacle)) {
            return obstacle.force;
          }
        }
        i := i + 1;
      }
      return 0.0;
    }

    method Clear()
      modifies this
      ensures State() == ObstacleState([], 0) && Valid()
    {
      obstacles := [];
      lastSpawnFrame := 0;
    }
  }
}
