/**
 * The collectible engine (collectibles.js): gifts and power-ups enter at the right edge, drift
 * left while bobbing, and are dropped once fully off the left edge or when picked up.
 */
module Collectibles {
  import Config
  import Session
  import opened Geometry
  import opened Support

  datatype CollectibleKind = Gift | PowerUpItem(power: Session.PowerUpKind)

  /** One collectible record; `id` only phases the bobbing. */
  datatype Collectible = Collectible(
    kind: CollectibleKind,
    x: real,
    y: real,
    width: real,
    height: real,
    id: real)

  function BoxOf(c: Collectible): Box
  {
    Box(c.x, c.y, c.width, c.height)
  }

  /** The random draws of one update: the spawn roll, the kind, the height and the id. */
  datatype CollectibleDice = CollectibleDice(spawn: real, kind: real, y: real, id: real)

  predicate FairDice(d: CollectibleDice)
  {
    0.0 <= d.spawn < 1.0 && 0.0 <= d.kind < 1.0 && 0.0 <= d.y < 1.0 && 0.0 <= d.id < 1.0
  }

  /** The fields of a `CollectibleManager`. */
  datatype CollectibleState = CollectibleState(collectibles: seq<Collectible>, lastSpawnFrame: int)

  /** The candidate kinds and their weights, in the order the cumulative loop visits them. */
  const KindTable: seq<CollectibleKind> :=
    [Gift, PowerUpItem(Session.SlowMotion), PowerUpItem(Session.Shield), PowerUpItem(Session.DoubleScore)]
  const Weights: seq<real> := [0.6, 0.15, 0.15, 0.1]

  /** The cumulative-weight search from entry `i`, with the weights before `i` summing to
      `cumulative`; the default is a gift. */
  function PickFrom(rand: real, i: nat, cumulative: real): CollectibleKind
    requires i <= |KindTable|
    decreases |KindTable| - i
  {
    if i == |KindTable| then Gift
    else if rand < cumulative + Weights[i] then KindTable[i]
    else PickFrom(rand, i + 1, cumulative + Weights[i])
  }

  /** The kind each stretch of the unit interval stands for. */
  function KindFor(rand: real): CollectibleKind
  {
    if rand < 0.6 then Gift
    else if rand < 0.75 then PowerUpItem(Session.SlowMotion)
    else if rand < 0.9 then PowerUpItem(Session.Shield)
    else if rand < 1.0 then PowerUpItem(Session.DoubleScore)
    else Gift
  }

  /** One iteration of the movement loop. */
  function Drifted(c: Collectible, frameCount: nat, speed: real, sin: real -> real): Collectible
  {
    c.(x := c.x - speed, y := c.y + sin(frameCount as real * 0.1 + c.id) * 0.5)
  }

  predicate OffScreen(c: Collectible)
  {
    c.x + c.width < 0.0
  }

  /** The collectibles left by the movement loop, in their original order. */
  function Survivors(s: seq<Collectible>, frameCount: nat, speed: real, sin: real -> real): (r: seq<Collectible>)
    ensures |r| <= |s|
    ensures forall i :: 0 <= i < |r| ==> !OffScreen(r[i])
  {
    if s == [] then []
    else
      var m := Drifted(s[0], frameCount, speed, sin);
      (if OffScreen(m) then [] else [m]) + Survivors(s[1..], frameCount, speed, sin)
  }

  /** The collectible `spawnCollectible` creates. */
  function Spawned(d: CollectibleDice): Collectible
  {
    var minY := 50.0;
    var maxY := Config.CanvasHeight - Config.GiftHeight - 50.0;
    Collectible(KindFor(d.kind), Config.CanvasWidth, d.y * (maxY - minY) + minY,
                Config.GiftWidth, Config.GiftHeight, d.id * 1000.0)
  }

  predicate SpawnGate(lastSpawnFrame: int, frameCount: nat, spawnMultiplier: real, roll: real)
  {
    frameCount - lastSpawnFrame >= Config.GiftMinSpawnInterval && roll < Config.GiftSpawnRate * spawnMultiplier
  }

  /** `update`. */
  function CollectibleUpdate(s: CollectibleState, frameCount: nat, speedMultiplier: real,
                             spawnMultiplier: real, sin: real -> real, d: CollectibleDice): CollectibleState
  {
    var moved := Survivors(s.collectibles, frameCount, Config.GiftSpeed * speedMultiplier, sin);
    if SpawnGate(s.lastSpawnFrame, frameCount, spawnMultiplier, d.spawn) then
      CollectibleState(moved + [Spawned(d)], frameCount)
    else CollectibleState(moved, s.lastSpawnFrame)
  }

  /** The index `indexOf` finds, or -1. */
  function IndexOf(s: seq<Collectible>, c: Collectible): (i: int)
    ensures -1 <= i < |s|
    ensures i == -1 <==> c !in s
    ensures i >= 0 ==> s[i] == c && c !in s[..i]
  {
    if s == [] then -1
    else if s[0] == c then 0
    else
      var j := IndexOf(s[1..], c);
      assert j >= 0 ==> s[1..][..j] == s[1..j + 1];
      if j == -1 then -1 else j + 1
  }

  /** `removeCollectible`: drop the first occurrence, if any. */
  function RemoveFirst(s: seq<Collectible>, c: Collectible): seq<Collectible>
  {
    var i := IndexOf(s, c);
    if i > -1 then s[..i] + s[i + 1..] else s
  }

  // ---------------------------------------------------------------------------------------------
  // Properties

  /** The cumulative-weight loop picks by the intervals [0, 0.6), [0.6, 0.75), [0.75, 0.9) and
      [0.9, 1), and falls back to a gift above them. */
  lemma PickMatchesIntervals(rand: real)
    ensures PickFrom(rand, 0, 0.0) == KindFor(rand)
  {
    assert PickFrom(rand, 4, 1.0) == Gift;
    assert PickFrom(rand, 3, 0.9) == (if rand < 1.0 then PowerUpItem(Session.DoubleScore) else Gift);
    assert PickFrom(rand, 2, 0.75) == (if rand < 0.9 then PowerUpItem(Session.Shield) else PickFrom(rand, 3, 0.9));
  }

  /** Each update moves every collectible left by exactly the speed and up or down by at most
      0.5. */
  lemma DriftBounds(c: Collectible, f: nat, speed: real, sin: real -> real)
    requires forall t :: -1.0 <= sin(t) <= 1.0
    ensures var m := Drifted(c, f, speed, sin);
            m.x == c.x - speed && c.y - 0.5 <= m.y <= c.y + 0.5
            && m.kind == c.kind && m.width == c.width && m.id == c.id
  {
  }

  /** The movement loop distributes over concatenation, so it keeps the relative order. */
  lemma {:induction false} SurvivorsAppend(a: seq<Collectible>, b: seq<Collectible>, f: nat, speed: real, sin: real -> real)
    ensures Survivors(a + b, f, speed, sin) == Survivors(a, f, speed, sin) + Survivors(b, f, speed, sin)
    decreases |a|
  {
    if a == [] {
      assert a + b == b;
    } else {
      assert (a + b)[1..] == a[1..] + b;
      SurvivorsAppend(a[1..], b, f, speed, sin);
    }
  }

  /** Peeling off the collectible at index `i`, the step the backwards loop takes. */
  lemma SurvivorsStep(s: seq<Collectible>, i: nat, f: nat, speed: real, sin: real -> real)
    requires i < |s|
    ensures var m := Drifted(s[i], f, speed, sin);
            Survivors(s[i..], f, speed, sin)
            == (if OffScreen(m) then [] else [m]) + Survivors(s[i + 1..], f, speed, sin)
  {
    assert s[i..][1..] == s[i + 1..];
  }

  /** One update spawns at most one collectible, exactly when the gate opens; it is appended at
      the right edge, 30 by 30, at a height in [50, 520); the last spawn frame moves only then. */
  lemma UpdateSpawnSemantics(s: CollectibleState, f: nat, m: real, sm: real, sin: real -> real,
                             d: CollectibleDice)
    requires FairDice(d)
    ensures var t := CollectibleUpdate(s, f, m, sm, sin, d);
            var moved := Survivors(s.collectibles, f, Config.GiftSpeed * m, sin);
            && (SpawnGate(s.lastSpawnFrame, f, sm, d.spawn) ==>
                  t.collectibles == moved + [Spawned(d)] && t.lastSpawnFrame == f)
            && (!SpawnGate(s.lastSpawnFrame, f, sm, d.spawn) ==>
                  t.collectibles == moved && t.lastSpawnFrame == s.lastSpawnFrame)
            && |t.collectibles| <= |s.collectibles| + 1
    ensures var c := Spawned(d);
            c.x == 800.0 && 50.0 <= c.y < 520.0 && c.width == 30.0 && c.height == 30.0
            && 0.0 <= c.id < 1000.0 && c.kind == KindFor(d.kind)
  {
  }

  /** Removing a collectible that is not there changes nothing; otherwise exactly its first
      occurrence goes and the others keep their order. */
  lemma RemoveFirstSemantics(s: seq<Collectible>, c: Collectible)
    ensures c !in s ==> RemoveFirst(s, c) == s
    ensures c in s ==>
              var i := IndexOf(s, c);
              && RemoveFirst(s, c) == s[..i] + s[i + 1..]
              && |RemoveFirst(s, c)| == |s| - 1
              && multiset(RemoveFirst(s, c)) == multiset(s) - multiset{c}
              && c !in s[..i]
  {
    if c in s {
      var i := IndexOf(s, c);
      assert s == s[..i] + [s[i]] + s[i + 1..];
      assert multiset(s) == multiset(s[..i]) + multiset{c} + multiset(s[i + 1..]);
    }
  }

  /** When every collectible is distinct, removing one leaves none like it. */
  lemma RemoveDistinct(s: seq<Collectible>, c: Collectible)
    requires forall i, j :: 0 <= i < j < |s| ==> s[i] != s[j]
    ensures c !in RemoveFirst(s, c)
  {
    if c in s {
      var i := IndexOf(s, c);
      assert c !in s[i + 1..];
    }
  }

  // ---------------------------------------------------------------------------------------------
  // The manager object

  /** The type-choice loop at the head of `spawnCollectible`. */
  method PickType(rand: real) returns (kind: CollectibleKind)
    ensures kind == KindFor(rand)
  {
    var cumulative := 0.0;
    kind := Gift;
    var i := 0;
    while i < |KindTable|
      invariant 0 <= i <= |KindTable|
      invariant PickFrom(rand, i, cumulative) == PickFrom(rand, 0, 0.0)
    {
      cumulative := cumulative + Weights[i];
      if rand < cumulative {
        kind := KindTable[i];
        break;
      }
      i := i + 1;
    }
    PickMatchesIntervals(rand);
  }

  class CollectibleManager {
    var collectibles: seq<Collectible>
    var lastSpawnFrame: int

    function State(): CollectibleState
      reads this
    {
      CollectibleState(collectibles, lastSpawnFrame)
    }

    constructor ()
      ensures State() == CollectibleState([], 0)
    {
      collectibles := [];
      lastSpawnFrame := 0;
    }

    method Update(frameCount: nat, speedMultiplier: real, spawnMultiplier: real, sin: real -> real,
                  d: CollectibleDice)
      requires FairDice(d)
      modifies this
      ensures State() == CollectibleUpdate(old(State()), frameCount, speedMultiplier, spawnMultiplier, sin, d)
    {
      var currentSpeed := Config.GiftSpeed * speedMultiplier;
      MoveCollectibles(frameCount, currentSpeed, sin);
      var framesSinceLastSpawn := frameCount - lastSpawnFrame;
      var adjustedSpawnRate := Config.GiftSpawnRate * spawnMultiplier;
      if framesSinceLastSpawn >= Config.GiftMinSpawnInterval && d.spawn < adjustedSpawnRate {
        SpawnCollectible(d);
        lastSpawnFrame := frameCount;
      }
    }

    /** The backwards loop of `update`: move every collectible, splicing out those off screen. */
    method MoveCollectibles(frameCount: nat, currentSpeed: real, sin: real -> real)
      modifies this
      ensures collectibles == Survivors(old(collectibles), frameCount, currentSpeed, sin)
      ensures lastSpawnFrame == old(lastSpawnFrame)
    {
      ghost var initial := collectibles;
      var i := |collectibles|;
      while i > 0
        invariant 0 <= i <= |initial|
        invariant collectibles == initial[..i] + Survivors(initial[i..], frameCount, currentSpeed, sin)
        invariant lastSpawnFrame == old(lastSpawnFrame)
      {
        i := i - 1;
        ghost var rest := Survivors(initial[i + 1..], frameCount, currentSpeed, sin);
        SurvivorsStep(initial, i, frameCount, currentSpeed, sin);
        SpliceDrop(initial, i, rest, collectibles);
        var collectible := collectibles[i];
        collectible := collectible.(x := collectible.x - currentSpeed);
        collectible := collectible.(y := collectible.y + sin(frameCount as real * 0.1 + collectible.id) * 0.5);
        assert collectible == Drifted(initial[i], frameCount, currentSpeed, sin);
        if collectible.x + collectible.width < 0.0 {
          collectibles := collectibles[..i] + collectibles[i + 1..];
        } else {
          SpliceKeep(initial, i, rest, collectibles, collectible);
          collectibles := collectibles[i := collectible];
        }
      }
      assert initial[0..] == initial;
    }

    method SpawnCollectible(d: CollectibleDice)
      modifies this
      ensures collectibles == old(collectibles) + [Spawned(d)] && lastSpawnFrame == old(lastSpawnFrame)
    {
      var kind := PickType(d.kind);
      var minY := 50.0;
      var maxY := Config.CanvasHeight - Config.GiftHeight - 50.0;
      var y := d.y * (maxY - minY) + minY;
      var collectible := Collectible(kind, Config.CanvasWidth, y, Config.GiftWidth, Config.GiftHeight,
                                     d.id * 1000.0);
      assert collectible == Spawned(d);
      collectibles := collectibles + [collectible];
    }

    method RemoveCollectible(collectible: Collectible)
      modifies this
      ensures collectibles == RemoveFirst(old(collectibles), collectible)
      ensures lastSpawnFrame == old(lastSpawnFrame)
    {
      var index := -1;
      var i := 0;
      while i < |collectibles|
        invariant 0 <= i <= |collectibles|
        invariant collectible !in collectibles[..i]
      {
        if collectibles[i] == collectible {
          index := i;
          break;
        }
        assert collectibles[..i + 1] == collectibles[..i] + [collectibles[i]];
        i := i + 1;
      }
      assert index == -1 ==> collectibles[..i] == collectibles;
      assert index == IndexOf(collectibles, collectible) by {
        if index > -1 {
          IndexOfFirst(collectibles, collectible, index);
        }
      }
      if index > -1 {
        collectibles := collectibles[..index] + collectibles[index + 1..];
      }
    }

    method Clear()
      modifies this
      ensures State() == CollectibleState([], 0)
    {
      collectibles := [];
      lastSpawnFrame := 0;
    }
  }

  /** The first index holding `c` is the one `IndexOf` returns. */
  lemma IndexOfFirst(s: seq<Collectible>, c: Collectible, i: nat)
    requires i < |s| && s[i] == c && c !in s[..i]
    ensures IndexOf(s, c) == i
  {
  }
}
