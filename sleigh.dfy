/**
 * Santa's sleigh (player.js): smoothed vertical motion under the up/down keys and the wind,
 * clamped to the canvas, with a lean angle and a boost trail left while dashing.
 */
module Sleigh {
  import opened Support
  import opened Geometry
  import Config

  /** One boost-trail particle. */
  datatype Particle = Particle(x: real, y: real, life: real)

  /** The fields of a `Player` that `update` and `reset` touch (the size never changes). */
  datatype SleighState = SleighState(
    x: real,
    y: real,
    velocityY: real,
    leanAngle: real,
    boostTrail: seq<Particle>,
    up: bool,
    down: bool)

  const InitialSleigh := SleighState(Config.PlayerStartX, Config.PlayerStartY, 0.0, 0.0, [], false, false)

  /** The lowest top edge the sleigh can have. */
  const MaxY: real := Config.CanvasHeight - Config.PlayerHeight

  ghost predicate SleighInv(s: SleighState)
  {
    && 0.0 <= s.y <= MaxY
    && -0.3 <= s.leanAngle <= 0.3
    && forall i :: 0 <= i < |s.boostTrail| ==> 0.0 < s.boostTrail[i].life <= 1.0
  }

  /** The wind push, applied before the keys are read. */
  function Winded(velocityY: real, windForce: real): real
  {
    if windForce != 0.0 then velocityY + windForce * 0.3 else velocityY
  }

  /** The velocity after the key handling; up wins when both keys are held. */
  function SteeredVelocity(v: real, up: bool, down: bool, acceleration: real, targetSpeed: real): real
  {
    if up then Max(v - acceleration * 2.0, -targetSpeed)
    else if down then Min(v + acceleration * 2.0, targetSpeed)
    else if v > 0.0 then Max(0.0, v - acceleration)
    else if v < 0.0 then Min(0.0, v + acceleration)
    else v
  }

  /** The lean after the key handling: it tilts by 0.1 towards the held key, up to 0.3, and
      otherwise returns towards level by 0.05. */
  function SteeredLean(lean: real, up: bool, down: bool): real
  {
    if up then Max(lean - 0.1, -0.3)
    else if down then Min(lean + 0.1, 0.3)
    else if lean > 0.0 then Max(0.0, lean - 0.05)
    else if lean < 0.0 then Min(0.0, lean + 0.05)
    else lean
  }

  /** One particle-loop iteration. */
  function Faded1(p: Particle): Particle
  {
    p.(x := p.x - 3.0, life := p.life - 0.1)
  }

  /** The trail after the particle loop, in its original order. */
  function Faded(t: seq<Particle>): (r: seq<Particle>)
    ensures |r| <= |t|
    ensures forall i :: 0 <= i < |r| ==> r[i].life > 0.0
  {
    if t == [] then []
    else (if Faded1(t[0]).life <= 0.0 then [] else [Faded1(t[0])]) + Faded(t[1..])
  }

  /** The particle a dashing update leaves, behind the sleigh at mid-height. */
  function NewParticle(x: real, y: real): Particle
  {
    Particle(x - 10.0, y + Config.PlayerHeight / 2.0, 1.0)
  }

  /** `update(speedMultiplier, windForce, isDashing)`. */
  function SleighUpdate(s: SleighState, speedMultiplier: real, windForce: real, isDashing: bool): SleighState
  {
    var targetSpeed := Config.PlayerVerticalSpeed * speedMultiplier;
    var acceleration := Config.PlayerAcceleration * speedMultiplier;
    var v := SteeredVelocity(Winded(s.velocityY, windForce), s.up, s.down, acceleration, targetSpeed);
    var lean := SteeredLean(s.leanAngle, s.up, s.down);
    var (y2, v2) := Clamped(s.y + v, v);
    var trail := if isDashing then s.boostTrail + [NewParticle(s.x, y2)] else s.boostTrail;
    s.(y := y2, velocityY := v2, leanAngle := lean, boostTrail := Faded(trail))
  }

  /** The position and velocity after the bounds check, top edge first. */
  function Clamped(y: real, v: real): (real, real)
  {
    var (y1, v1) := if y < 0.0 then (0.0, 0.0) else (y, v);
    if y1 > MaxY then (MaxY, 0.0) else (y1, v1)
  }

  /** The sleigh's collision box. */
  function BoundsOf(s: SleighState): Box
  {
    Box(s.x, s.y, Config.PlayerWidth, Config.PlayerHeight)
  }

  /** `reset`: the lean angle and the trail are kept. */
  function SleighReset(s: SleighState): SleighState
  {
    s.(x := Config.PlayerStartX, y := Config.PlayerStartY, velocityY := 0.0, up := false, down := false)
  }

  /** `n` particle loops. */
  function FadeTimes(t: seq<Particle>, n: nat): seq<Particle>
    decreases n
  {
    if n == 0 then t else FadeTimes(Faded(t), n - 1)
  }

  // ---------------------------------------------------------------------------------------------
  // Properties

  /** Fading never raises a particle's life. */
  lemma {:induction false} FadedLivesBelow(t: seq<Particle>, bound: real)
    requires forall i :: 0 <= i < |t| ==> t[i].life <= bound
    ensures forall i :: 0 <= i < |Faded(t)| ==> Faded(t)[i].life <= bound
  {
    if t != [] {
      FadedLivesBelow(t[1..], bound);
    }
  }

  lemma SleighUpdateKeepsInv(s: SleighState, m: real, w: real, d: bool)
    requires SleighInv(s)
    ensures SleighInv(SleighUpdate(s, m, w, d))
  {
    var t := SleighUpdate(s, m, w, d);
    var trail := if d then s.boostTrail + [NewParticle(s.x, t.y)] else s.boostTrail;
    FadedLivesBelow(trail, 1.0);
  }

  /** After an update the sleigh is on the canvas, 0 <= y <= 560; when the move would have left
      it, the sleigh sits on the edge with zero velocity, and otherwise it moved by exactly its
      new velocity. */
  lemma ClampSemantics(s: SleighState, m: real, w: real, d: bool)
    ensures var t := SleighUpdate(s, m, w, d);
            var v := SteeredVelocity(Winded(s.velocityY, w), s.up, s.down,
                                     Config.PlayerAcceleration * m, Config.PlayerVerticalSpeed * m);
            && 0.0 <= t.y <= 560.0
            && (s.y + v < 0.0 ==> t.y == 0.0 && t.velocityY == 0.0)
            && (s.y + v > 560.0 ==> t.y == 560.0 && t.velocityY == 0.0)
            && (0.0 <= s.y + v <= 560.0 ==> t.y == s.y + v && t.velocityY == v)
  {
  }

  /** With up held the velocity never falls below the upward target speed 4·m; with only down
      held it never exceeds the downward one. */
  lemma HeldKeyBoundsVelocity(s: SleighState, m: real, w: real, d: bool)
    requires m >= 0.0
    ensures var t := SleighUpdate(s, m, w, d);
            && (s.up ==> t.velocityY >= -4.0 * m)
            && (!s.up && s.down ==> t.velocityY <= 4.0 * m)
  {
  }

  /** With no key held the (wind-pushed) velocity moves towards zero by the acceleration 0.15·m
      without crossing it. */
  lemma CoastingTowardZero(v: real, m: real)
    requires m >= 0.0
    ensures var a := Config.PlayerAcceleration * m;
            var r := SteeredVelocity(v, false, false, a, Config.PlayerVerticalSpeed * m);
            && (v >= 0.0 ==> 0.0 <= r <= v && (v >= a ==> r == v - a) && (v < a ==> r == 0.0))
            && (v <= 0.0 ==> v <= r <= 0.0 && (-v >= a ==> r == v + a) && (-v < a ==> r == 0.0))
  {
  }

  /** The wind acts before the keys: an update under a gust of force `w` is an update without
      wind from a velocity already raised by 0.3 · w. */
  lemma WindComesFirst(s: SleighState, m: real, w: real, d: bool)
    ensures SleighUpdate(s, m, w, d) == SleighUpdate(s.(velocityY := s.velocityY + 0.3 * w), m, 0.0, d)
  {
  }

  /** The lean starts and stays in [-0.3, 0.3]; a held key moves it by 0.1 towards its side. */
  lemma LeanSemantics(lean: real, up: bool, down: bool)
    requires -0.3 <= lean <= 0.3
    ensures var r := SteeredLean(lean, up, down);
            && -0.3 <= r <= 0.3
            && (up ==> r == Max(lean - 0.1, -0.3) && r <= lean)
            && (!up && down ==> r == Min(lean + 0.1, 0.3) && r >= lean)
            && (!up && !down ==> (lean >= 0.0 ==> 0.0 <= r <= lean) && (lean <= 0.0 ==> lean <= r <= 0.0))
  {
  }

  lemma {:induction false} FadedAppend(a: seq<Particle>, b: seq<Particle>)
    ensures Faded(a + b) == Faded(a) + Faded(b)
    decreases |a|
  {
    if a == [] {
      assert a + b == b;
    } else {
      assert (a + b)[1..] == a[1..] + b;
      FadedAppend(a[1..], b);
    }
  }

  /** The particle loop on a suffix: the aged head, if it is still alive, before the rest. */
  lemma FadedStep(t: seq<Particle>, i: nat)
    requires i < |t|
    ensures Faded(t[i..]) == (if Faded1(t[i]).life <= 0.0 then [] else [Faded1(t[i])]) + Faded(t[i + 1..])
  {
    assert t[i..][1..] == t[i + 1..];
  }

  /** A dashing update leaves exactly one new particle at the end of the trail, already faded
      once, and the older particles fade as in any other update. */
  lemma DashLeavesParticle(s: SleighState, m: real, w: real)
    ensures var t := SleighUpdate(s, m, w, true);
            t.boostTrail == Faded(s.boostTrail) + [Particle(s.x - 13.0, t.y + 20.0, 0.9)]
    ensures SleighUpdate(s, m, w, false).boostTrail == Faded(s.boostTrail)
  {
    var t := SleighUpdate(s, m, w, true);
    FadedAppend(s.boostTrail, [NewParticle(s.x, t.y)]);
    assert Faded([NewParticle(s.x, t.y)]) == [Particle(s.x - 13.0, t.y + 20.0, 0.9)] by {
      assert [NewParticle(s.x, t.y)][1..] == [];
    }
  }

  /** A lone particle fades by 0.1 and moves 3 left per update while its life stays positive. */
  lemma {:induction false} FadeTimesSingle(p: Particle, n: nat)
    requires p.life - 0.1 * n as real > 0.0
    ensures FadeTimes([p], n) == [p.(x := p.x - 3.0 * n as real, life := p.life - 0.1 * n as real)]
    decreases n
  {
    if n > 0 {
      assert [p][1..] == [];
      assert Faded([p]) == [Faded1(p)];
      FadeTimesSingle(Faded1(p), n - 1);
    }
  }

  /** A trail particle is alive after nine fades, counting the one in its own update, and is
      removed on the tenth. */
  lemma ParticleLifetime(x: real, y: real)
    ensures |FadeTimes([NewParticle(x, y)], 9)| == 1
    ensures FadeTimes([NewParticle(x, y)], 10) == []
  {
    var p := NewParticle(x, y);
    FadeTimesSingle(p, 9);
    var q := p.(x := p.x - 27.0, life := 0.1);
    assert FadeTimes([p], 9) == [q];
    assert [q][1..] == [];
    assert Faded([q]) == [];
    assert FadeTimes([q], 1) == [];
    FadeTimesSplit([p], 9, 1);
  }

  lemma {:induction false} FadeTimesSplit(t: seq<Particle>, a: nat, b: nat)
    ensures FadeTimes(t, a + b) == FadeTimes(FadeTimes(t, a), b)
    decreases a
  {
    if a > 0 {
      FadeTimesSplit(Faded(t), a - 1, b);
    }
  }

  /** `reset` puts the sleigh back at (100, 300), at rest and with no key held. */
  lemma ResetSemantics(s: SleighState)
    requires SleighInv(s)
    ensures var t := SleighReset(s);
            t.x == 100.0 && t.y == 300.0 && t.velocityY == 0.0 && !t.up && !t.down
            && t.leanAngle == s.leanAngle && t.boostTrail == s.boostTrail && SleighInv(t)
  {
  }

  // ---------------------------------------------------------------------------------------------
  // The player object

  class Player {
    var x: real
    var y: real
    const width: real := Config.PlayerWidth
    const height: real := Config.PlayerHeight
    var velocityY: real
    var leanAngle: real
    var boostTrail: seq<Particle>
    var up: bool
    var down: bool

    function State(): SleighState
      reads this
    {
      SleighState(x, y, velocityY, leanAngle, boostTrail, up, down)
    }

    ghost predicate Valid()
      reads this
    {
      SleighInv(State())
    }

    constructor ()
      ensures State() == InitialSleigh && Valid()
    {
      x := Config.PlayerStartX;
      y := Config.PlayerStartY;
      velocityY := 0.0;
      leanAngle := 0.0;
      boostTrail := [];
      up := false;
      down := false;
    }

    /** The net effect of the key listeners: which of the two keys is held. */
    method SetKeys(upHeld: bool, downHeld: bool)
      modifies this
      ensures State() == old(State()).(up := upHeld, down := downHeld)
    {
      up := upHeld;
      down := downHeld;
    }

    method Update(speedMultiplier: real, windForce: real, isDashing: bool)
      requires Valid()
      modifies this
      ensures Valid()
      ensures State() == SleighUpdate(old(State()), speedMultiplier, windForce, isDashing)
    {
      SleighUpdateKeepsInv(State(), speedMultiplier, windForce, isDashing);
      Steer(speedMultiplier, windForce);
      y := y + velocityY;
      ClampToCanvas();
      if isDashing {
        boostTrail := boostTrail + [Particle(x - 10.0, y + height / 2.0, 1.0)];
      }
      FadeTrail();
    }

    /** The wind push and the key handling at the head of `update`. */
    method Steer(speedMultiplier: real, windForce: real)
      modifies this
      ensures State() == old(State()).(
                velocityY := SteeredVelocity(Winded(old(velocityY), windForce), up, down,
                                             Config.PlayerAcceleration * speedMultiplier,
                                             Config.PlayerVerticalSpeed * speedMultiplier),
                leanAngle := SteeredLean(old(leanAngle), up, down))
    {
      var targetSpeed := Config.PlayerVerticalSpeed * speedMultiplier;
      var acceleration := Config.PlayerAcceleration * speedMultiplier;
      if windForce != 0.0 {
        velocityY := velocityY + windForce * 0.3;
      }
      if up {
        velocityY := Max(velocityY - acceleration * 2.0, -targetSpeed);
        leanAngle := Max(leanAngle - 0.1, -0.3);
      } else if down {
        velocityY := Min(velocityY + acceleration * 2.0, targetSpeed);
        leanAngle := Min(leanAngle + 0.1, 0.3);
      } else {
        if velocityY > 0.0 {
          velocityY := Max(0.0, velocityY - acceleration);
        } else if velocityY < 0.0 {
          velocityY := Min(0.0, velocityY + acceleration);
        }
        if leanAngle > 0.0 {
          leanAngle := Max(0.0, leanAngle - 0.05);
        } else if leanAngle < 0.0 {
          leanAngle := Min(0.0, leanAngle + 0.05);
        }
      }
    }

    /** The bounds check of `update`. */
    method ClampToCanvas()
      modifies this
      ensures State() == old(State()).(y := Clamped(old(y), old(velocityY)).0,
                                       velocityY := Clamped(old(y), old(velocityY)).1)
    {
      var minY := 0.0;
      var maxY := Config.CanvasHeight - height;
      if y < minY {
        y := minY;
        velocityY := 0.0;
      }
      if y > maxY {
        y := maxY;
        velocityY := 0.0;
      }
    }

    /** The backwards particle loop: age every particle, splicing out the spent ones. */
    method FadeTrail()
      modifies this
      ensures State() == old(State()).(boostTrail := Faded(old(boostTrail)))
    {
      ghost var initial := boostTrail;
      var trail := boostTrail;
      var i := |trail|;
      while i > 0
        invariant 0 <= i <= |initial|
        invariant trail == initial[..i] + Faded(initial[i..])
        invariant unchanged(this)
      {
        i := i - 1;
        ghost var rest := Faded(initial[i + 1..]);
        FadedStep(initial, i);
        SpliceDrop(initial, i, rest, trail);
        var particle := trail[i];
        particle := particle.(x := particle.x - 3.0);
        particle := particle.(life := particle.life - 0.1);
        assert particle == Faded1(initial[i]);
        if particle.life <= 0.0 {
          trail := trail[..i] + trail[i + 1..];
        } else {
          SpliceKeep(initial, i, rest, trail, particle);
          trail := trail[i := particle];
        }
      }
      assert initial[0..] == initial;
      boostTrail := trail;
    }

    /** The collision box: the sleigh's 60×40 rectangle, which lies on the canvas. */
    function GetBounds(): (b: Box)
      reads this
      ensures b == BoundsOf(State())
      ensures Valid() ==> 0.0 <= b.y && b.y + b.height <= Config.CanvasHeight
    {
      Box(x, y, width, height)
    }

    method Reset()
      modifies this
      ensures State() == SleighReset(old(State()))
      ensures old(Valid()) ==> Valid()
    {
      x := Config.PlayerStartX;
      y := Config.PlayerStartY;
      velocityY := 0.0;
      up := false;
      down := false;
    }
  }
}
