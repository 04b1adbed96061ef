/**
 * Pacing moments (momentManager.js): a snowstorm, speed burst or gift rush triggers at random
 * once the frame counter passes a scheduled frame and the cooldown is over, lasts a fixed number
 * of updates, and is followed by a 300-update cooldown.
 */
module Moment {
  import Config
  import opened Support

  datatype MomentKind = Snowstorm | SpeedBurst | GiftRush

  /** The three kinds in the order the random index picks them from. */
  const MomentKinds: seq<MomentKind> := [Snowstorm, SpeedBurst, GiftRush]

  /** Updates of cooldown after a moment ends. */
  const MomentCooldown: int := 300

  /** The fields of a `MomentManager`; `active == None` is the source's `null`. */
  datatype MomentState = MomentState(
    active: Option<MomentKind>,
    momentTimer: int,
    momentDuration: int,
    nextMomentFrame: real,
    momentCooldown: int,
    snowstormSurvived: bool)

  const InitialMoment := MomentState(None, 0, 0, Config.MomentIntervalMin as real, 0, false)

  /** The two random draws a trigger makes: one for the kind, one for the interval. */
  datatype MomentDice = MomentDice(kind: real, interval: real)

  predicate FairDice(d: MomentDice)
  {
    0.0 <= d.kind < 1.0 && 0.0 <= d.interval < 1.0
  }

  function DurationOf(kind: MomentKind): int
  {
    match kind
    case Snowstorm => Config.SnowstormDuration
    case SpeedBurst => Config.SpeedBurstDuration
    case GiftRush => Config.GiftRushDuration
  }

  /** The kind picked by `moments[Math.floor(r * 3)]`. */
  function KindOf(r: real): (k: MomentKind)
    requires 0.0 <= r < 1.0
    ensures k == Snowstorm <==> r < 1.0 / 3.0
    ensures k == GiftRush <==> r >= 2.0 / 3.0
  {
    MomentKinds[(r * 3.0).Floor]
  }

  ghost predicate MomentInv(s: MomentState)
  {
    && 0 <= s.momentCooldown <= MomentCooldown
    && Config.MomentIntervalMin as real <= s.nextMomentFrame < Config.MomentIntervalMax as real
    && (s.active.None? ==> s.momentTimer == 0)
    && (s.active.Some? ==>
          s.momentCooldown == 0 && s.momentDuration == DurationOf(s.active.value)
          && 0 <= s.momentTimer < s.momentDuration)
  }

  /** `triggerRandomMoment`. The next frame is the just-reset moment timer (always 0) plus the
      interval, not the current frame plus the interval. */
  function MomentTrigger(s: MomentState, d: MomentDice): MomentState
    requires FairDice(d)
  {
    var kind := KindOf(d.kind);
    var interval := Config.MomentIntervalMin as real
                    + d.interval * (Config.MomentIntervalMax - Config.MomentIntervalMin) as real;
    s.(active := Some(kind), momentTimer := 0, momentDuration := DurationOf(kind),
       nextMomentFrame := 0 as real + interval)
  }

  /** `endMoment`. */
  function MomentEnd(s: MomentState): MomentState
  {
    s.(snowstormSurvived := s.snowstormSurvived || s.active == Some(Snowstorm),
       active := None, momentTimer := 0, momentCooldown := MomentCooldown)
  }

  /** Phase 1 of `update`: count the active moment up, ending it at its duration. */
  function TickMoment(s: MomentState): MomentState
  {
    if s.active.None? then s
    else
      var t := s.(momentTimer := s.momentTimer + 1);
      if t.momentTimer >= t.momentDuration then MomentEnd(t) else t
  }

  /** The guard of phase 2 of `update`. */
  predicate MayTrigger(s: MomentState, frameCount: nat)
  {
    s.active.None? && frameCount as real >= s.nextMomentFrame && s.momentCooldown <= 0
  }

  /** `update` for the given frame count and random draws. */
  function MomentUpdate(s: MomentState, frameCount: nat, d: MomentDice): MomentState
    requires FairDice(d)
  {
    var ticked := TickMoment(s);
    var triggered := if MayTrigger(ticked, frameCount) then MomentTrigger(ticked, d) else ticked;
    if triggered.momentCooldown > 0 then triggered.(momentCooldown := triggered.momentCooldown - 1)
    else triggered
  }

  /** Whether this update ends a snowstorm, the event forwarded to the `surviveSnowstorm` goal. */
  predicate EndsSnowstorm(s: MomentState)
  {
    s.active == Some(Snowstorm) && s.momentTimer + 1 >= s.momentDuration
  }

  /** Consecutive updates at frame counts `frameCount`, `frameCount + 1`, ..., one per draw. */
  function MomentRun(s: MomentState, frameCount: nat, dice: seq<MomentDice>): MomentState
    requires forall i :: 0 <= i < |dice| ==> FairDice(dice[i])
    decreases |dice|
  {
    if dice == [] then s else MomentRun(MomentUpdate(s, frameCount, dice[0]), frameCount + 1, dice[1..])
  }

  /** `getMomentEffects`. */
  datatype MomentEffects = MomentEffects(
    visibility: real,
    screenShake: real,
    obstacleSpawnMultiplier: real,
    giftSpawnMultiplier: real,
    speedMultiplier: real,
    scoreMultiplier: real)

  function EffectsOf(active: Option<MomentKind>): MomentEffects
  {
    match active
    case None => MomentEffects(1.0, 0.0, 1.0, 1.0, 1.0, 1.0)
    case Some(Snowstorm) => MomentEffects(0.5, 1.0, 0.7, 0.5, 1.0, 1.2)
    case Some(SpeedBurst) => MomentEffects(1.0, 0.5, 1.0, 1.0, 1.5, 1.5)
    case Some(GiftRush) => MomentEffects(1.0, 0.0, 0.5, 3.0, 1.0, 1.0)
  }

  // ---------------------------------------------------------------------------------------------
  // Properties

  lemma MomentUpdateKeepsInv(s: MomentState, frameCount: nat, d: MomentDice)
    requires MomentInv(s) && FairDice(d)
    ensures MomentInv(MomentUpdate(s, frameCount, d))
  {
  }

  /** A moment starts in an update exactly when none was active after the tick, the frame has
      reached the scheduled frame and the cooldown is over. */
  lemma TriggerExactlyOnGuard(s: MomentState, frameCount: nat, d: MomentDice)
    requires MomentInv(s) && FairDice(d) && s.active.None?
    ensures MomentUpdate(s, frameCount, d).active.Some? <==> MayTrigger(s, frameCount)
  {
  }

  /** A trigger picks the kind from the draw, resets the timer, sets the kind's duration (300, 360
      or 420) and schedules the next moment at an absolute frame in [900, 1800). */
  lemma TriggerSemantics(s: MomentState, d: MomentDice)
    requires FairDice(d)
    ensures var t := MomentTrigger(s, d);
            && t.active == Some(KindOf(d.kind)) && t.momentTimer == 0
            && t.momentDuration == DurationOf(KindOf(d.kind))
            && (t.momentDuration == 300 || t.momentDuration == 360 || t.momentDuration == 420)
            && 900.0 <= t.nextMomentFrame < 1800.0
            && t.momentCooldown == s.momentCooldown
  {
  }

  /** Because the next frame is scheduled without the current frame as offset, every frame
      count from 1800 on passes the frame part of the trigger guard. */
  lemma LateFramesAlwaysPassFrameGate(s: MomentState, frameCount: nat)
    requires MomentInv(s) && frameCount >= Config.MomentIntervalMax
    ensures frameCount as real >= s.nextMomentFrame
  {
  }

  /** `endMoment` clears the moment, starts the cooldown, and raises the survived flag exactly
      when the moment ending is a snowstorm (or the flag was already up). */
  lemma EndSemantics(s: MomentState)
    ensures var t := MomentEnd(s);
            t.active.None? && t.momentTimer == 0 && t.momentCooldown == 300
            && (t.snowstormSurvived <==> s.snowstormSurvived || s.active == Some(Snowstorm))
  {
  }

  /** While a moment is active and not yet due, each update advances its timer by one. */
  lemma {:induction false} ActiveMomentCountsUp(s: MomentState, frameCount: nat, dice: seq<MomentDice>)
    requires MomentInv(s) && s.active.Some? && s.momentTimer + |dice| < s.momentDuration
    requires forall i :: 0 <= i < |dice| ==> FairDice(dice[i])
    ensures MomentRun(s, frameCount, dice) == s.(momentTimer := s.momentTimer + |dice|)
    decreases |dice|
  {
    if dice != [] {
      ActiveMomentCountsUp(MomentUpdate(s, frameCount, dice[0]), frameCount + 1, dice[1..]);
    }
  }

  /** A moment just triggered is still active after `momentDuration - 1` further updates (so it
      has been seen active after `momentDuration` updates counting the triggering one), and the
      next update ends it, starting the cooldown with one tick already taken. */
  lemma MomentLastsItsDuration(s: MomentState, frameCount: nat, dice: seq<MomentDice>, last: MomentDice)
    requires MomentInv(s) && s.active.Some? && s.momentTimer == 0
    requires |dice| == s.momentDuration - 1 && FairDice(last)
    requires forall i :: 0 <= i < |dice| ==> FairDice(dice[i])
    ensures MomentRun(s, frameCount, dice).active == s.active
    ensures var r := MomentRun(s, frameCount, dice);
            var e := MomentUpdate(r, frameCount + |dice|, last);
            e.active.None? && e.momentTimer == 0 && e.momentCooldown == MomentCooldown - 1
            && (e.snowstormSurvived <==> s.snowstormSurvived || s.active == Some(Snowstorm))
  {
    ActiveMomentCountsUp(s, frameCount, dice);
  }

  /** While cooling down with no moment active, nothing triggers and the cooldown drops by one
      per update. */
  lemma {:induction false} CooldownBlocksTrigger(s: MomentState, frameCount: nat, dice: seq<MomentDice>)
    requires MomentInv(s) && s.active.None? && |dice| <= s.momentCooldown
    requires forall i :: 0 <= i < |dice| ==> FairDice(dice[i])
    ensures MomentRun(s, frameCount, dice) == s.(momentCooldown := s.momentCooldown - |dice|)
    decreases |dice|
  {
    if dice != [] {
      CooldownBlocksTrigger(MomentUpdate(s, frameCount, dice[0]), frameCount + 1, dice[1..]);
    }
  }

  /** After the update that ends a moment, the next 299 updates trigger nothing, so no moment
      starts earlier than 300 updates after the ending update. */
  lemma NoMomentDuringCooldown(s: MomentState, frameCount: nat, d: MomentDice, dice: seq<MomentDice>)
    requires MomentInv(s) && s.active.Some? && s.momentTimer + 1 == s.momentDuration && FairDice(d)
    requires |dice| == MomentCooldown - 1
    requires forall i :: 0 <= i < |dice| ==> FairDice(dice[i])
    ensures var e := MomentUpdate(s, frameCount, d);
            e.active.None? && MomentRun(e, frameCount + 1, dice).active.None?
            && MomentRun(e, frameCount + 1, dice).momentCooldown == 0
  {
    CooldownBlocksTrigger(MomentUpdate(s, frameCount, d), frameCount + 1, dice);
  }

  /** The effect table: all neutral with no moment; visibility drops below 1 exactly during a
      snowstorm; every multiplier is positive. */
  lemma EffectsTable(active: Option<MomentKind>)
    ensures active.None? ==> EffectsOf(active) == MomentEffects(1.0, 0.0, 1.0, 1.0, 1.0, 1.0)
    ensures EffectsOf(active).visibility < 1.0 <==> active == Some(Snowstorm)
    ensures var e := EffectsOf(active);
            e.obstacleSpawnMultiplier > 0.0 && e.giftSpawnMultiplier > 0.0
            && e.speedMultiplier > 0.0 && e.scoreMultiplier > 0.0
  {
  }

  // ---------------------------------------------------------------------------------------------
  // The manager object

  class MomentManager {
    var activeMoment: Option<MomentKind>
    var momentTimer: int
    var momentDuration: int
    var nextMomentFrame: real
    var momentCooldown: int
    var snowstormSurvived: bool

    function State(): MomentState
      reads this
    {
      MomentState(activeMoment, momentTimer, momentDuration, nextMomentFrame, momentCooldown,
                  snowstormSurvived)
    }

    ghost predicate Valid()
      reads this
    {
      MomentInv(State())
    }

    constructor ()
      ensures State() == InitialMoment && Valid()
    {
      activeMoment := None;
      momentTimer := 0;
      momentDuration := 0;
      nextMomentFrame := Config.MomentIntervalMin as real;
      momentCooldown := 0;
      snowstormSurvived := false;
    }

    /** Returns whether a snowstorm ended in this update. */
    method Update(frameCount: nat, d: MomentDice) returns (snowstormEnded: bool)
      requires Valid() && FairDice(d)
      modifies this
      ensures Valid()
      ensures State() == MomentUpdate(old(State()), frameCount, d)
      ensures snowstormEnded == EndsSnowstorm(old(State()))
    {
      MomentUpdateKeepsInv(State(), frameCount, d);
      snowstormEnded := false;
      if activeMoment.Some? {
        momentTimer := momentTimer + 1;
        if momentTimer >= momentDuration {
          snowstormEnded := EndMoment();
        }
      }
      if activeMoment.None? && frameCount as real >= nextMomentFrame && momentCooldown <= 0 {
        TriggerRandomMoment(d);
      }
      if momentCooldown > 0 {
        momentCooldown := momentCooldown - 1;
      }
    }

    method TriggerRandomMoment(d: MomentDice)
      requires FairDice(d)
      modifies this
      ensures State() == MomentTrigger(old(State()), d)
    {
      var moment := MomentKinds[(d.kind * 3.0).Floor];
      activeMoment := Some(moment);
      momentTimer := 0;
      match moment {
        case Snowstorm => momentDuration := Config.SnowstormDuration;
        case SpeedBurst => momentDuration := Config.SpeedBurstDuration;
        case GiftRush => momentDuration := Config.GiftRushDuration;
      }
      var interval := Config.MomentIntervalMin as real
                      + d.interval * (Config.MomentIntervalMax - Config.MomentIntervalMin) as real;
      nextMomentFrame := momentTimer as real + interval;
    }

    /** Returns whether the moment ending is a snowstorm. */
    method EndMoment() returns (snowstormEnded: bool)
      modifies this
      ensures State() == MomentEnd(old(State()))
      ensures snowstormEnded == (old(activeMoment) == Some(Snowstorm))
    {
      snowstormEnded := activeMoment == Some(Snowstorm);
      if snowstormEnded {
        snowstormSurvived := true;
      }
      activeMoment := None;
      momentTimer := 0;
      momentCooldown := MomentCooldown;
    }

    function GetMomentEffects(): (e: MomentEffects)
      reads this
      ensures e == EffectsOf(activeMoment)
    {
      EffectsOf(activeMoment)
    }
  }
}
