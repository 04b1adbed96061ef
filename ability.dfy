/**
 * The player ability (abilityManager.js): ready, then active for a fixed number of updates once
 * activated, then cooling down for 600 updates before it is ready again.
 */
module Ability {
  import Config

  datatype AbilityKind = Dash | Shield | SlowTime

  /** The fields of an `AbilityManager` that the simulation reads. */
  datatype AbilityState = AbilityState(
    kind: AbilityKind,
    cooldownTimer: int,
    activeTimer: int,
    isActive: bool)

  /** A new manager carries a dash. */
  const InitialAbility := AbilityState(Dash, 0, 0, false)

  function DurationOf(kind: AbilityKind): int
  {
    match kind
    case Dash => Config.DashDuration
    case Shield => Config.ShieldAbilityDuration
    case SlowTime => Config.SlowTimeDuration
  }

  ghost predicate AbilityInv(s: AbilityState)
  {
    && (s.isActive <==> s.activeTimer > 0)
    && (s.isActive ==> s.cooldownTimer == 0)
    && 0 <= s.cooldownTimer <= Config.AbilityCooldown
    && 0 <= s.activeTimer <= DurationOf(s.kind)
  }

  /** `isReady`. */
  predicate IsReady(s: AbilityState)
  {
    s.cooldownTimer == 0 && !s.isActive
  }

  /** Whether `activateAbility` goes through (and reports a use to the `useAbility10` goal). */
  predicate CanActivate(s: AbilityState)
  {
    !(s.cooldownTimer > 0 || s.isActive)
  }

  /** `activateAbility`. */
  function Activated(s: AbilityState): AbilityState
  {
    if !CanActivate(s) then s
    else s.(isActive := true, activeTimer := DurationOf(s.kind))
  }

  /** `deactivateAbility`. */
  function Deactivated(s: AbilityState): AbilityState
  {
    s.(isActive := false, activeTimer := 0, cooldownTimer := Config.AbilityCooldown)
  }

  /** `update`: the cooldown drops first, then the active timer, deactivating at zero. */
  function AbilityUpdate(s: AbilityState): AbilityState
  {
    var cooled := if s.cooldownTimer > 0 then s.(cooldownTimer := s.cooldownTimer - 1) else s;
    if !cooled.isActive then cooled
    else
      var t := cooled.(activeTimer := cooled.activeTimer - 1);
      if t.activeTimer <= 0 then Deactivated(t) else t
  }

  function AbilityRun(s: AbilityState, n: nat): AbilityState
    decreases n
  {
    if n == 0 then s else AbilityRun(AbilityUpdate(s), n - 1)
  }

  /** `getAbilityEffects`. */
  datatype AbilityEffects = AbilityEffects(speedMultiplier: real, hasShield: bool, timeSlowFactor: real)

  function EffectsOf(s: AbilityState): AbilityEffects
  {
    if !s.isActive then AbilityEffects(1.0, false, 1.0)
    else match s.kind
      case Dash => AbilityEffects(Config.DashSpeedBoost, false, 1.0)
      case Shield => AbilityEffects(1.0, true, 1.0)
      case SlowTime => AbilityEffects(1.0, false, Config.SlowTimeFactor)
  }

  // ---------------------------------------------------------------------------------------------
  // Properties

  lemma AbilityUpdateKeepsInv(s: AbilityState)
    requires AbilityInv(s)
    ensures AbilityInv(AbilityUpdate(s))
  {
  }

  lemma ActivatedKeepsInv(s: AbilityState)
    requires AbilityInv(s)
    ensures AbilityInv(Activated(s))
  {
  }

  lemma DeactivatedKeepsInv(s: AbilityState)
    requires AbilityInv(s)
    ensures AbilityInv(Deactivated(s))
  {
  }

  /** Activation is refused, changing nothing, during cooldown or while active; otherwise the
      ability becomes active for its kind's duration (30, 180 or 300 updates). */
  lemma ActivationSemantics(s: AbilityState)
    ensures !CanActivate(s) ==> Activated(s) == s
    ensures CanActivate(s) ==>
              var t := Activated(s);
              t.isActive && t.activeTimer == DurationOf(s.kind) && t.cooldownTimer == s.cooldownTimer
              && t.kind == s.kind
    ensures DurationOf(Dash) == 30 && DurationOf(Shield) == 180 && DurationOf(SlowTime) == 300
  {
  }

  /** For an invariant state the activation guard is exactly readiness. */
  lemma ReadyIffCanActivate(s: AbilityState)
    requires AbilityInv(s)
    ensures IsReady(s) <==> CanActivate(s)
  {
  }

  /** While active with `k` updates to spare, each update takes one off the active timer. */
  lemma {:induction false} ActivePhase(s: AbilityState, k: nat)
    requires AbilityInv(s) && s.isActive && k < s.activeTimer
    ensures AbilityRun(s, k) == s.(activeTimer := s.activeTimer - k)
    decreases k
  {
    if k > 0 {
      ActivePhase(AbilityUpdate(s), k - 1);
    }
  }

  /** While inactive, each update takes one off the cooldown until it is zero. */
  lemma {:induction false} CoolingPhase(s: AbilityState, k: nat)
    requires AbilityInv(s) && !s.isActive && k <= s.cooldownTimer
    ensures AbilityRun(s, k) == s.(cooldownTimer := s.cooldownTimer - k)
    decreases k
  {
    if k > 0 {
      CoolingPhase(AbilityUpdate(s), k - 1);
    }
  }

  lemma {:induction false} AbilityRunSplit(s: AbilityState, a: nat, b: nat)
    ensures AbilityRun(s, a + b) == AbilityRun(AbilityRun(s, a), b)
    decreases a
  {
    if a > 0 {
      AbilityRunSplit(AbilityUpdate(s), a - 1, b);
    }
  }

  /** After a successful activation the ability is not ready for the next `duration + 600`
      updates and is ready after exactly that many: 630 updates for a dash. */
  lemma ReadyAgainAfterCooldown(s: AbilityState, n: nat)
    requires AbilityInv(s) && IsReady(s)
    ensures var a := Activated(s);
            var full := DurationOf(s.kind) + Config.AbilityCooldown;
            (n < full ==> !IsReady(AbilityRun(a, n))) && (n == full ==> IsReady(AbilityRun(a, n)))
  {
    var a := Activated(s);
    var d := DurationOf(s.kind);
    if n < d {
      ActivePhase(a, n);
    } else {
      ActivePhase(a, d - 1);
      AbilityRunSplit(a, d - 1, 1);
      var off := AbilityRun(a, d);
      assert off == Deactivated(a.(activeTimer := 0)) by {
        assert AbilityRun(AbilityUpdate(AbilityRun(a, d - 1)), 0) == AbilityUpdate(AbilityRun(a, d - 1));
      }
      if n - d <= Config.AbilityCooldown {
        CoolingPhase(off, n - d);
        AbilityRunSplit(a, d, n - d);
      }
    }
  }

  /** For the dash specifically: 630 updates of unreadiness. */
  lemma DashReadyAfter630(s: AbilityState)
    requires AbilityInv(s) && IsReady(s) && s.kind == Dash
    ensures !IsReady(AbilityRun(Activated(s), 629)) && IsReady(AbilityRun(Activated(s), 630))
  {
    ReadyAgainAfterCooldown(s, 629);
    ReadyAgainAfterCooldown(s, 630);
  }

  /** The effect bundle is neutral while inactive and otherwise changes exactly the one field
      belonging to the kind. */
  lemma EffectsTable(s: AbilityState)
    ensures !s.isActive ==> EffectsOf(s) == AbilityEffects(1.0, false, 1.0)
    ensures EffectsOf(s).hasShield <==> s.isActive && s.kind == Shield
    ensures EffectsOf(s).timeSlowFactor < 1.0 <==> s.isActive && s.kind == SlowTime
    ensures EffectsOf(s).speedMultiplier > 1.0 <==> s.isActive && s.kind == Dash
    ensures s.isActive ==> EffectsOf(s) == (match s.kind
              case Dash => AbilityEffects(2.0, false, 1.0)
              case Shield => AbilityEffects(1.0, true, 1.0)
              case SlowTime => AbilityEffects(1.0, false, 0.4))
  {
  }

  // ---------------------------------------------------------------------------------------------
  // The manager object

  class AbilityManager {
    var abilityType: AbilityKind
    var cooldownTimer: int
    var activeTimer: int
    var isActive: bool

    function State(): AbilityState
      reads this
    {
      AbilityState(abilityType, cooldownTimer, activeTimer, isActive)
    }

    ghost predicate Valid()
      reads this
    {
      AbilityInv(State())
    }

    constructor ()
      ensures State() == InitialAbility && Valid()
    {
      abilityType := Dash;
      cooldownTimer := 0;
      activeTimer := 0;
      isActive := false;
    }

    method Update()
      requires Valid()
      modifies this
      ensures Valid()
      ensures State() == AbilityUpdate(old(State()))
    {
      AbilityUpdateKeepsInv(State());
      if cooldownTimer > 0 {
        cooldownTimer := cooldownTimer - 1;
      }
      if isActive {
        activeTimer := activeTimer - 1;
        if activeTimer <= 0 {
          DeactivateAbility();
        }
      }
    }

    /** Returns whether the activation went through, the use reported to the goals. */
    method ActivateAbility() returns (used: bool)
      requires Valid()
      modifies this
      ensures Valid()
      ensures State() == Activated(old(State()))
      ensures used == CanActivate(old(State()))
    {
      ActivatedKeepsInv(State());
      if cooldownTimer > 0 || isActive {
        return false;
      }
      isActive := true;
      used := true;
      match abilityType {
        case Dash => activeTimer := Config.DashDuration;
        case Shield => activeTimer := Config.ShieldAbilityDuration;
        case SlowTime => activeTimer := Config.SlowTimeDuration;
      }
    }

    method DeactivateAbility()
      modifies this
      ensures State() == Deactivated(old(State()))
      ensures old(Valid()) ==> Valid()
    {
      isActive := false;
      activeTimer := 0;
      cooldownTimer := Config.AbilityCooldown;
    }

    function GetAbilityEffects(): (e: AbilityEffects)
      reads this
      ensures e == EffectsOf(State())
    {
      EffectsOf(State())
    }

    function IsReadyNow(): (ready: bool)
      reads this
      ensures ready <==> IsReady(State())
    {
      cooldownTimer == 0 && !isActive
    }
  }
}
