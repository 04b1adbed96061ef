/**
 * The run goals and unlockables (goalsManager.js): five counted goals, each of which unlocks one
 * cosmetic item when its progress reaches its target, and an equipped slot per category that only
 * accepts unlocked items.
 */
module Goals {
  import opened Support

  datatype Category = SleighColors | SantaHats | Backgrounds

  /** One value per unlockable category (the source's per-category dictionaries). */
  datatype PerCategory<T> = PerCategory(sleighColors: T, santaHats: T, backgrounds: T)
  {
    function Get(c: Category): T
    {
      match c
      case SleighColors => sleighColors
      case SantaHats => santaHats
      case Backgrounds => backgrounds
    }

    function Set(c: Category, v: T): (r: PerCategory<T>)
      ensures r.Get(c) == v && forall d :: d != c ==> r.Get(d) == Get(d)
    {
      match c
      case SleighColors => this.(sleighColors := v)
      case SantaHats => this.(santaHats := v)
      case Backgrounds => this.(backgrounds := v)
    }
  }

  datatype Goal = Goal(id: string, name: string, progress: real, target: real, completed: bool)

  datatype GoalsState = GoalsState(
    goals: seq<Goal>,
    unlocked: PerCategory<seq<string>>,
    equipped: PerCategory<string>)

  const InitialGoals: seq<Goal> := [
    Goal("deliver10", "Deliver 10 Gifts", 0.0, 10.0, false),
    Goal("surviveSnowstorm", "Survive a Snowstorm", 0.0, 1.0, false),
    Goal("collect3Gold", "Collect 3 Gold Presents", 0.0, 3.0, false),
    Goal("score5000", "Score 5000 Points", 0.0, 5000.0, false),
    Goal("useAbility10", "Use Ability 10 Times", 0.0, 10.0, false)]

  const InitialUnlocked := PerCategory(["default"], ["default"], ["default"])
  const InitialEquipped := PerCategory("default", "default", "default")

  predicate NoDuplicates(s: seq<string>)
  {
    forall i, j :: 0 <= i < j < |s| ==> s[i] != s[j]
  }

  /** Progress within target, no unlocked item listed twice, "default" always unlocked, and
      only unlocked items equipped. */
  ghost predicate GoalsInv(s: GoalsState)
  {
    && (forall i :: 0 <= i < |s.goals| ==> s.goals[i].progress <= s.goals[i].target)
    && (forall c: Category :: NoDuplicates(s.unlocked.Get(c)) && "default" in s.unlocked.Get(c))
    && (forall c: Category :: s.equipped.Get(c) in s.unlocked.Get(c))
  }

  /** The index `find` stops at, or -1. */
  function FindGoal(goals: seq<Goal>, id: string): (i: int)
    ensures -1 <= i < |goals|
    ensures i == -1 <==> forall j :: 0 <= j < |goals| ==> goals[j].id != id
    ensures i >= 0 ==> goals[i].id == id && forall j :: 0 <= j < i ==> goals[j].id != id
  {
    if goals == [] then -1
    else if goals[0].id == id then 0
    else
      var j := FindGoal(goals[1..], id);
      if j == -1 then -1 else j + 1
  }

  /** The item `completeGoal` unlocks for a goal id; other ids unlock nothing. */
  function Reward(id: string): Option<(Category, string)>
  {
    if id == "deliver10" then Some((SleighColors, "gold"))
    else if id == "surviveSnowstorm" then Some((SantaHats, "elf"))
    else if id == "collect3Gold" then Some((SleighColors, "silver"))
    else if id == "score5000" then Some((Backgrounds, "night"))
    else if id == "useAbility10" then Some((SantaHats, "reindeer"))
    else None
  }

  /** `unlock`: append the item unless the category already lists it. */
  function Unlocking(u: PerCategory<seq<string>>, c: Category, item: string): PerCategory<seq<string>>
  {
    if item in u.Get(c) then u else u.Set(c, u.Get(c) + [item])
  }

  /** `completeGoal`. */
  function CompleteGoal(u: PerCategory<seq<string>>, id: string): PerCategory<seq<string>>
  {
    match Reward(id)
    case None => u
    case Some((c, item)) => Unlocking(u, c, item)
  }

  /** `updateGoal(goalId, amount)`. */
  function GoalUpdated(s: GoalsState, id: string, amount: real): GoalsState
  {
    var i := FindGoal(s.goals, id);
    if i == -1 || s.goals[i].completed then s
    else
      var g := s.goals[i];
      var progress := Min(g.progress + amount, g.target);
      var done := progress >= g.target;
      s.(goals := s.goals[i := g.(progress := progress, completed := done)],
         unlocked := if done then CompleteGoal(s.unlocked, g.id) else s.unlocked)
  }

  /** `equip(category, item)`: whether it went through, and the new state. */
  function Equipped(s: GoalsState, c: Category, item: string): (bool, GoalsState)
  {
    if item in s.unlocked.Get(c) then (true, s.(equipped := s.equipped.Set(c, item)))
    else (false, s)
  }

  /** The check at the end of `loadEquipped`: an item no longer unlocked falls back to "default". */
  function Validated(e: PerCategory<string>, u: PerCategory<seq<string>>): PerCategory<string>
  {
    PerCategory(
      if e.sleighColors in u.sleighColors then e.sleighColors else "default",
      if e.santaHats in u.santaHats then e.santaHats else "default",
      if e.backgrounds in u.backgrounds then e.backgrounds else "default")
  }

  /** The saved slots laid over the current ones, as the object spread does. */
  function Merged(e: PerCategory<string>, saved: PerCategory<Option<string>>): PerCategory<string>
  {
    PerCategory(
      if saved.sleighColors.Some? then saved.sleighColors.value else e.sleighColors,
      if saved.santaHats.Some? then saved.santaHats.value else e.santaHats,
      if saved.backgrounds.Some? then saved.backgrounds.value else e.backgrounds)
  }

  /** The number of completed goals. */
  function CountCompleted(goals: seq<Goal>): (n: nat)
    ensures n <= |goals|
  {
    if goals == [] then 0 else (if goals[0].completed then 1 else 0) + CountCompleted(goals[1..])
  }

  // ---------------------------------------------------------------------------------------------
  // Properties

  /** Unlocking lists the item, changes no other category, and a second unlock changes nothing. */
  lemma UnlockSemantics(u: PerCategory<seq<string>>, c: Category, item: string)
    ensures item in Unlocking(u, c, item).Get(c)
    ensures forall d :: d != c ==> Unlocking(u, c, item).Get(d) == u.Get(d)
    ensures Unlocking(Unlocking(u, c, item), c, item) == Unlocking(u, c, item)
    ensures item in u.Get(c) ==> Unlocking(u, c, item) == u
    ensures item !in u.Get(c) ==> Unlocking(u, c, item).Get(c) == u.Get(c) + [item]
  {
  }

  /** Unlocking never lists an item twice and never drops one. */
  lemma UnlockKeepsNoDuplicates(u: PerCategory<seq<string>>, c: Category, item: string)
    requires NoDuplicates(u.Get(c))
    ensures NoDuplicates(Unlocking(u, c, item).Get(c))
    ensures forall d, x :: x in u.Get(d) ==> x in Unlocking(u, c, item).Get(d)
  {
  }

  lemma CompleteGoalKeepsInv(s: GoalsState, id: string)
    requires GoalsInv(s)
    ensures GoalsInv(s.(unlocked := CompleteGoal(s.unlocked, id)))
  {
    match Reward(id)
    case None =>
    case Some((c, item)) =>
      UnlockKeepsNoDuplicates(s.unlocked, c, item);
  }

  lemma GoalUpdatedKeepsInv(s: GoalsState, id: string, amount: real)
    requires GoalsInv(s)
    ensures GoalsInv(GoalUpdated(s, id, amount))
  {
    var i := FindGoal(s.goals, id);
    if i != -1 && !s.goals[i].completed {
      CompleteGoalKeepsInv(s, s.goals[i].id);
    }
  }

  /** An unknown id or a completed goal leaves everything unchanged; otherwise only the first goal
      with that id changes: its progress becomes min(progress + amount, target), it completes
      exactly when that reaches the target, and completing unlocks the goal's one item. */
  lemma GoalUpdateSemantics(s: GoalsState, id: string, amount: real)
    ensures var i := FindGoal(s.goals, id);
            (i == -1 || s.goals[i].completed) ==> GoalUpdated(s, id, amount) == s
    ensures var i := FindGoal(s.goals, id);
            var t := GoalUpdated(s, id, amount);
            i != -1 && !s.goals[i].completed ==>
              && |t.goals| == |s.goals|
              && (forall j :: 0 <= j < |s.goals| && j != i ==> t.goals[j] == s.goals[j])
              && t.goals[i].progress == Min(s.goals[i].progress + amount, s.goals[i].target)
              && t.goals[i].progress <= s.goals[i].target
              && (t.goals[i].completed <==> s.goals[i].progress + amount >= s.goals[i].target)
              && t.goals[i].id == id && t.goals[i].target == s.goals[i].target
              && t.equipped == s.equipped
              && (t.goals[i].completed ==> t.unlocked == CompleteGoal(s.unlocked, id))
              && (!t.goals[i].completed ==> t.unlocked == s.unlocked)
  {
  }

  /** The reward table: each goal unlocks its one item in its one category. */
  lemma RewardTable()
    ensures Reward("deliver10") == Some((SleighColors, "gold"))
    ensures Reward("surviveSnowstorm") == Some((SantaHats, "elf"))
    ensures Reward("collect3Gold") == Some((SleighColors, "silver"))
    ensures Reward("score5000") == Some((Backgrounds, "night"))
    ensures Reward("useAbility10") == Some((SantaHats, "reindeer"))
    ensures forall g :: g in InitialGoals ==> Reward(g.id).Some?
  {
  }

  /** Replacing one goal moves the completed count by the change in that goal's flag. */
  lemma {:induction false} CountCompletedUpdate(goals: seq<Goal>, i: nat, g: Goal)
    requires i < |goals|
    ensures CountCompleted(goals[i := g])
            == CountCompleted(goals) - (if goals[i].completed then 1 else 0) + (if g.completed then 1 else 0)
    decreases i
  {
    if i > 0 {
      assert goals[i := g][1..] == goals[1..][i - 1 := g];
      CountCompletedUpdate(goals[1..], i - 1, g);
    }
  }

  /** An update raises the completed count by one exactly when it completes a goal. */
  lemma CompletedCountStep(s: GoalsState, id: string, amount: real)
    ensures var i := FindGoal(s.goals, id);
            var completes := i != -1 && !s.goals[i].completed
                             && s.goals[i].progress + amount >= s.goals[i].target;
            CountCompleted(GoalUpdated(s, id, amount).goals) == CountCompleted(s.goals) + (if completes then 1 else 0)
  {
    var i := FindGoal(s.goals, id);
    if i != -1 && !s.goals[i].completed {
      var g := s.goals[i];
      var p := Min(g.progress + amount, g.target);
      CountCompletedUpdate(s.goals, i, g.(progress := p, completed := p >= g.target));
    }
  }

  /** `equip` succeeds exactly for unlocked items, then `getEquipped` reads back the item from the
      same slot; a refused item changes nothing. */
  lemma EquipSemantics(s: GoalsState, c: Category, item: string)
    ensures var (ok, t) := Equipped(s, c, item);
            && (ok <==> item in s.unlocked.Get(c))
            && (ok ==> t.equipped.Get(c) == item && t.goals == s.goals && t.unlocked == s.unlocked
                       && forall d :: d != c ==> t.equipped.Get(d) == s.equipped.Get(d))
            && (!ok ==> t == s)
  {
  }

  /** After the load-time check every slot holds an unlocked item or "default", an unlocked item
      stays, and with "default" unlocked every slot is unlocked. */
  lemma ValidatedSemantics(e: PerCategory<string>, u: PerCategory<seq<string>>)
    ensures forall c :: Validated(e, u).Get(c) == (if e.Get(c) in u.Get(c) then e.Get(c) else "default")
    ensures (forall c :: "default" in u.Get(c)) ==> forall c :: Validated(e, u).Get(c) in u.Get(c)
    ensures Validated(Validated(e, u), u) == Validated(e, u)
  {
    assert forall c :: Validated(e, u).Get(c) == (if e.Get(c) in u.Get(c) then e.Get(c) else "default") by {
      forall c: Category
        ensures Validated(e, u).Get(c) == (if e.Get(c) in u.Get(c) then e.Get(c) else "default")
      {
        match c
        case SleighColors =>
        case SantaHats =>
        case Backgrounds =>
      }
    }
  }

  lemma InitialGoalsInv()
    ensures GoalsInv(GoalsState(InitialGoals, InitialUnlocked, InitialEquipped))
    ensures CountCompleted(InitialGoals) == 0
  {
    assert forall c: Category :: InitialUnlocked.Get(c) == ["default"] && InitialEquipped.Get(c) == "default";
  }

  // ---------------------------------------------------------------------------------------------
  // The manager object

  class GoalsManager {
    var goals: seq<Goal>
    var unlocked: PerCategory<seq<string>>
    var equipped: PerCategory<string>

    function State(): GoalsState
      reads this
    {
      GoalsState(goals, unlocked, equipped)
    }

    ghost predicate Valid()
      reads this
    {
      GoalsInv(State())
    }

    /** A fresh manager; the saved progress and equipment are loaded separately. */
    constructor ()
      ensures State() == GoalsState(InitialGoals, InitialUnlocked, InitialEquipped) && Valid()
    {
      goals := InitialGoals;
      unlocked := InitialUnlocked;
      equipped := InitialEquipped;
      InitialGoalsInv();
    }

    method UpdateGoal(goalId: string, amount: real)
      requires Valid()
      modifies this
      ensures Valid()
      ensures State() == GoalUpdated(old(State()), goalId, amount)
    {
      GoalUpdatedKeepsInv(State(), goalId, amount);
      var index := -1;
      var i := 0;
      while i < |goals|
        invariant 0 <= i <= |goals|
        invariant forall j :: 0 <= j < i ==> goals[j].id != goalId
      {
        if goals[i].id == goalId {
          index := i;
          break;
        }
        i := i + 1;
      }
      assert index == FindGoal(goals, goalId);
      if index != -1 && !goals[index].completed {
        var goal := goals[index];
        goal := goal.(progress := Min(goal.progress + amount, goal.target));
        if goal.progress >= goal.target {
          goal := goal.(completed := true);
          goals := goals[index := goal];
          CompleteGoalNow(goal.id);
        } else {
          goals := goals[index := goal];
        }
      }
    }

    method CompleteGoalNow(id: string)
      modifies this
      ensures State() == old(State()).(unlocked := CompleteGoal(old(unlocked), id))
    {
      if id == "deliver10" {
        Unlock(SleighColors, "gold");
      } else if id == "surviveSnowstorm" {
        Unlock(SantaHats, "elf");
      } else if id == "collect3Gold" {
        Unlock(SleighColors, "silver");
      } else if id == "score5000" {
        Unlock(Backgrounds, "night");
      } else if id == "useAbility10" {
        Unlock(SantaHats, "reindeer");
      }
    }

    method Unlock(category: Category, item: string)
      modifies this
      ensures State() == old(State()).(unlocked := Unlocking(old(unlocked), category, item))
    {
      if item !in unlocked.Get(category) {
        unlocked := unlocked.Set(category, unlocked.Get(category) + [item]);
      }
    }

    method GetCompletedCount() returns (count: nat)
      ensures count == CountCompleted(goals)
    {
      count := 0;
      var i := |goals|;
      while i > 0
        invariant 0 <= i <= |goals|
        invariant count == CountCompleted(goals[i..])
      {
        i := i - 1;
        assert goals[i..][1..] == goals[i + 1..];
        if goals[i].completed {
          count := count + 1;
        }
      }
      assert goals[0..] == goals;
    }

    method Equip(category: Category, item: string) returns (ok: bool)
      requires Valid()
      modifies this
      ensures Valid()
      ensures (ok, State()) == Equipped(old(State()), category, item)
    {
      if item in unlocked.Get(category) {
        equipped := equipped.Set(category, item);
        return true;
      }
      return false;
    }

    function GetEquipped(category: Category): (item: string)
      reads this
      ensures item == equipped.Get(category)
      ensures Valid() ==> item in unlocked.Get(category)
    {
      equipped.Get(category)
    }

    /** `loadEquipped` from already parsed data: merge, then reset anything not unlocked. */
    method LoadEquipped(saved: PerCategory<Option<string>>)
      requires Valid()
      modifies this
      ensures Valid()
      ensures State() == old(State()).(equipped := Validated(Merged(old(equipped), saved), unlocked))
    {
      equipped := Merged(equipped, saved);
      if equipped.sleighColors !in unlocked.sleighColors {
        equipped := equipped.(sleighColors := "default");
      }
      if equipped.santaHats !in unlocked.santaHats {
        equipped := equipped.(santaHats := "default");
      }
      if equipped.backgrounds !in unlocked.backgrounds {
        equipped := equipped.(backgrounds := "default");
      }
      ValidatedSemantics(Merged(old(equipped), saved), unlocked);
    }
  }
}
