/**
 * The run state, score and power-up timers (gameState.js): a run goes START -> PLAYING <->
 * PAUSED -> GAME_OVER; each power-up kind has its own on/off flag and frame timer.
 */
module Session {
  import opened Support
  import Config

  datatype RunState = Start | Playing | Paused | GameOver

  datatype PowerUpKind = SlowMotion | Shield | DoubleScore

  /** The kinds in the insertion order of the power-up dictionaries. */
  const PowerUpKinds: seq<PowerUpKind> := [SlowMotion, Shield, DoubleScore]

  /** A dictionary with exactly one entry per power-up kind, read and written by kind. */
  datatype PerKind<T> = PerKind(slowMotion: T, shield: T, doubleScore: T)
  {
    function Get(k: PowerUpKind): T
    {
      match k
      case SlowMotion => slowMotion
      case Shield => shield
      case DoubleScore => doubleScore
    }

    function Set(k: PowerUpKind, v: T): (r: PerKind<T>)
      ensures r.Get(k) == v
      ensures forall j :: j != k ==> r.Get(j) == Get(j)
    {
      match k
      case SlowMotion => this.(slowMotion := v)
      case Shield => this.(shield := v)
      case DoubleScore => this.(doubleScore := v)
    }
  }

  /** The duration each kind is meant to last (constants.js). */
  function PowerUpDuration(k: PowerUpKind): int
  {
    match k
    case SlowMotion => Config.SlowMotionDuration
    case Shield => Config.ShieldDuration
    case DoubleScore => Config.DoubleScoreDuration
  }

  /** The two dictionaries `activePowerUps` and `powerUpTimers`. */
  datatype PowerUps = PowerUps(active: PerKind<bool>, timers: PerKind<int>)

  const NoPowerUps := PowerUps(PerKind(false, false, false), PerKind(0, 0, 0))

  ghost predicate PowerUpsInv(p: PowerUps)
  {
    forall k :: (p.active.Get(k) <==> p.timers.Get(k) > 0) && 0 <= p.timers.Get(k) <= PowerUpDuration(k)
  }

  /** One entry of `updatePowerUps`: an active timer drops by one and switches off at zero. */
  function TickEntry(active: bool, timer: int): (bool, int)
  {
    if !active then (active, timer)
    else if timer - 1 <= 0 then (false, 0)
    else (true, timer - 1)
  }

  /** The body of the loop of `updatePowerUps`, applied to the entry of kind `k`. */
  function TickAt(p: PowerUps, k: PowerUpKind): PowerUps
  {
    var e := TickEntry(p.active.Get(k), p.timers.Get(k));
    PowerUps(p.active.Set(k, e.0), p.timers.Set(k, e.1))
  }

  /** The first `i` iterations of that loop. */
  function TickPrefix(p: PowerUps, i: nat): PowerUps
    requires i <= |PowerUpKinds|
  {
    if i == 0 then p else TickAt(TickPrefix(p, i - 1), PowerUpKinds[i - 1])
  }

  /** `updatePowerUps`: the whole loop. Each entry is ticked on its own, whatever the order. */
  function Ticked(p: PowerUps): (q: PowerUps)
    ensures forall k :: (q.active.Get(k), q.timers.Get(k)) == TickEntry(p.active.Get(k), p.timers.Get(k))
  {
    TickAt(TickAt(TickAt(p, SlowMotion), Shield), DoubleScore)
  }

  /** `activatePowerUp` with each kind's configured duration. */
  function Activated(p: PowerUps, k: PowerUpKind): PowerUps
  {
    PowerUps(p.active.Set(k, true), p.timers.Set(k, PowerUpDuration(k)))
  }

  /** What the collision code does to consume the power-up shield. */
  function ShieldCleared(p: PowerUps): PowerUps
  {
    PowerUps(p.active.Set(Shield, false), p.timers.Set(Shield, 0))
  }

  function TickedTimes(p: PowerUps, n: nat): PowerUps
    decreases n
  {
    if n == 0 then p else TickedTimes(Ticked(p), n - 1)
  }

  /** The fields of a `GameState` that the simulation reads and writes. */
  datatype SessionState = SessionState(
    runState: RunState,
    score: real,
    highScore: real,
    frameCount: nat,
    powerUps: PowerUps)

  /** `startGame` and `restartGame` (identical apart from the UI). */
  function AfterStart(s: SessionState): SessionState
  {
    s.(runState := Playing, score := 0.0, frameCount := 0, powerUps := NoPowerUps)
  }

  function AfterPause(s: SessionState): SessionState
  {
    if s.runState == Playing then s.(runState := Paused) else s
  }

  function AfterResume(s: SessionState): SessionState
  {
    if s.runState == Paused then s.(runState := Playing) else s
  }

  function AfterGameOver(s: SessionState): SessionState
  {
    s.(runState := GameOver, highScore := Max(s.highScore, s.score))
  }

  function ScoreMultiplier(p: PowerUps): real
  {
    if p.active.doubleScore then 2.0 else 1.0
  }

  /** `updateScore(points)`, with the time-based score (derived from the clock) given as an input. */
  function Scored(s: SessionState, points: real, timeScore: int): SessionState
  {
    var added := s.score + points * ScoreMultiplier(s.powerUps);
    s.(score := if s.runState == Playing then Max(added, timeScore as real) else added)
  }

  function FrameIncremented(s: SessionState): SessionState
  {
    if s.runState == Playing then s.(frameCount := s.frameCount + 1) else s
  }

  // ---------------------------------------------------------------------------------------------
  // Properties

  lemma TickedKeepsInv(p: PowerUps)
    requires PowerUpsInv(p)
    ensures PowerUpsInv(Ticked(p))
  {
  }

  lemma ActivatedKeepsInv(p: PowerUps, k: PowerUpKind)
    requires PowerUpsInv(p)
    ensures PowerUpsInv(Activated(p, k))
  {
  }

  lemma ShieldClearedKeepsInv(p: PowerUps)
    requires PowerUpsInv(p)
    ensures PowerUpsInv(ShieldCleared(p))
  {
  }

  lemma NoPowerUpsInv()
    ensures PowerUpsInv(NoPowerUps)
  {
  }

  /** A tick touches only the active kinds: they lose one frame, switching off with a zero timer
      on reaching zero; inactive kinds are left exactly as they were. */
  lemma TickSemantics(p: PowerUps, k: PowerUpKind)
    ensures var q := Ticked(p);
            && (!p.active.Get(k) ==> q.active.Get(k) == p.active.Get(k) && q.timers.Get(k) == p.timers.Get(k))
            && (p.active.Get(k) && p.timers.Get(k) <= 1 ==> !q.active.Get(k) && q.timers.Get(k) == 0)
            && (p.active.Get(k) && p.timers.Get(k) > 1 ==> q.active.Get(k) && q.timers.Get(k) == p.timers.Get(k) - 1)
  {
  }

  /** Activation changes kind `k` alone. */
  lemma ActivationTouchesOnlyItsKind(p: PowerUps, k: PowerUpKind, other: PowerUpKind)
    requires other != k
    ensures var q := Activated(p, k);
            q.active.Get(k) && q.timers.Get(k) == PowerUpDuration(k)
            && q.active.Get(other) == p.active.Get(other) && q.timers.Get(other) == p.timers.Get(other)
    ensures PowerUpDuration(SlowMotion) == 300 && PowerUpDuration(Shield) == 600
            && PowerUpDuration(DoubleScore) == 900
  {
  }

  /** Ticking commutes with activating another kind: the kinds' timers run independently. */
  lemma TimersAreIndependent(p: PowerUps, k: PowerUpKind, other: PowerUpKind)
    requires other != k
    ensures Ticked(Activated(p, k)).active.Get(other) == Ticked(p).active.Get(other)
    ensures Ticked(Activated(p, k)).timers.Get(other) == Ticked(p).timers.Get(other)
  {
  }

  /** With `t` frames left, an active kind stays active with its timer counting down for
      `t - 1` ticks. */
  lemma {:induction false} ActiveKindCountsDown(p: PowerUps, k: PowerUpKind, n: nat)
    requires p.active.Get(k) && n < p.timers.Get(k)
    ensures TickedTimes(p, n).active.Get(k) && TickedTimes(p, n).timers.Get(k) == p.timers.Get(k) - n
    decreases n
  {
    if n > 0 {
      ActiveKindCountsDown(Ticked(p), k, n - 1);
    }
  }

  lemma {:induction false} TickedTimesSplit(p: PowerUps, a: nat, b: nat)
    ensures TickedTimes(p, a + b) == TickedTimes(TickedTimes(p, a), b)
    decreases a
  {
    if a > 0 {
      TickedTimesSplit(Ticked(p), a - 1, b);
    }
  }

  /** A power-up activated now lasts exactly its duration: active after `duration - 1` ticks,
      off with a zero timer after `duration`. */
  lemma PowerUpLastsItsDuration(p: PowerUps, k: PowerUpKind)
    ensures var a := Activated(p, k);
            TickedTimes(a, PowerUpDuration(k) - 1).active.Get(k)
            && !TickedTimes(a, PowerUpDuration(k)).active.Get(k)
            && TickedTimes(a, PowerUpDuration(k)).timers.Get(k) == 0
  {
    var a := Activated(p, k);
    var d := PowerUpDuration(k);
    ActiveKindCountsDown(a, k, d - 1);
    TickedTimesSplit(a, d - 1, 1);
  }

  /** Start and restart give a fresh run: playing, score and frame zero, every power-up off. */
  lemma StartIsFresh(s: SessionState)
    ensures var t := AfterStart(s);
            t.runState == Playing && t.score == 0.0 && t.frameCount == 0 && t.highScore == s.highScore
            && PowerUpsInv(t.powerUps)
            && forall k :: !t.powerUps.active.Get(k) && t.powerUps.timers.Get(k) == 0
  {
  }

  /** Pausing acts only on a playing run and resuming only on a paused one. */
  lemma PauseResumeSemantics(s: SessionState)
    ensures AfterPause(s) != s <==> s.runState == Playing
    ensures AfterResume(s) != s <==> s.runState == Paused
    ensures s.runState == Playing ==> AfterResume(AfterPause(s)) == s
    ensures AfterPause(s).runState != Playing
  {
  }

  /** Game over keeps the best score: the new high score is at least both the old one and the
      final score, and equals one of them. */
  lemma GameOverKeepsBest(s: SessionState)
    ensures var t := AfterGameOver(s);
            t.runState == GameOver && t.score == s.score
            && t.highScore >= s.highScore && t.highScore >= s.score
            && (t.highScore == s.highScore || t.highScore == s.score)
  {
  }

  /** Points count twice under double score; while playing the time score is a floor on the
      total; the score never goes down for non-negative points. */
  lemma ScoredSemantics(s: SessionState, points: real, timeScore: int)
    ensures var t := Scored(s, points, timeScore);
            var gained := if s.powerUps.active.doubleScore then 2.0 * points else points;
            && t.score >= s.score + gained
            && (t.runState == Playing ==> t.score >= timeScore as real)
            && (s.runState == Playing ==> t.score == Max(s.score + gained, timeScore as real))
            && (s.runState != Playing ==> t.score == s.score + gained)
            && (points >= 0.0 ==> t.score >= s.score)
            && t.powerUps == s.powerUps && t.runState == s.runState
  {
  }

  /** The frame counter moves only during play. */
  lemma FrameIncrementedSemantics(s: SessionState)
    ensures FrameIncremented(s).frameCount == if s.runState == Playing then s.frameCount + 1 else s.frameCount
  {
  }

  /** `n` successive calls of `incrementFrame`. */
  function FramesIncremented(s: SessionState, n: nat): SessionState
    decreases n
  {
    if n == 0 then s else FramesIncremented(FrameIncremented(s), n - 1)
  }

  /** `n` frames of play advance the counter by exactly `n`; outside play it stays put; nothing
      but the counter changes. */
  lemma {:induction false} FramesIncrementedCount(s: SessionState, n: nat)
    ensures var t := FramesIncremented(s, n);
            && t.frameCount == (if s.runState == Playing then s.frameCount + n else s.frameCount)
            && t == s.(frameCount := t.frameCount)
    decreases n
  {
    if n > 0 {
      FramesIncrementedCount(FrameIncremented(s), n - 1);
    }
  }

  // ---------------------------------------------------------------------------------------------
  // The power-up duration lookup as written (gameState.js:165)

  /** The entries of the configuration table whose names end in `_DURATION` (constants.js). */
  const DurationEntries: map<string, int> := map[
    "SLOW_MOTION_DURATION" := 300, "SHIELD_DURATION" := 600, "DOUBLE_SCORE_DURATION" := 900,
    "ROUTE_DURATION" := 480, "DASH_DURATION" := 30, "SHIELD_ABILITY_DURATION" := 180,
    "SLOW_TIME_DURATION" := 300, "SNOWSTORM_DURATION" := 300, "SPEED_BURST_DURATION" := 360,
    "GIFT_RUSH_DURATION" := 420]

  /** The dictionary key of each kind. */
  function KeyName(k: PowerUpKind): string
  {
    match k
    case SlowMotion => "slowMotion"
    case Shield => "shield"
    case DoubleScore => "doubleScore"
  }

  predicate IsUpper(c: char) { 'A' <= c <= 'Z' }

  predicate IsLower(c: char) { 'a' <= c <= 'z' }

  /** `toUpperCase` on ASCII letters. */
  function Upper(s: string): (u: string)
    ensures |u| == |s|
    ensures forall i :: 0 <= i < |s| && IsLower(s[i]) ==> IsUpper(u[i])
  {
    if s == [] then []
    else [if IsLower(s[0]) then (s[0] as int - 32) as char else s[0]] + Upper(s[1..])
  }

  /** `replace(/([A-Z])/g, '_$1')`: an underscore before every capital letter. */
  function Underscored(s: string): (u: string)
    ensures |s| > 0 && IsUpper(s[0]) ==> |u| > 0 && u[0] == '_'
  {
    if s == [] then []
    else (if IsUpper(s[0]) then ['_', s[0]] else [s[0]]) + Underscored(s[1..])
  }

  /** The key the source builds from the kind's name. */
  function AsWrittenKey(k: PowerUpKind): string
  {
    Underscored(Upper(KeyName(k))) + "_DURATION"
  }

  /** A timer in the source's number semantics: looking up a missing key yields `undefined`, and
      decrementing it yields `NaN`, which compares false with everything. */
  datatype RawTimer = Frames(n: int) | NotANumber

  function AsWrittenDuration(k: PowerUpKind): RawTimer
  {
    var key := AsWrittenKey(k);
    if key in DurationEntries then Frames(DurationEntries[key]) else NotANumber
  }

  /** One entry of `updatePowerUps` in those semantics. */
  function RawTickEntry(active: bool, t: RawTimer): (bool, RawTimer)
  {
    if !active then (active, t)
    else
      var d := if t.Frames? then Frames(t.n - 1) else NotANumber;
      if d.Frames? && d.n <= 0 then (false, Frames(0)) else (true, d)
  }

  function RawTickedTimes(active: bool, t: RawTimer, n: nat): (bool, RawTimer)
    decreases n
  {
    if n == 0 then (active, t)
    else var e := RawTickEntry(active, t); RawTickedTimes(e.0, e.1, n - 1)
  }

  /** The key built at gameState.js:165 starts with an underscore, so no configuration entry
      matches it and the timer is not a number. */
  lemma AsWrittenKeyIsMissing(k: PowerUpKind)
    ensures AsWrittenKey(k)[0] == '_'
    ensures AsWrittenKey(k) !in DurationEntries
    ensures AsWrittenDuration(k) == NotANumber
  {
    var name := KeyName(k);
    assert IsLower(name[0]);
    var u := Upper(name);
    assert IsUpper(u[0]);
    var w := Underscored(u);
    assert w[0] == '_';
    var key := w + "_DURATION";
    assert key[0] == '_';
    NoEntryStartsWithUnderscore(key);
  }

  lemma NoEntryStartsWithUnderscore(key: string)
    requires |key| > 0 && key[0] == '_'
    ensures key !in DurationEntries
  {
  }

  /** As written, a collected power-up never runs out: it is still on after any number of
      updates. */
  lemma AsWrittenPowerUpNeverExpires(k: PowerUpKind, n: nat)
    ensures RawTickedTimes(true, AsWrittenDuration(k), n) == (true, NotANumber)
  {
    AsWrittenKeyIsMissing(k);
    NotANumberStaysOn(n);
  }

  lemma {:induction false} NotANumberStaysOn(n: nat)
    ensures RawTickedTimes(true, NotANumber, n) == (true, NotANumber)
    decreases n
  {
    if n > 0 {
      NotANumberStaysOn(n - 1);
    }
  }

  // ---------------------------------------------------------------------------------------------
  // The class

  class GameState {
    var currentState: RunState
    var score: real
    var highScore: real
    var frameCount: nat
    var activePowerUps: PerKind<bool>
    var powerUpTimers: PerKind<int>

    function State(): SessionState
      reads this
    {
      SessionState(currentState, score, highScore, frameCount, PowerUps(activePowerUps, powerUpTimers))
    }

    ghost predicate Valid()
      reads this
    {
      PowerUpsInv(PowerUps(activePowerUps, powerUpTimers))
    }

    /** The stored high score is loaded by the caller. */
    constructor (savedHighScore: real)
      ensures State() == SessionState(Start, 0.0, savedHighScore, 0, NoPowerUps) && Valid()
    {
      currentState := Start;
      score := 0.0;
      highScore := savedHighScore;
      frameCount := 0;
      activePowerUps := NoPowerUps.active;
      powerUpTimers := NoPowerUps.timers;
    }

    method StartGame()
      modifies this
      ensures State() == AfterStart(old(State())) && Valid()
    {
      currentState := Playing;
      score := 0.0;
      frameCount := 0;
      ResetPowerUps();
    }

    method RestartGame()
      modifies this
      ensures State() == AfterStart(old(State())) && Valid()
    {
      currentState := Playing;
      score := 0.0;
      frameCount := 0;
      ResetPowerUps();
    }

    method PauseGame()
      modifies this
      ensures State() == AfterPause(old(State()))
    {
      if currentState == Playing {
        currentState := Paused;
      }
    }

    method ResumeGame()
      modifies this
      ensures State() == AfterResume(old(State()))
    {
      if currentState == Paused {
        currentState := Playing;
      }
    }

    method GameOver()
      modifies this
      ensures State() == AfterGameOver(old(State()))
    {
      currentState := RunState.GameOver;
      if score > highScore {
        highScore := score;
      }
    }

    method UpdateScore(points: real, timeScore: int)
      modifies this
      ensures State() == Scored(old(State()), points, timeScore)
    {
      var multiplier := if activePowerUps.doubleScore then 2.0 else 1.0;
      score := score + points * multiplier;
      if currentState == Playing {
        score := Max(score, timeScore as real);
      }
    }

    method ActivatePowerUp(kind: PowerUpKind)
      modifies this
      ensures State() == old(State()).(powerUps := Activated(old(State()).powerUps, kind))
      ensures old(Valid()) ==> Valid()
    {
      activePowerUps := activePowerUps.Set(kind, true);
      powerUpTimers := powerUpTimers.Set(kind, PowerUpDuration(kind));
    }

    /** The loop over the dictionary entries, in insertion order. */
    method UpdatePowerUps()
      modifies this
      ensures State() == old(State()).(powerUps := Ticked(old(State()).powerUps))
      ensures old(Valid()) ==> Valid()
    {
      ghost var before := PowerUps(activePowerUps, powerUpTimers);
      var i := 0;
      while i < |PowerUpKinds|
        invariant 0 <= i <= |PowerUpKinds|
        invariant PowerUps(activePowerUps, powerUpTimers) == TickPrefix(before, i)
        invariant currentState == old(currentState) && score == old(score)
        invariant highScore == old(highScore) && frameCount == old(frameCount)
      {
        var key := PowerUpKinds[i];
        if activePowerUps.Get(key) {
          powerUpTimers := powerUpTimers.Set(key, powerUpTimers.Get(key) - 1);
          if powerUpTimers.Get(key) <= 0 {
            activePowerUps := activePowerUps.Set(key, false);
            powerUpTimers := powerUpTimers.Set(key, 0);
          }
        }
        i := i + 1;
      }
      assert TickPrefix(before, 1) == TickAt(before, SlowMotion);
      assert TickPrefix(before, 2) == TickAt(TickPrefix(before, 1), Shield);
      assert TickPrefix(before, 3) == TickAt(TickPrefix(before, 2), DoubleScore);
      if old(Valid()) {
        TickedKeepsInv(before);
      }
    }

    method ResetPowerUps()
      modifies this
      ensures State() == old(State()).(powerUps := NoPowerUps) && Valid()
    {
      activePowerUps := NoPowerUps.active;
      powerUpTimers := NoPowerUps.timers;
    }

    /** Consumes the power-up shield after it absorbed a hit. */
    method ClearShield()
      modifies this
      ensures State() == old(State()).(powerUps := ShieldCleared(old(State()).powerUps))
      ensures old(Valid()) ==> Valid()
    {
      activePowerUps := activePowerUps.Set(Shield, false);
      powerUpTimers := powerUpTimers.Set(Shield, 0);
    }

    /** Half speed exactly while slow motion is on. */
    function GetSpeedMultiplier(): (m: real)
      reads this
      ensures m == 0.5 <==> activePowerUps.slowMotion
      ensures m == 1.0 <==> !activePowerUps.slowMotion
    {
      if activePowerUps.slowMotion then 0.5 else 1.0
    }

    function HasShield(): (b: bool)
      reads this
      ensures b == State().powerUps.active.Get(Shield)
    {
      activePowerUps.shield
    }

    method IncrementFrame()
      modifies this
      ensures State() == FrameIncremented(old(State()))
    {
      if currentState == Playing {
        frameCount := frameCount + 1;
      }
    }

    function GetFrameCount(): (f: nat)
      reads this
      ensures f == State().frameCount
    {
      frameCount
    }
  }
}
