/** The tuning constants of the simulation (constants.js). Frame-valued constants are integers. */
module Config {

  // Canvas
  const CanvasWidth: real := 800.0
  const CanvasHeight: real := 600.0

  // Player
  const PlayerWidth: real := 60.0
  const PlayerHeight: real := 40.0
  const PlayerStartX: real := 100.0
  const PlayerStartY: real := 300.0
  const PlayerVerticalSpeed: real := 4.0
  const PlayerAcceleration: real := 0.15

  // Obstacles
  const ObstacleSpawnRate: real := 0.04
  const ObstacleMinSpawnInterval: real := 30.0
  const ObstacleBaseSpeed: real := 3.0
  const ChimneyWidth: real := 50.0
  const ChimneyHeight: real := 80.0
  const SnowmanWidth: real := 60.0
  const SnowmanHeight: real := 70.0
  const TreeWidth: real := 50.0
  const TreeHeight: real := 100.0
  const CloudWidth: real := 80.0
  const CloudHeight: real := 50.0

  // Collectibles
  const GiftSpawnRate: real := 0.01
  const GiftMinSpawnInterval: int := 120
  const GiftWidth: real := 30.0
  const GiftHeight: real := 30.0
  const GiftSpeed: real := 2.5

  // Scoring
  const ScorePerGift: real := 50.0
  const ScorePerPowerUp: real := 100.0

  // Difficulty
  const MaxSpeedMultiplier: real := 2.5
  const DifficultyIncreaseRate: real := 0.0001

  // Power-up durations, in frames
  const SlowMotionDuration: int := 300
  const ShieldDuration: int := 600
  const DoubleScoreDuration: int := 900

  // Routes
  const RouteDecisionInterval: int := 600
  const RouteDuration: int := 480
  const LeftRouteSpawnMultiplier: real := 1.5
  const LeftRouteSpeedMultiplier: real := 1.3
  const LeftRouteGiftValueMultiplier: real := 2.0
  const LeftRouteScoreMultiplier: real := 1.5

  // Abilities
  const AbilityCooldown: int := 600
  const DashDuration: int := 30
  const DashSpeedBoost: real := 2.0
  const ShieldAbilityDuration: int := 180
  const SlowTimeDuration: int := 300
  const SlowTimeFactor: real := 0.4

  // Moments
  const MomentIntervalMin: int := 900
  const MomentIntervalMax: int := 1800
  const SnowstormDuration: int := 300
  const SpeedBurstDuration: int := 360
  const GiftRushDuration: int := 420
}
