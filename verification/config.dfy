/** Fixed game constants. The game reads overrides from a JSON file at start-up;
    this model takes the built-in defaults as fixed parameters. */
module Config {

  const WindowWidth: int := 1280
  const WindowHeight: int := 720

  /** Player physics */
  const Gravity: real := 0.65
  const JumpForce: real := -15.0
  const PlayerSpeed: real := 4.5
  const PlayerMaxSpeed: real := 7.0
  const Friction: real := 0.87
  /** Maximum downward speed of the player (hard-coded in the player update) */
  const MaxFallSpeed: real := 20.0

  /** Exam AI */
  const AISpeed: real := 3.2
  const AIJumpForce: real := -14.0
  const AIGravity: real := 0.2
  const AIDetectionRange: int := 4000

  /** Gameplay */
  const GameDurationSeconds: int := 120
  const InitialEnergy: real := 100.0
  const CoffeeEnergyDuration: int := 180
  const CoffeeSpeedMult: real := 1.5
  const LivesMax: int := 3
  const LastLevel: int := 4

  /** Sprite sizes */
  const PlayerSize: nat := 80
  const ExamSize: nat := 64
  const CollectibleSize: nat := 48
  const ExitWidth: nat := 140
  const ExitHeight: nat := 160

  /** Level geometry: the level is 3200 units wide, split into ten zones of 320 */
  const LevelWidth: int := 3200
  const ZoneWidth: int := 320

  const HomeLoadingDuration: int := 120
}
