/** The fixed numbers of the game: the logical arena, the player physics and
    the platform layout (src/game/constants.ts). */
module Constants {

  const LogicWidth: real := 580.0
  const LogicHeight: real := 900.0

  const Gravity: real := 0.7
  const MoveSpeed: real := 4.4
  const JumpForce: real := -13.0

  /** A one-way platform: only its top edge matters for landing. */
  datatype Platform = Platform(x: real, y: real, w: real, h: real)

  /** The ground first, then the progressive platforms, then the boss zone. */
  const Platforms: seq<Platform> := [
    Platform(0.0, 860.0, 580.0, 40.0),
    Platform(60.0, 750.0, 160.0, 18.0),
    Platform(300.0, 680.0, 180.0, 18.0),
    Platform(90.0, 600.0, 150.0, 18.0),
    Platform(320.0, 530.0, 160.0, 18.0),
    Platform(120.0, 450.0, 160.0, 18.0),
    Platform(280.0, 390.0, 180.0, 18.0),
    Platform(100.0, 310.0, 160.0, 18.0),
    Platform(340.0, 250.0, 160.0, 18.0),
    Platform(180.0, 180.0, 220.0, 18.0)
  ]

  /** The highest platform top: no platform lies above y = 180. */
  const HighestPlatformTop: real := 180.0
}
