// The configuration values the simulation and the animation read, with the
// names the configuration module gives them.
module Constants {

  // Cloth geometry: a flag 30 units wide and 54 units tall, hanging vertically.
  const ClothWidth: real := 30.0
  const ClothHeight: real := 54.0
  const XSegs: nat := 15
  const YSegs: nat := 20

  /** Radius of the circle of stars on the flag: a third of the cloth width. */
  const FlagRadius: real := ClothWidth * (1.0 / 3.0)

  /** Depth at which stars float in front of the flag. */
  const FlagZ: real := 0.1

  // Pivot spring.
  const SpringStrength: real := 0.01
  const SpringDamping: real := 0.9
  const SphereRestZ: real := 25.0

  // Transition timing.
  const AnimationDuration: real := 2.0
  const DampingFactor: real := 0.13
  const ClothUpdateInterval: real := 30.0

  // Cloth simulation parameters.
  const Damping: real := 0.09
  const Mass: real := 0.13
  const Gravity: real := 0.0
  const ConstraintIterations: nat := 1
  const CornerForceStrength: real := 13.5
}
