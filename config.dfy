/** The tunable constants the game reads from its configuration object. */
module Config {

  datatype ColorPair = ColorPair(light: string, dark: string)

  datatype Config = Config(
    fov: real,
    maxRayDist: real,
    ceilingColor: string,
    floorColor: string,
    wallColors: map<int, ColorPair>,
    fogMaxAlpha: real,
    fogColor: (int, int, int),
    walkSpeed: real,
    sprintMultiplier: real,
    mouseSensitivity: real,
    pitchSensitivity: real,
    maxPitch: real,
    playerRadius: real,
    jumpVelocity: real,
    gravity: real,
    dashSpeed: real,
    dashDuration: real,
    dashCooldown: real,
    doubleTapWindow: real,
    machineGunFireRate: real,
    machineGunDamage: int,
    machineGunSpread: real,
    machineGunSpreadGrowth: real,
    machineGunSpreadMax: real,
    machineGunRecoil: real,
    shotgunPellets: nat,
    shotgunDamage: int,
    shotgunSpread: real,
    shotgunCooldown: real,
    shotgunRecoil: real,
    holdThreshold: real,
    recoilDecay: real,
    projectileSpeed: real,
    projectileLifetime: real,
    projectileRadius: real,
    entityRadius: real,
    tickRate: real)

  /** The shipped values. The field of view is 66 degrees; `Math.PI` is its
      double value. `renderScale` is not here: the frame loop owns it. */
  function Default(): Config
  {
    Config(
      fov := 66.0 * (3.141592653589793 / 180.0),
      maxRayDist := 64.0,
      ceilingColor := "#333",
      floorColor := "#555",
      wallColors := map[1 := ColorPair("#b84", "#945"), 2 := ColorPair("#88b", "#669"), 3 := ColorPair("#8b8", "#696")],
      fogMaxAlpha := 0.75,
      fogColor := (0, 0, 0),
      walkSpeed := 3.5,
      sprintMultiplier := 1.8,
      mouseSensitivity := 0.002,
      pitchSensitivity := 0.002,
      maxPitch := 0.4,
      playerRadius := 0.2,
      jumpVelocity := 6.0,
      gravity := 20.0,
      dashSpeed := 12.0,
      dashDuration := 0.15,
      dashCooldown := 1.0,
      doubleTapWindow := 0.25,
      machineGunFireRate := 10.0,
      machineGunDamage := 10,
      machineGunSpread := 0.04,
      machineGunSpreadGrowth := 0.008,
      machineGunSpreadMax := 0.12,
      machineGunRecoil := 0.01,
      shotgunPellets := 5,
      shotgunDamage := 30,
      shotgunSpread := 0.08,
      shotgunCooldown := 0.4,
      shotgunRecoil := 0.04,
      holdThreshold := 0.15,
      recoilDecay := 15.0,
      projectileSpeed := 20.0,
      projectileLifetime := 2.0,
      projectileRadius := 0.1,
      entityRadius := 0.3,
      tickRate := 1.0 / 60.0)
  }

  /** What the game relies on of its constants: positive rates and
      durations, and a fallback wall colour for tile 1. */
  predicate Valid(c: Config)
  {
    && c.tickRate > 0.0
    && c.machineGunFireRate > 0.0
    && c.maxPitch >= 0.0
    && c.recoilDecay >= 0.0
    && c.machineGunSpread <= c.machineGunSpreadMax
    && c.machineGunSpreadGrowth >= 0.0
    && 1 in c.wallColors
  }

  lemma DefaultIsValid()
    ensures Valid(Default())
  {
  }
}
