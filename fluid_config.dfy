/** The solver's tunables (js/fluid-simulation.js, the config object and the
    two places that adjust it at start-up). */
module FluidConfig {

  /** An RGB triple; also used for the (dx, dy, 0) force colour of a splat. */
  datatype Vec3 = Vec3(r: real, g: real, b: real)

  datatype Config = Config(
    simResolution: nat,
    dyeResolution: nat,
    densityDissipation: real,
    velocityDissipation: real,
    pressure: real,
    pressureIterations: nat,
    curl: real,
    splatRadius: real,
    smokeRadius: real,
    smokeForce: real,
    splatForce: real,
    shading: bool,
    backColor: Vec3,
    bloom: bool,
    bloomIterations: nat,
    bloomResolution: nat,
    bloomIntensity: real,
    smokeBuoyancy: real,
    smokeColor: Vec3)

  /** The values the script starts from. */
  const Defaults := Config(
    128, 512, 0.5, 0.95, 0.3, 10, 3.5, 3.0, 2.0, 26.0, 4000.0,
    false, Vec3(5.0, 8.0, 15.0),
    true, 8, 256, 0.2,
    0.45, Vec3(0.0016, 0.0024, 0.0042))

  /** The configuration in force once the device and the user's preferences are
      known: without linear filtering the dye stays at 512 and shading and bloom
      are off; with reduced motion the plume rises and swirls more gently. */
  function Adjusted(c: Config, linearFiltering: bool, reducedMotion: bool): (r: Config)
    ensures !linearFiltering ==> !r.bloom && !r.shading && r.dyeResolution == 512
    ensures linearFiltering ==> r.bloom == c.bloom && r.shading == c.shading && r.dyeResolution == c.dyeResolution
    ensures reducedMotion ==> r.smokeBuoyancy == 0.25 && r.curl == 2.8
    ensures !reducedMotion ==> r.smokeBuoyancy == c.smokeBuoyancy && r.curl == c.curl
    ensures r.(bloom := c.bloom, shading := c.shading, dyeResolution := c.dyeResolution,
               smokeBuoyancy := c.smokeBuoyancy, curl := c.curl) == c
  {
    var f := if linearFiltering then c else c.(dyeResolution := 512, shading := false, bloom := false);
    if reducedMotion then f.(smokeBuoyancy := 0.25, curl := 2.8) else f
  }

  /** Adjusting twice changes nothing more. */
  lemma AdjustedIdempotent(c: Config, linearFiltering: bool, reducedMotion: bool)
    ensures Adjusted(Adjusted(c, linearFiltering, reducedMotion), linearFiltering, reducedMotion)
         == Adjusted(c, linearFiltering, reducedMotion)
  {
  }
}
