# Smoke background, uptime graph and status widget: a Dafny model

This project models the scripts of a homelab site:

- **`js/fluid-simulation.js`** draws rising smoke as the page background. It is a
  WebGL fluid solver. The model covers:
  - the host-side bookkeeping: configuration, texture-format choice, shader
    keywords, render targets and their double buffering, resizing,
    resolution and bloom-level sizing, pointer input and the frame clock;
  - the order of draw calls in one simulation step, in the bloom
    post-process and in the splats;
  - the linear grid stencils that the shaders compute: divergence, curl,
    pressure clear, Jacobi relaxation and gradient subtraction.
- **`js/uptime-graph.js`** draws a 90-day uptime bar chart. The model covers:
  - resolving the query;
  - bucketing samples into days with the daily minimum across series;
  - the 90-slot window;
  - backfilling days from the current uptime;
  - classifying each day's value;
  - the average and its title.
- **`js/homelab-status.js`** is the "Edge: Online/Offline" widget. The model
  covers:
  - duration formatting;
  - the uptime meter;
  - interpreting one poll's outcome.

One module per file:

| module | file | contents |
|---|---|---|
| `Numbers` | numbers.dfy | JavaScript numbers (finite, NaN, ±Infinity) and `Math.floor` |
| `Options` | options.dfy | `Option` |
| `FluidConfig` | fluid_config.dfy | the solver's configuration and its start-up adjustments |
| `TextureFormats` | texture_formats.dfy | format fallback, format selection, shader keywords |
| `RenderTargets` | render_targets.dfy | framebuffers, double framebuffers, the draw-call log, resizing, resolutions, bloom level sizes |
| `PointerInput` | pointer_input.dfy | pointer records, aspect corrections, colour normalisation, the frame clock |
| `PassSchedules` | pass_schedules.dfy | the draw calls of a step, a splat, the inputs and the bloom, with their ping-pong and no-feedback properties |
| `FluidSimulation` | fluid_simulation.dfy | the `Simulation` object: framebuffer set-up and resize, `step`, `splat`, `applyInputs`, `emitSmoke`, `applyBloom`, `render` |
| `Sums` | sums.dfy | finite sums and double sums over index ranges |
| `GridStencils` | grid_stencils.dfy | the divergence, curl, clear, pressure and gradient-subtract stencils on a grid, with clamp-to-edge sampling |
| `UptimeGraph` | uptime_graph.dfy | the uptime graph |
| `HomelabStatus` | homelab_status.dfy | the status widget |

### How GPU work is modelled

A texture's contents are not state in this model. Each `blit` is recorded in
`Gpu.passes` as a `Pass`, which holds:

- the program and its host-set uniforms;
- the textures it samples;
- the texture it draws into;
- whether it blends additively.

The properties proved about the draw-call log are:

- **No feedback.** No pass samples its own target.
- **Ping-pong discipline.** For each double-buffered field, every pass that
  touches its pair reads the side holding the newest data and writes the
  other side.
- **Final sides.** The newest data ends on a known side.

What the shaders compute is modelled separately, as functions on grids
(`GridStencils`). Each of those functions samples its neighbours through
clamp-to-edge, as the textures do.

## Model

Paths are relative to the repository root.

| member | source | states |
|---|---|---|
| FluidConfig.Adjusted | js/fluid-simulation.js:69-73 | Without linear filtering, the dye resolution is 512 and shading and bloom are off. With reduced motion, buoyancy is 0.25 and curl is 2.8. Every other setting is left as it was. |
| FluidConfig.AdjustedIdempotent | js/fluid-simulation.js:1136-1139 | Applying the start-up adjustments a second time changes nothing. |
| TextureFormats.GetSupportedFormat | js/fluid-simulation.js:128-140 | A supported request is returned as asked. Any other result is a supported format that is at least as wide as the one asked for. |
| TextureFormats.GetSupportedFormatIsFirstOnLadder | js/fluid-simulation.js:129-137 | R16F falls back to RG16F and then RGBA16F, RG16F falls back to RGBA16F, and other requests have no fallback. The result is the first supported format on this ladder, and it is null exactly when no format on the ladder is supported. |
| TextureFormats.SelectFormats | js/fluid-simulation.js:106-114 | On WebGL 1, all three field formats are the same request. |
| TextureFormats.WebGL2FormatsWhenRGBA16FRenders | js/fluid-simulation.js:107-109 | On WebGL 2, a device that renders RGBA16F gets all three formats. RGBA is RGBA16F, and RG falls back to RG16F or RGBA16F. |
| TextureFormats.AddKeywords | js/fluid-simulation.js:173-180 | A null keyword list returns the source unchanged. Otherwise the result is the `#define` preamble followed by the source. |
| TextureFormats.DefinesAppend | js/fluid-simulation.js:176-178 | The preamble of a concatenated keyword list is the concatenation of the two preambles. |
| TextureFormats.DefinesFirstLine | js/fluid-simulation.js:176-178 | The preamble starts with `#define` and the first keyword, in list order. |
| TextureFormats.DefinesLineCount | js/fluid-simulation.js:177 | Keywords without line breaks give exactly one line per keyword. |
| TextureFormats.DisplayKeywords | js/fluid-simulation.js:651-653 | The display shader gets "SHADING" exactly when shading is on, and "BLOOM" exactly when bloom is on, with nothing else. |
| RenderTargets.Framebuffer.constructor | js/fluid-simulation.js:678-687 | The new target has the requested size, and its texel size is the reciprocal of that size. |
| RenderTargets.SidesAfter | js/fluid-simulation.js:705-709 | After k swaps, the sides are the original pairing when k is even and the exchanged pairing when k is odd. In particular, two swaps restore the pairing. |
| RenderTargets.DoubleFramebuffer.constructor | js/fluid-simulation.js:696-711 | Two fresh, distinct textures of the same size. The pair's texel size is that of its first texture. |
| RenderTargets.DoubleFramebuffer.Swap | js/fluid-simulation.js:709 | The read and write sides are exchanged. Size, texel size and validity are kept. |
| RenderTargets.Gpu.Blit | js/fluid-simulation.js:586-599 | Exactly one draw call into the target is appended to the log. |
| RenderTargets.ResizeFbo | js/fluid-simulation.js:713-719 | A fresh texture of the new size, filled by one copy pass from the old texture. |
| RenderTargets.ResizeDoubleFbo | js/fluid-simulation.js:721-731 | At the same size, nothing changes and nothing is drawn. Otherwise the read side becomes a resized copy of the old read side and the write side is fresh. Size and texel size follow, exactly one copy pass is logged, and the same pair object is returned. |
| RenderTargets.Round | js/fluid-simulation.js:747-748 | `Math.round` gives the nearest integer, with halves rounding up. |
| RenderTargets.AspectRatio | js/fluid-simulation.js:743-745 | The aspect ratio is at least one. |
| RenderTargets.AspectRatioIsLongOverShort | js/fluid-simulation.js:743-745 | The aspect ratio is the longer buffer side over the shorter one. |
| RenderTargets.GetResolution | js/fluid-simulation.js:742-754 | The short side equals the requested resolution. The long side is the resolution times the aspect ratio, rounded. The result is oriented like the drawing buffer, and a square buffer gives a square result. |
| RenderTargets.BloomLevelCount | js/fluid-simulation.js:792-801 | The number of bloom levels is at most the iteration limit. Every kept level fits (both sides at least 2). Stopping early means the next level does not fit. |
| RenderTargets.LevelSideIsShift | js/fluid-simulation.js:794-795 | Halving i+1 times equals `n >> (i + 1)`, that is, n divided by 2^(i+1). |
| RenderTargets.LevelSideShrinks | js/fluid-simulation.js:794-797 | Later levels are never larger. |
| RenderTargets.NoLevelFitsAfterCount | js/fluid-simulation.js:797 | The `break` loses nothing: no later level within the limit would fit either. |
| PointerInput.Aspect | js/fluid-simulation.js:1115 | The canvas aspect ratio is positive. It is below one exactly for a tall canvas, and above one exactly for a wide canvas. |
| PointerInput.CorrectDeltaX | js/fluid-simulation.js:1114-1118 | The correction keeps the sign of a movement and never enlarges it. It is zero exactly when the movement is zero, and it is the identity on a wide or square canvas. |
| PointerInput.CorrectDeltaY | js/fluid-simulation.js:1120-1124 | The correction keeps the sign of a movement and never enlarges it. It is zero exactly when the movement is zero, and it is the identity on a tall or square canvas. |
| PointerInput.CorrectRadius | js/fluid-simulation.js:1065-1070 | A non-negative radius is never shrunk, and it is unchanged on a tall or square canvas. |
| PointerInput.CorrectDeltaXUsesLongerSide | js/fluid-simulation.js:1107-1109 | Together with the division by the canvas width, the corrected horizontal delta is the pixel movement over the longer canvas side. |
| PointerInput.CorrectDeltaYUsesLongerSide | js/fluid-simulation.js:1108-1110 | Together with the division by the canvas height, the corrected vertical delta is the pixel movement over the longer canvas side. |
| PointerInput.CorrectRadiusUsesLongerSide | js/fluid-simulation.js:1065-1070 | The corrected radius scales the radius by the longer side over the height. |
| PointerInput.Pointer.constructor | js/fluid-simulation.js:51-62 | A new pointer has id -1, is neither down nor moved, has all coordinates and deltas at zero, and has the navy cursor colour. |
| PointerInput.Pointer.UpdateMoveData | js/fluid-simulation.js:1104-1112 | The previous coordinates are the old ones. The new coordinates are the position in texture space, with y flipped. The deltas are aspect-corrected differences. `moved` holds exactly when a coordinate changed. id, down and colour are kept. |
| PointerInput.NormalizeColor | js/fluid-simulation.js:1126-1128 | Each channel is divided by 255. |
| PointerInput.NormalizeColorInUnitRange | js/fluid-simulation.js:1126-1128 | A colour in [0, 255] maps into [0, 1]. |
| PointerInput.ClampedDeltaTime | js/fluid-simulation.js:827-833 | The time step never exceeds 0.016666 s. Below the cap, it is the elapsed milliseconds over 1000, and it is capped only when at least that much time has passed. It is non-negative when time did not run backwards. |
| PointerInput.FrameClock.constructor | js/fluid-simulation.js:810 | The clock starts at the given time. |
| PointerInput.FrameClock.CalcDeltaTime | js/fluid-simulation.js:827-833 | Returns the clamped time since the last call and records the current time. |
| PassSchedules.JacobiPasses | js/fluid-simulation.js:918-922 | There are exactly n Jacobi passes. Pass k samples the divergence and the pressure side that is read after k swaps, and it writes the other side. |
| PassSchedules.JacobiPingPong | js/fluid-simulation.js:918-922 | The Jacobi loop uses the pressure pair ping-pong. The newest pressure ends on the side that is read after n swaps. |
| PassSchedules.StepScheduleLength | js/fluid-simulation.js:872-954 | One step issues 8 + PRESSURE_ITERATIONS draw calls. |
| PassSchedules.StepSchedulePressureSolve | js/fluid-simulation.js:907-922 | In a step, the pressure program runs exactly at positions 5 up to 5 + PRESSURE_ITERATIONS, after the clear. |
| PassSchedules.StepScheduleNoFeedback | js/fluid-simulation.js:872-954 | When all fields are distinct textures, no pass of a step samples its own target. |
| PassSchedules.StepSchedulePingPong | js/fluid-simulation.js:872-954 | Velocity, dye and pressure each follow the ping-pong discipline through a step. The newest velocity ends on the original read side (four swaps), the newest dye on the original write side (one swap), and the newest pressure on the side read after PRESSURE_ITERATIONS + 1 swaps. |
| PassSchedules.BloomDownPasses | js/fluid-simulation.js:1010-1017 | Downsample pass i blurs the previous level (the prefiltered target for i = 0) into level i. |
| PassSchedules.BloomUpPasses | js/fluid-simulation.js:1022-1029 | The upsample passes walk from the second-smallest level back to level 0. Each one blends the level below additively into the next larger level. |
| PassSchedules.BloomScheduleChain | js/fluid-simulation.js:991-1038 | Bloom issues 2·levels + 1 passes. The first pass samples the source and each later pass samples the previous pass's target. The final pass writes the destination, and exactly the upsample passes are additive. |
| PassSchedules.BloomScheduleNoFeedback | js/fluid-simulation.js:991-1038 | When the source, the destination and the levels are distinct, no bloom pass samples its own target. |
| PassSchedules.SplatPingPong | js/fluid-simulation.js:1046-1063 | A splat draws once into velocity and once into dye, each from read to write, without feedback. The newest data of both ends on the old write side. |
| PassSchedules.InputPasses | js/fluid-simulation.js:851-858 | Applying inputs issues exactly two passes per moved pointer. |
| PassSchedules.InputPassesPingPong | js/fluid-simulation.js:851-858 | Applying inputs keeps both pairs ping-pong and has no feedback. The newest data ends on the side read after one swap per moved pointer. |
| FluidSimulation.DistinctAfterSwaps | js/fluid-simulation.js:709 | Swapping any of the pairs keeps all render targets distinct. |
| FluidSimulation.SplatIgnoresMoved | js/fluid-simulation.js:853-855 | Clearing `moved` before `splatPointer` does not change the splat. |
| FluidSimulation.InitBloomFramebuffers | js/fluid-simulation.js:783-802 | A fresh bloom target of the bloom resolution and BloomLevelCount fresh, distinct levels. Level i is the base size shifted right by i + 1. |
| FluidSimulation.CreateBloomLevels | js/fluid-simulation.js:792-801 | The bloom loop, including its `break`, creates exactly BloomLevelCount distinct fresh levels of the shifted sizes. |
| FluidSimulation.BloomLevelCountIsFirstMisfit | js/fluid-simulation.js:793-797 | BloomLevelCount is the only count that keeps a prefix of fitting levels and stops at the first level that does not fit. |
| FluidSimulation.CreateFreshTargets | js/fluid-simulation.js:776-790 | Pressure, divergence, curl, bloom and the bloom levels are fresh, pairwise distinct and of their resolutions. |
| FluidSimulation.InitFramebuffers | js/fluid-simulation.js:756-781 | The first call creates every field at its resolution from getResolution, and all render targets are distinct. |
| FluidSimulation.ResizeFields | js/fluid-simulation.js:766-774 | Dye and velocity get their new sizes. A pair whose size does not change keeps its textures. The log gains one copy pass per resized pair, dye first. |
| FluidSimulation.Simulation.constructor | js/fluid-simulation.js:756-781 | A valid simulation, with all targets at their configured resolutions, one fresh pointer that has not moved, and an empty draw log. |
| FluidSimulation.Simulation.Resize | js/fluid-simulation.js:766-781 | A later initFramebuffers keeps the dye and velocity objects, resizing them with copies. It recreates pressure, divergence, curl and bloom, and the simulation stays valid with all targets distinct. |
| FluidSimulation.Simulation.RebuildTargets | js/fluid-simulation.js:776-780 | The single-buffered fields, pressure and bloom are recreated fresh, and the simulation is valid again. |
| FluidSimulation.Simulation.Step | js/fluid-simulation.js:872-954 | The log gains exactly the step schedule. Velocity ends on its original sides, dye is swapped once, and pressure is swapped PRESSURE_ITERATIONS + 1 times. Sizes and validity are kept. |
| FluidSimulation.Simulation.ApplyForces | js/fluid-simulation.js:876-905 | The log gains the buoyancy, curl, vorticity and divergence passes. Velocity is swapped twice, so its sides are restored. |
| FluidSimulation.Simulation.SolvePressure | js/fluid-simulation.js:907-922 | The log gains the clear pass and the Jacobi passes. The pressure sides end after PRESSURE_ITERATIONS + 1 swaps. |
| FluidSimulation.Simulation.ProjectAndAdvect | js/fluid-simulation.js:924-953 | The log gains gradient subtraction, velocity advection and dye advection. Velocity is swapped twice and dye once. |
| FluidSimulation.Simulation.ApplyBloom | js/fluid-simulation.js:991-1038 | The log gains the bloom schedule, which is empty with fewer than two levels. |
| FluidSimulation.Simulation.Render | js/fluid-simulation.js:956-958 | Bloom runs from the dye read side into the bloom target exactly when bloom is on. |
| FluidSimulation.Simulation.Splat | js/fluid-simulation.js:1046-1063 | The log gains the velocity and dye splat passes, with the radius defaulting to SPLAT_RADIUS and aspect-corrected after division by 100. Both pairs are swapped once. |
| FluidSimulation.Simulation.SplatPointer | js/fluid-simulation.js:1040-1044 | A splat at the pointer's texture coordinates, with force delta × SPLAT_FORCE and the pointer's colour. |
| FluidSimulation.Simulation.EmitSmoke | js/fluid-simulation.js:861-870 | One splat at (0.5, -0.02), just below the frame, pushing up with SMOKE_FORCE, in the smoke colour and at SMOKE_RADIUS. |
| FluidSimulation.Simulation.ApplyInput | js/fluid-simulation.js:852-857 | A moved pointer is splatted once and its flag cleared. An unmoved pointer draws nothing. No other pointer changes. |
| FluidSimulation.Simulation.ApplyInputs | js/fluid-simulation.js:851-858 | The log gains the input passes for the pointers as they were. Afterwards no pointer is marked moved and nothing else in them changed. Both pairs are swapped once per moved pointer. |
| GridStencils.Clamp | js/fluid-simulation.js:668-669 | Clamp-to-edge sampling: an index inside the grid is kept, and any other index lands inside it. |
| GridStencils.EdgeTestsAtTexelCentres | js/fluid-simulation.js:451-455 | At texel centres, the shader's `vL.x < 0` and `vR.x > 1` tests hold exactly at the first and last column. |
| GridStencils.Divergence | js/fluid-simulation.js:444-458 | Each texel holds the divergence stencil, with mirrored walls and an open top. |
| GridStencils.DivergenceRowBalance | js/fluid-simulation.js:451-452 | The mirrored side walls cancel: the horizontal differences along any row sum to zero. |
| GridStencils.DivergenceColumnBalance | js/fluid-simulation.js:454-455 | The vertical differences along a column sum to the outflow through the open top. |
| GridStencils.DivergenceTotalIsTopOutflow | js/fluid-simulation.js:444-458 | The total divergence equals the net outflow through the top edge alone: the walls are solid and the top is open. |
| GridStencils.Curl | js/fluid-simulation.js:472-478 | Each texel holds half of R − L − T + B. |
| GridStencils.CurlTotalIsBoundaryCirculation | js/fluid-simulation.js:472-478 | A discrete Stokes theorem: the summed curl equals the circulation along the boundary columns and rows. |
| GridStencils.CurlOfRotationInInterior | js/fluid-simulation.js:477-478 | For a rigid rotation v = ω(−y, x), the interior curl is 2ω. |
| GridStencils.Clear | js/fluid-simulation.js:254-256 | Pressure is scaled by the value. A value in [0, 1] never increases magnitudes. |
| GridStencils.JacobiAt | js/fluid-simulation.js:523-531 | A texel is unchanged by relaxation exactly when its discrete Laplacian equals the divergence. |
| GridStencils.Jacobi | js/fluid-simulation.js:523-531 | Every texel of the result is its Jacobi update, and the shape is kept. |
| GridStencils.JacobiFixedPointIffPoisson | js/fluid-simulation.js:530 | A pressure grid is a fixed point of the relaxation exactly when it solves the discrete Poisson equation. |
| GridStencils.JacobiNonExpansive | js/fluid-simulation.js:530 | One relaxation never moves two grids further apart (max norm). |
| GridStencils.JacobiIterate | js/fluid-simulation.js:918-922 | Iterating the relaxation keeps the grid's shape. |
| GridStencils.JacobiStaysNearSolution | js/fluid-simulation.js:530 | A grid within m of a Poisson solution stays within m after one relaxation. |
| GridStencils.JacobiIterateStaysNearSolution | js/fluid-simulation.js:918-922 | A grid within m of a Poisson solution stays within m after any number of iterations. |
| GridStencils.GradientSubtract | js/fluid-simulation.js:546-554 | Each texel of the result is the velocity minus the pressure differences. |
| GridStencils.GradientSubtractShiftInvariant | js/fluid-simulation.js:552 | Adding a constant to the pressure does not change the projected velocity. |
| UptimeGraph.Trim | js/uptime-graph.js:15 | The result has no white space at either end and is no longer than the input. |
| UptimeGraph.TrimEmptyIffAllWhiteSpace | js/uptime-graph.js:15 | A string trims to empty exactly when it is all white space. |
| UptimeGraph.TrimIdempotent | js/uptime-graph.js:15 | Trimming twice is trimming once. |
| UptimeGraph.ResolveQuery | js/uptime-graph.js:13-21 | The query is never empty and always trimmed. Precedence: a non-blank attribute, then a non-blank global string, then the default. |
| UptimeGraph.BlankAttributeFallsThrough | js/uptime-graph.js:14-18 | An all-white-space attribute gives way to a non-blank global. |
| UptimeGraph.ClassForValue | js/uptime-graph.js:23-30 | A null value is "no data". Otherwise the value is up, degraded or down by its thresholds (1.0/0.95, or 0.95/0.75 for the day in progress), each in both directions. |
| UptimeGraph.ClassMonotone | js/uptime-graph.js:26-29 | A higher value never gets a worse class. |
| UptimeGraph.InProgressIsLenient | js/uptime-graph.js:10-11 | The in-progress thresholds never give a worse class than the full-day ones. |
| UptimeGraph.DayStart | js/uptime-graph.js:172 | The day bucket is a multiple of 86400, and the timestamp lies inside it. |
| UptimeGraph.DayMinimaIsMinimum | js/uptime-graph.js:161-178 | The map has a key exactly for the days with a finite sample. Each key's value is the least sample of that day, and it is one of the samples. |
| UptimeGraph.BuildValueMap | js/uptime-graph.js:161-178 | The loops over series and points build the daily-minimum map, skipping invalid points. |
| UptimeGraph.WindowEndsOnCurrentDay | js/uptime-graph.js:129-131 | The window's 90 slot timestamps are day boundaries, and the last one is the current day. |
| UptimeGraph.DayInWindowHasSlot | js/uptime-graph.js:181-186 | Every day boundary between the window start and today has its slot. |
| UptimeGraph.WindowContents | js/uptime-graph.js:181-186 | There are 90 slots, one per day. A slot has a value exactly when the map has its day, and then the value is the map's. Only the last slot is today. |
| UptimeGraph.GenerateSlots | js/uptime-graph.js:181-186 | The slot loop produces the window. |
| UptimeGraph.Overlap | js/uptime-graph.js:113-117 | The overlap of a day with the uptime interval is at most a day. |
| UptimeGraph.FillCountWithoutUptime | js/uptime-graph.js:105 | Without a finite, positive uptime, nothing is filled. |
| UptimeGraph.BackfillSlotsFromCurrentUptime | js/uptime-graph.js:104-126 | The array becomes the backfilled slots, and the count is the number filled. |
| UptimeGraph.BackfillProperties | js/uptime-graph.js:110-123 | Timestamps are kept and slots with values are untouched. A slot changes exactly when it is null and overlaps the uptime, and then it gets the overlap's fraction of a day, in (0, 1]. |
| UptimeGraph.FillCountIsChangedSlots | js/uptime-graph.js:119-125 | The returned count is exactly the number of slots that changed. |
| UptimeGraph.SampledCount | js/uptime-graph.js:77 | The number of sampled values is the number of slots with a value. |
| UptimeGraph.ComputeAvg | js/uptime-graph.js:76-85 | The average is null exactly when nothing is sampled. Otherwise average × count equals the sum of the sampled values. |
| UptimeGraph.AverageWithinBounds | js/uptime-graph.js:80-82 | The average lies within any bounds that all slot values respect. |
| UptimeGraph.TitleNotesCurrentDayIff | js/uptime-graph.js:199-228 | The in-progress note appears exactly when today's slot has a value. The branch that removes a note-only title never fires. |
| UptimeGraph.Init | js/uptime-graph.js:157-228 | Slots, average and title are the composition of the bucketing, the window, the backfill, the average and the title rules. |
| HomelabStatus.NatToString | js/homelab-status.js:46-48 | The decimal numeral is non-empty and all digits, with no leading zero. |
| HomelabStatus.NatToStringRoundTrip | js/homelab-status.js:46-48 | Reading the numeral back gives the number. |
| HomelabStatus.Breakdown | js/homelab-status.js:42-45 | Hours are below 24 and minutes below 60. Days, hours and minutes account for the seconds to within the dropped seconds. |
| HomelabStatus.BreakdownSum | js/homelab-status.js:43-45 | The source's floor/mod expressions reassemble the seconds exactly. |
| HomelabStatus.FormatDuration | js/homelab-status.js:40-49 | The result is "--" exactly for a non-finite or negative input. |
| HomelabStatus.FormatDurationRoundTrip | js/homelab-status.js:46-48 | Parsing the formatted text gives back the day/hour/minute breakdown and which of the three forms was used. |
| HomelabStatus.UptimeFillPercent | js/homelab-status.js:58-60 | The fill is in [0, 100]: 0 at or below zero uptime and 100 from seven days on. In between it is proportional. |
| HomelabStatus.UptimeFillMonotone | js/homelab-status.js:59-60 | More uptime never shows a smaller fill. |
| HomelabStatus.UpdatedLabel | js/homelab-status.js:51-54 | There is no time exactly when the timestamp is missing or empty. |
| HomelabStatus.SetOffline | js/homelab-status.js:73-80 | Offline dot, empty meter, and the given message, or the default one when the message is empty. |
| HomelabStatus.Poll | js/homelab-status.js:97-113 | Online exactly when `ok` is true and `uptime_seconds` is a number. Online shows the formatted uptime, the fill and the label. Offline shows "--" and an empty meter, with "Invalid status payload", "Timed out" or "Fetch failed". |
| HomelabStatus.PollIgnoresOtherFields | js/homelab-status.js:100-102 | Fields other than `ok`, `uptime_seconds` and `generated_at` do not affect the widget. |
| HomelabStatus.NegativeUptimeShowsNothing | js/homelab-status.js:64-71 | A negative uptime still shows online, but with "--" and an empty meter. |

## Left out

- **WebGL itself is not modelled.** This covers the context, extensions, texture allocation, shader compilation, uniforms, viewport and blend state.
  - Which render formats a device supports is a parameter: the `supported` set.
  - The texture `type` argument of `getSupportedFormat` is not modelled; all formats share one half-float type.
- **The transcendental and non-linear shader arithmetic is not modelled.** This covers:
  - the Gaussian falloff of splats;
  - vorticity normalisation (`length`);
  - the buoyancy shader;
  - bilinear and manual filtering in advection;
  - the bloom prefilter curve and blur weights;
  - display gamma and shading.
  These passes appear only as draw calls with their uniforms.
- The `Splat` program does not record the `aspectRatio` uniform. Advection does not record `texelSize`, `dyeTexelSize` or the manual-filtering path. The bloom prefilter's threshold and knee, and the blur's `texelSize`, are not recorded either; `BLOOM_THRESHOLD` and `BLOOM_SOFT_KNEE` are not part of `Config`.
- **Animation, events and the clock are not modelled.**
  - Not modelled: the `update` loop, `requestAnimationFrame`, `resizeCanvas`, `scaleByPixelRatio`, and the mouse and touch listeners (including `touchstart` adding pointers).
  - The canvas size and `Date.now()` are parameters.
- FluidSimulation.Simulation.Render: the final `drawColor` and `drawDisplay` screen draws are not recorded; only the bloom pass is.
- `js/smoke.js` and `js/metallic-accent.js` are not part of this model.
- **Networking is not modelled.** This covers `fetch`, `Promise.all`, `AbortController` and `setInterval`.
  - The graph's `fetchFailed` and its status uptime are parameters, and so is the widget's `FetchOutcome`.
  - The status uptime's own filter (`fetchStatusUptime`) is not modelled separately. Backfill applies the same finite-and-positive test.
- UptimeGraph.BuildValueMap: `Number()` and `parseFloat` are not modelled. A point arrives as already-converted timestamp and value numbers, and only its finiteness is checked.
- HomelabStatus.Poll: JSON numbers are exact reals. `res.json()` cannot produce NaN or Infinity, so that case is not modelled.
- **The DOM is not modelled.** This covers `buildBars`, tooltips, `formatDate`, `formatPct`/`toFixed`, `setAll` and `setDots`.
  - The widget is a record of what it shows.
- HomelabStatus.UpdatedLabel: `toLocaleTimeString`, and the "--" shown for an unparseable date, are not modelled. A non-empty timestamp is kept as it is.
- HomelabStatus.UptimeFillPercent: the fill is an exact real. The `toFixed(1)` rendering is not modelled.
- **Arithmetic is exact.** Every real-valued member computes in exact reals instead of doubles (or GPU `mediump` floats). This affects `GridStencils`, `RenderTargets.Round`, `UptimeGraph.ComputeAvg` and the backfill.
- RenderTargets.LevelSideIsShift: `>>` is modelled for non-negative sizes. JavaScript's 32-bit truncation and shift counts taken mod 32 are not modelled. `BLOOM_ITERATIONS` (8) keeps shift counts small.
