# Forest gallery: the transition core in Dafny

This project models the logic of a three.js gallery sketch. The sketch shows a
row of image panels and moves between them every five seconds. Each transition
is made of three things:

- a camera move;
- a band-wipe ("curtain") post-processing shader;
- a red/blue channel-split post-processing shader.

A per-frame step tilts every group of panels toward a smoothed pointer and moves
the panels in depth with an oscillator.

Modules, one per concern of the source:

- `Geometry`: the vec2/vec3/vec4 values and a texture seen as a sampling function.
- `Curtain` (`curtainShader.js`): the band-wise coordinate remap and the sample it feeds.
- `ChannelSplit` (`rgbaShader.js`): the three sample points and how their channels are recombined.
- `Gallery` (`Sketch.js`, interval callback): the cyclic index step, with JavaScript's truncating `%`.
- `Timeline` (`Sketch.js`, `runAnimation`): the gsap timeline as a list of legs. Each leg is a target, an offset, a duration, an end value and an ease. gsap's rule for placing a leg that has no position argument is modelled: it goes at the timeline's current end. The model also gives the value each parameter holds once the timeline has completed. That is the end value of the leg on it that finishes last. Among legs that finish together, it is the one that starts latest.
- `Scene` (`Sketch.js`, `setObjects`): panels (`Mesh`) and groups (`Group`) as classes, because the per-frame step rewrites their fields in place. Also the rules for their positions and materials.
- `Motion` (`Sketch.js`, `render` and `events`): the per-frame arithmetic. This covers pointer normalisation, the 0.1 lerp, the tilt and the layer depth.
- `Sketch`: the `Sketch` class. It holds the sketch's fields and the methods `render`, `play` and `stop`, the pointer handler and the interval callback.

Where the code and the written description of the system differ, the model follows the code:

- `play()` calls `render()` itself (`Sketch.js:231-236`). So stop followed by play advances `time` by 0.05 at once, and rewrites the rotations and depths. Groups, panels and materials stay the same objects, in the same positions.
- The channel-split shader forces alpha to 1 (`rgbaShader.js:46`). At progress 0 its output therefore equals the input pixel in red, green and blue, but not necessarily in alpha.
- The constructor calls `render()` before it sets `imageIndex` (`Sketch.js:54-58`). So a new sketch already has `time == 0.05`.
- Both camera-z legs have length 1 and start at 0 and at 1 (`Sketch.js:116-133`). The x leg runs over [0, 1.5].

## Model

| member | source | states |
|---|---|---|
| `Curtain.BandOf` | src/Sketch/Effects/curtainShader.js:42-52 | every x falls in exactly one of the four bands x<0.25, [0.25,0.5), [0.5,0.75), x≥0.75, each with its own index |
| `Curtain.BandShift` | src/Sketch/Effects/curtainShader.js:44-52 | the per-band shift factor lies in [0, 0.65]; it is 0 only for band 0 and 0.65 only for band 3 |
| `Curtain.Remap` | src/Sketch/Effects/curtainShader.js:39-52 | y is never changed; x moves left by exactly the band's factor times progress; at progress 0, or for x < 0.25, the point is unchanged; for progress ≥ 0 the sampled x lies in [x − 0.65·progress, x] |
| `Curtain.Fragment` | src/Sketch/Effects/curtainShader.js:56-58 | the output colour is the unmodified texture sample at (x − shift·progress, y); at progress 0, or in band 0, it is the input pixel |
| `Curtain.ShiftGrowsWithBand` | src/Sketch/Effects/curtainShader.js:44-52 | for progress ≥ 0 a band to the right is shifted at least as far as any band to its left |
| `Curtain.RightBandShiftsMost` | src/Sketch/Effects/curtainShader.js:51 | at progress 1 a point of band 3 moves left by exactly 0.65, and no point moves further |
| `Curtain.IdentityAtStartup` | src/Sketch/Effects/curtainShader.js:6-58 | with `uProgress` at its default 0 every fragment is the input pixel |
| `ChannelSplit.PointsFor` | src/Sketch/Effects/rgbaShader.js:41-43 | green is sampled at p; red and blue keep p's y; red.x − blue.x = 0.2·progress, symmetric about p.x; all three points coincide at progress 0; for progress > 0 blue lies left and red right of p |
| `ChannelSplit.Fragment` | src/Sketch/Effects/rgbaShader.js:41-46 | alpha is 1; r, g and b come from the samples at p+(0.1·prog,0), p and p−(0.1·prog,0) respectively; at progress 0 the rgb equals the input's rgb at p |
| `ChannelSplit.FullSplitWidth` | src/Sketch/Effects/rgbaShader.js:41-43 | at progress 1 the red and blue sample points are exactly 0.2 apart in x |
| `ChannelSplit.IdentityAtStartup` | src/Sketch/Effects/rgbaShader.js:5-46 | with `uProgress` at its default 0 the output is the input pixel with alpha 1 |
| `Gallery.JsRem` | src/Sketch/Sketch.js:61 | JavaScript `%`: a non-negative dividend gives a remainder in [0, b), a negative one a remainder in (−b, 0] |
| `Gallery.NextIndex` | src/Sketch/Sketch.js:60-63 | from an index in 0..5 the step gives (i+1) mod 6, again in 0..5; from any non-negative index it gives a value in 0..15 other than 6 |
| `Gallery.Ticks` | src/Sketch/Sketch.js:60-65 | the index after n interval callbacks; `TicksCycle` states its value |
| `Gallery.TicksCycle` | src/Sketch/Sketch.js:60-65 | n callbacks from an index in 0..5 give (i+n) mod 6, so the index never leaves the gallery |
| `Gallery.SixTicksVisitEveryImage` | src/Sketch/Sketch.js:58-65 | from 0, six callbacks visit 1, 2, 3, 4, 5, 0 in that order |
| `Timeline.Span` | src/Sketch/Sketch.js:106-171 | a timeline's length is non-negative, at least the end of every leg, and equal to the end of one when non-zero |
| `Timeline.To` | src/Sketch/Sketch.js:111-124 | `tl.to` appends one leg with the given target, value, duration and ease, starting at the given position or, without one, at the timeline's current end; earlier legs are kept |
| `Timeline.LastLeg` | src/Sketch/Sketch.js:106-171 | picks the leg on a parameter that finishes last; among legs that finish together it picks the one that starts latest, and the later one in the timeline on a full tie. It gives −1 exactly when no leg targets the parameter |
| `Timeline.SequentialLastLeg` | src/Sketch/Sketch.js:106-171 | when the legs on a parameter run one after another, the leg whose value remains is the last one on it in the timeline |
| `Timeline.OverlappingLegsLaterEndWins` | src/Sketch/Sketch.js:106-171 | of two overlapping legs on camera z, the one that ends later leaves its value, although the other starts later |
| `Timeline.FinalValue` | src/Sketch/Sketch.js:106-171 | a parameter no leg targets keeps its value when the timeline completes |
| `Timeline.Schedule` | src/Sketch/Sketch.js:106-171 | the timeline `runAnimation` builds for an index, by seven `tl.to` calls; its properties are the `Schedule*` lemmas below |
| `Timeline.ScheduleLegs` | src/Sketch/Sketch.js:110-171 | the transition is seven legs: x to 2500·index over [0,1.5]; z to 700 then 900; each progress to 1 then 0; with their eases |
| `Timeline.ScheduleSpan` | src/Sketch/Sketch.js:111-171 | seven legs starting at 0 or 1, each of positive duration; the total span max(offset+duration) is 2 |
| `Timeline.ScheduleLegIntervals` | src/Sketch/Sketch.js:111-171 | the x leg spans [0, 1.5]; every other leg spans [0, 1] or [1, 2] |
| `Timeline.ScheduleSequentialPerParam` | src/Sketch/Sketch.js:116-171 | two legs on one parameter never overlap, and run in the order they were added |
| `Timeline.ScheduleMidpoint` | src/Sketch/Sketch.js:116-171 | the legs ending at 1 take camera z to 700 and both progresses to 1 |
| `Timeline.ScheduleProgressInRange` | src/Sketch/Sketch.js:136-171 | every progress leg targets a value in [0, 1] |
| `Timeline.ScheduleFinalValues` | src/Sketch/Sketch.js:111-171 | whatever the start values, at completion camera x is the x of group `imageIndex` (2500·index), camera z is the resting 900, and both progresses are back at their default 0 |
| `Scene.GroupX` | src/Sketch/Sketch.js:222 | group 0 sits at x 0, and groups of non-negative index at x ≥ 0 |
| `Scene.GroupsApart` | src/Sketch/Sketch.js:222 | group k lies exactly 2500·(k − j) to the right of group j, so distinct groups never share a position |
| `Scene.LayerMaterial` | src/Sketch/Sketch.js:206-217 | every panel maps the group's texture; panel 0 is exactly the opaque one (no alpha map, not transparent); every later panel uses the mask and is transparent |
| `Scene.InitialDepth` | src/Sketch/Sketch.js:220 | panels are created at depth (i+1)·300, at least 300 |
| `Scene.InitialDepthsApart` | src/Sketch/Sketch.js:220 | consecutive panels are created 300 apart in depth |
| `Scene.Mesh.constructor` | src/Sketch/Sketch.js:219-220 | a mesh keeps its material and starts at the given depth |
| `Scene.Group.constructor` | src/Sketch/Sketch.js:201 | a new group is at the origin, unrotated, without children |
| `Scene.Group.Add` | src/Sketch/Sketch.js:221 | `add` appends the mesh to the children and changes nothing else |
| `Scene.Group.PlaceLayers` | src/Sketch/Sketch.js:251-253 | child i goes to depth (i+1)·100 − osc·200; only the children's depths change |
| `Scene.Group.Pose` | src/Sketch/Sketch.js:247-253 | sets the group's rotation and its children's depths, and nothing else |
| `Motion.NormalizePointer` | src/Sketch/Sketch.js:82-87 | the handler subtracts 0.5 on each axis; the result lies in [−0.5,0.5]² exactly when the input lies in [0,1]² |
| `Motion.Approach` | src/Sketch/Sketch.js:244-245 | one lerp step scales the distance to the pointer by exactly 0.9, never overshoots, and strictly shrinks a non-zero distance |
| `Motion.SmoothStep` | src/Sketch/Sketch.js:245 | the 2-D lerp acts axis by axis and keeps a point of the centred square inside it when the pointer is inside |
| `Motion.ApproachSteps` | src/Sketch/Sketch.js:245 | one axis of the smoothed pointer after n frames toward a pointer at rest; `ApproachStepsGeometric` and `ApproachStepsBetween` state its value |
| `Motion.SmoothSteps` | src/Sketch/Sketch.js:245 | n frames toward a pointer at rest act on each axis independently |
| `Motion.PowShrinks` | src/Sketch/Sketch.js:245 | 0.9^n is positive, at most 1 and strictly decreasing |
| `Motion.ApproachStepsGeometric` | src/Sketch/Sketch.js:245 | after n frames toward a pointer at rest, the remaining distance is exactly 0.9^n times the initial one |
| `Motion.ApproachStepsBetween` | src/Sketch/Sketch.js:245 | after any number of frames toward a pointer at rest, the smoothed value lies between its start and the pointer |
| `Motion.SmoothStepsGeometric` | src/Sketch/Sketch.js:245 | the same 0.9^n decay holds for both axes of the smoothed pointer |
| `Motion.Tilt` | src/Sketch/Sketch.js:248-249 | the rotation has the opposite sign of the smoothed offset, and stays within ±0.15 when the offset is within ±0.5 |
| `Motion.LayerDepth` | src/Sketch/Sketch.js:252 | for an oscillator in [0,1] panel i moves within [(i+1)·100 − 200, (i+1)·100]; at oscillator 0 it sits at (i+1)·100 |
| `Motion.LayersKeepTheirSpacing` | src/Sketch/Sketch.js:252 | in every frame consecutive panels are exactly 100 apart, so layers never cross |
| `Sketch.BuildGroup` | src/Sketch/Sketch.js:200-223 | one new group at x j·2500, unrotated, holding three distinct new panels with the layer materials and depths (i+1)·300 |
| `Sketch.Sketch.Valid` | src/Sketch/Sketch.js:188-224 | the layout `setObjects` builds: one group per texture at x j·2500, three panels each with the layer materials, and no panel in two places |
| `Sketch.Sketch.FrameAdvanced` | src/Sketch/Sketch.js:238-254 | one frame of `render`: time up by 0.05, the frame's oscillator, one lerp step of the smoothed pointer, every group tilted by it and every panel at its layer depth |
| `Sketch.Sketch.constructor` | src/Sketch/Sketch.js:17-58 | uniforms at 0, camera at (0,0,900), pointer at the origin; one new group per image holding new panels, with the scene invariant; playing; after the first frame, time 0.05 with the panels at that frame's depths; index 0 |
| `Sketch.Sketch.SetObjects` | src/Sketch/Sketch.js:188-225 | one new group per texture, in texture order, each at x j·2500 with three panels (opaque first, then masked) at depths (i+1)·300; no panel is shared |
| `Sketch.Sketch.Render` | src/Sketch/Sketch.js:238-254 | when stopped, nothing changes; when playing, time grows by exactly 0.05, the smoothed pointer takes one lerp step, every group is tilted by it and every panel is placed at its layer depth; nothing else changes and the scene invariant holds |
| `Sketch.Sketch.PoseGroups` | src/Sketch/Sketch.js:247-254 | every group gets rotation (−0.3·target.y, −0.3·target.x) and every panel its layer depth; panels of different groups do not interfere |
| `Sketch.Sketch.Stop` | src/Sketch/Sketch.js:227-229 | clears the play flag and nothing else |
| `Sketch.Sketch.Play` | src/Sketch/Sketch.js:231-236 | when already playing, a no-op; otherwise sets the flag and advances exactly one frame as `Render` does; groups and panels stay the same objects |
| `Sketch.Sketch.OnMove` | src/Sketch/Sketch.js:81-88 | stores the normalised pointer and changes nothing else |
| `Sketch.Sketch.Tick` | src/Sketch/Sketch.js:60-65 | the index takes one cyclic step and the returned timeline is the transition to the new index |
| `Sketch.StopAndResume` | src/Sketch/Sketch.js:227-236 | a sketch built, stopped and played again is playing over the layout, at time 0.1, with the panels at the resumed frame's depths |
| `Sketch.Sketch.FinishTimeline` | src/Sketch/Sketch.js:106-171 | once a timeline has completed, camera x/z and both progress uniforms hold its final values; camera y and everything else are unchanged |

## Left out

- The WebGL renderer, `this.scene.add(group)` (so the scene graph is not modelled, only the `groups` list), `EffectComposer`, `RenderPass`, `ShaderPass` and `composer.render()`. These are library calls. The order of the passes (scene, then curtain, then channel split) is not modelled.
- Texture and mask loading. A loaded texture is represented by the URL it came from. Decoding is I/O.
- gsap easing (`power4.inOut`, `power3.inOut`) and tween interpolation. A leg records the name of its ease, and the model gives parameter values only once a timeline has completed. It does not give the values during one.
- Timelines that overlap because the interval fires during a transition. Each interval fires after the previous 2-unit transition has ended, and host timing is not modelled.
- `setInterval` and `requestAnimationFrame`. So `Render` does not model the reschedule of the next frame. The model cannot say how many frame loops are pending, for example after `stop()` and `play()` within one frame.
- `Math.sin` in the oscillator. The oscillator value of a frame is the parameter `osc`.
- The resize handler and the float aspect-ratio division. Viewport size is not modelled.
- Floating point. Reals are exact, so `time` grows by exactly 0.05 and the lerp is exact.
- `settings()` and lil-gui (never called), `console.log`, OrbitControls, the renderer's pixel ratio and clear colour, the camera's field of view and clip planes, the 1920×1080 plane geometry, the vertex shaders and the unused uniforms `tSize`, `center`, `angle` and `scale`.
- The capture of pointer events by simple-input-events. Only the `move` handler's arithmetic is modelled.
- `Sketch.BuildGroup`: the source pushes a group into `groups` before it adds the panels. The model adds the panels first. No state between the two steps is observable.
