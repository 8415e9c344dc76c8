# Portfolio page: particle simulation and lightbox, modelled in Dafny

This project models the parts of a personal portfolio page's `script.js` that are
state machines, as opposed to calls into the page's animation library:

- **Twinkling stars** (`Stars`). Each star drifts down the starfield canvas and
  wraps to the top edge with a new horizontal position. Its opacity moves by
  `twinkleSpeed` per frame and turns around at 0 and 1.
- **Shooting stars** (`ShootingStars`). A shooting star stays dormant until it is
  launched. While active it flies along a fixed 45° heading and fades by 0.015 per
  frame. It switches itself off when it is fully faded or leaves the canvas.
- **The starfield loop and launch timer** (`Starfield`). Each frame updates every
  star and then every shooting star, in array order. A once-a-second callback
  launches the first dormant shooting star of a pool of five, but only when its
  random draw is above 0.7.
- **Galaxy particles and the galaxy loop** (`Galaxy`). Each particle orbits the
  canvas centre. Every frame its angle grows by its speed and its radius wobbles.
  A radius above 400 respawns at 50. Each frame also writes the current centre
  into every particle.
- **The gallery lightbox** (`Lightbox`). Its state is the index of the shown
  image plus an open/closed flag. The index steps forwards or backwards with
  wrap-around. The keyboard works only while the lightbox is open. A click closes
  it only when it lands on the backdrop itself.
- **The skill-percentage counter** (`SkillCounter`). Every tick adds 1 to the
  number until it reaches the card's target, and then the interval is cleared.

Each entity is modelled in two layers:

- A datatype holds the entity's fields as one value. Pure functions give its
  `reset` (`Spawn`) and its `update` (`Advance`), and the lemmas are stated about
  these functions.
- A class has the source's fields. Its methods change those fields step by step,
  as the source does. Each method's postcondition ties the new `State()` to the
  pure function applied to the old one.

Inputs the page takes from the browser become parameters:

- Every `Math.random()` result is a `real` in [0, 1) (`Draws.IsDraw`).
- For the shooting star, `Math.cos(angle)` and `Math.sin(angle)` are passed as
  `cosA` and `sinA`. The angle is always π/4.
- For the galaxy, `Math.sin(2 * angle)` is passed as a `wobble` in [-1, 1].
- The canvas width and height are `nat` parameters.

Arithmetic is exact, over `real`.

A star's opacity is not confined to [0, 1]. The code reverses the twinkle
direction at 0 and 1 but never clamps the value, so the opacity can overshoot
either end by one twinkle step. `Stars.Twinkling` states the invariant that holds.

## Model

| member | source | states |
|---|---|---|
| Draws.Scale | script.js:24-25 | `Math.random() * extent` lands in [0, extent), or on 0 for an empty canvas |
| Stars.Spawn | script.js:23-31 | a reset star has size in [0,2), speed in [0.1,0.6), twinkle speed in [0.01,0.03), opacity in [0,1), direction +1 exactly when the draw exceeds 0.5, and lies on the canvas |
| Stars.Advance | script.js:33-46 | opacity moves by speed times direction; for a well-formed star the direction flips exactly when the new opacity is ≤ 0 or ≥ 1; y grows by speed, and only when it passes the height does y become 0 and x a new point in [0, width); size, speed and twinkle speed never change; the twinkle invariant, the ranges and being on the canvas are preserved |
| Stars.TwinkleStaysBounded | script.js:33-46 | after any number of frames a star's opacity stays in [-twinkleSpeed, 1 + twinkleSpeed], its direction is still ±1, and it is still on the canvas |
| Stars.SpawnedStarTwinklesInBounds | script.js:23-38 | a freshly reset star's opacity stays strictly between -0.03 and 1.03 forever |
| Stars.Star.constructor | script.js:19-21 | a new star is in the state `Spawn` gives for its draws |
| Stars.Star.Reset | script.js:23-31 | every field is reassigned as `Spawn` says, and the star is well-formed |
| Stars.Star.Update | script.js:33-46 | the new fields are `Advance` of the old ones, and a well-formed star stays well-formed |
| ShootingStars.Spawn | script.js:67-76 | a reset shooting star is dormant with opacity 1 and angle π/4, with length in [40,120), speed in [15,25), size in [1,2), x in [0,width] and y in the top half |
| ShootingStars.Launched | script.js:119-122 | a launched star is active with opacity 1 and angle π/4, with the reset ranges |
| ShootingStars.Advance | script.js:78-88 | a dormant star is left exactly as it is; an active one moves by speed along the heading, loses exactly 0.015 opacity, and stays active exactly while its opacity is > 0 and it is within the width and height; a star never wakes itself; length, speed, size and angle never change |
| ShootingStars.DormantStaysPut | script.js:78-79 | a dormant star is unchanged after any number of frames |
| ShootingStars.BurnsOut | script.js:83-86 | a live star whose opacity is at most n × 0.015 is dormant after n frames |
| ShootingStars.LaunchedBurnsOutWithin67 | script.js:83-86 | a launched star is dormant again after at most 67 frames, whatever its path |
| ShootingStars.SteadyFlight | script.js:81-86 | while still visible and on the canvas, an active star after k frames has moved k steps along its heading and faded by exactly k × 0.015 |
| ShootingStars.ExactlySixtySevenFrames | script.js:81-86 | a fully opaque active star that stays on the canvas is still active after 66 frames and dormant after the 67th |
| ShootingStars.ShootingStar.constructor | script.js:63-65 | a new shooting star is in the state `Spawn` gives |
| ShootingStars.ShootingStar.Reset | script.js:67-76 | every field is reassigned as `Spawn` says |
| ShootingStars.ShootingStar.Update | script.js:78-88 | the new fields are `Advance` of the old ones |
| ShootingStars.ShootingStar.Launch | script.js:119-122 | the new fields are `Launched`: a reset, then active |
| Galaxy.ColorIndex | script.js:150 | `floor(r * 5)` is a palette slot in [0,5) and the floor of r × 5 |
| Galaxy.ColorFor | script.js:142-151 | the chosen colour is one of the five palette entries |
| Galaxy.Spawn | script.js:128-140 | a new particle keeps the given centre and has angle in [0, 2π), radius in [50,350), size in [0.5,2.5), speed in [0.001,0.003), opacity in [0.3,0.8) and a palette colour |
| Galaxy.Advance | script.js:153-162 | the angle grows by exactly the speed; after the respawn check the radius is ≤ 400; a wobbled radius above 400 becomes exactly 50 and any other radius moves by at most 0.5; centre, size, speed, opacity and colour never change |
| Galaxy.OrbitProgress | script.js:153-162 | after n frames the angle has grown by exactly n × speed, the radius is still ≤ 400, and nothing but angle and radius has changed |
| Galaxy.AlwaysTurning | script.js:137 | with a speed from `reset`, n frames turn a particle by at least n × 0.001 radians |
| Galaxy.GalaxyParticle.constructor | script.js:128-131 | a new particle is in the state `Spawn` gives for its centre and draws |
| Galaxy.GalaxyParticle.Reset | script.js:133-140 | every field but the centre is reassigned as `Spawn` says |
| Galaxy.GalaxyParticle.Update | script.js:153-162 | the new fields are `Advance` of the old ones, and a well-formed particle stays well-formed |
| Galaxy.AnimateGalaxy | script.js:212-227 | every particle ends at `Advance` of its old state with the centre replaced by (width/2, height/2), so all particles share that centre |
| Starfield.FirstInactive | script.js:189 | the result is the lowest index of a dormant star; every star before it is active; it equals the pool size when every star is active |
| Starfield.LaunchPool | script.js:188-193 | only the first dormant star can change, and it becomes `Launched` exactly when the draw exceeds 0.7; any star that wakes is the lowest-index dormant one; a fully active pool, or a draw ≤ 0.7, is left unchanged; liveness of every star is preserved |
| Starfield.AtMostOneLaunch | script.js:188-193 | a tick raises the number of active stars by exactly one when some star is dormant and the draw exceeds 0.7, and by zero otherwise |
| Starfield.FindInactive | script.js:189 | the search returns the first dormant star's index, or the pool size, and this equals `FirstInactive` of the pool's states |
| Starfield.LaunchTick | script.js:188-193 | the pool's new states are `LaunchPool` of its old ones |
| Starfield.AnimateStarfield | script.js:196-210 | every star ends at `Stars.Advance` of its old state and every shooting star at `ShootingStars.Advance` of its old state; well-formed stars stay well-formed |
| Lightbox.NextIndex | script.js:696-699 | the next index is in range and wraps from the last image to 0 |
| Lightbox.PrevIndex | script.js:690-693 | the previous index is in range and wraps from 0 to the last image |
| Lightbox.PrevNextInverse | script.js:690-699 | previous undoes next, and next undoes previous |
| Lightbox.NextTimesRotates | script.js:696-699 | up to a full round, k steps forward move the index k places with wrap-around |
| Lightbox.FullCycle | script.js:696-699 | as many steps forward as there are images return to the starting index |
| Lightbox.KeyCommand | script.js:721-735 | a closed lightbox ignores every key; an open one closes exactly on Escape, steps back exactly on ArrowLeft, steps forward exactly on ArrowRight, and ignores anything else |
| Lightbox.Press | script.js:721-735 | a key press keeps the index in range and changes nothing while closed; while open, Escape only closes, ArrowLeft moves to `PrevIndex`, ArrowRight moves to `NextIndex`, and any other key leaves the view as it was |
| Lightbox.ArrowKeysUndoEachOther | script.js:721-735 | while open, ArrowLeft undoes ArrowRight and ArrowRight undoes ArrowLeft |
| Lightbox.Lightbox.constructor | script.js:661-665 | the lightbox holds the page's two-image table and starts closed at image 0 |
| Lightbox.Lightbox.Render | script.js:682-687 | the overlay shows the current image's src and alt, and the caption "title - description" |
| Lightbox.Lightbox.Open | script.js:668-673 | opening at an index in range shows that image, opens the overlay and locks page scrolling |
| Lightbox.Lightbox.Close | script.js:676-679 | closing clears the open flag and unlocks scrolling |
| Lightbox.Lightbox.ShowPrev | script.js:690-693 | the index becomes `PrevIndex` of the old one, and that image is shown |
| Lightbox.Lightbox.ShowNext | script.js:696-699 | the index becomes `NextIndex` of the old one, and that image is shown |
| Lightbox.Lightbox.OnKeyDown | script.js:721-735 | the new index and open flag are `Press` of the old ones; an arrow key leaves the new image shown; Escape unlocks scrolling and leaves the shown image as it was; no other key touches the scroll lock; an ignored key changes nothing at all |
| Lightbox.Lightbox.OnOverlayClick | script.js:714-718 | a click on the backdrop closes the lightbox; a click anywhere else changes nothing |
| SkillCounter.Advance | script.js:411-418 | a cleared interval never changes; a running counter below the target goes up by exactly one and keeps running; at or above the target it stops where it is |
| SkillCounter.RunCountsUp | script.js:410-418 | after n ticks the number is min(n, target) and the interval is still set exactly while n ≤ target |
| SkillCounter.StopsAtTarget | script.js:410-418 | from target + 1 ticks on, the counter is stopped at exactly the target |
| SkillCounter.ProgressCounter.constructor | script.js:410 | the counter starts at 0 with the interval set |
| SkillCounter.ProgressCounter.Tick | script.js:411-418 | the new number and interval state are `Advance` of the old ones, and the label shows the new number whenever it changed |

## Left out

- All `draw` methods, `clearRect` and the canvas context (script.js:48-58, 90-117, 164-177, 197, 213). They only paint through the browser's 2D context and change no model state.
- `requestAnimationFrame` rescheduling and `setInterval` timing (script.js:188, 209, 226, 411). One frame or one tick is one method call.
- Canvas resizing (script.js:8-15). Width and height are parameters of each call, so a resize between frames is just a different argument. The multi-frame lemmas keep the size fixed.
- `Math.random`, `Math.cos` and `Math.sin`. They are parameters with their ranges as preconditions, not a generator or trigonometry.
- IEEE double rounding. All arithmetic is exact over `real`. In particular `Math.cos(Math.PI/4)` and `Math.sin(Math.PI/4)` differ in the last bit, so they are two parameters.
- Stars.Advance: `rx` is passed on every frame but is used only when the star wraps. In the source the draw is consumed only on a wrap.
- Starfield.LaunchPool: the draw `r` is passed on every tick. In the source, `Math.random()` is called only when a dormant star exists (script.js:190), so a tick with a fully active pool consumes no draw.
- The order of updates inside one frame. Entities share no state, so their final states do not depend on it, and the contracts do not state it.
- The gallery-item click wiring (script.js:702-705). It can pass an index past the end of the two-image table, and `Lightbox.Lightbox.Open` requires an index in range instead of modelling that failure.
- The close and arrow buttons' click listeners (script.js:708-711). They call `Close`, `ShowPrev` and `ShowNext` directly, and those are modelled.
- SkillCounter.Advance: the target comes from a `data-progress` string. The model takes it as an integer. A non-numeric target, whose comparisons are always false in JavaScript, and a fractional one are not modelled.
- The label text `currentProgress + '%'` is modelled by the number it shows. The progress-bar width, the card's `animate` class and the IntersectionObserver around the counter (script.js:397-427) are left out.
- The GSAP animations, ScrollTrigger, smooth scrolling, navbar, scroll progress, magnetic and tilt handlers, and console logs (script.js:233-396, 428-651, 738-753). They are calls into an animation library or plain DOM wiring with no state of their own.
