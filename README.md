# Confetti animator — a Dafny model

The extension's `showConfetti` command does the following in the active text editor:

- It creates a batch of 50 confetti particles on line 0.
- It animates the batch with a self-rescheduling timer.
- On every tick, it:
  - advances each particle (position += velocity, then gravity);
  - projects each particle onto a clamped editor position (line, column);
  - draws a decoration there in the particle's colour;
  - drops the particles that have fallen past the last line;
  - reschedules itself while any particle is left.

When no particle is left, the tick clears the decorations and stops.

The model has two modules:

- `Particles` (`particle.dfy`) covers the particle record `ConfettiParticle`:
  - the six-colour palette and `getRandomColor`;
  - the constructor's velocity draws;
  - the in-place `update` step, as the class `Particle` with a `modifies this` method.
  - `State` is the value of a particle, and `Advance` is its step as a function.
- `Animation` (`animation.dfy`) covers `showConfetti` and its inner `animate`:
  - Pure functions give one tick's meaning over particle values:
    - `Steps`, the per-particle advance;
    - `Project`, the clamping projection;
    - `Decorate`, the decoration list;
    - `Survive`, the survivor filter;
    - `Animate`, one whole tick;
    - `Iterate`, k ticks.
  - The class `Animator` holds what the closure keeps: the particle list, and the decorations last handed to the editor. Its members are:
    - the constructor, which is the batch-creation loop;
    - `Tick`, which is one call of `animate` and mutates the particle objects in place;
    - `Run`, which is the timer chain as a loop with a decreasing measure.
  - Each method is proved against the pure functions.
  - The termination bound is proved over `Iterate`.

Modelling decisions:

- **Numbers.** JavaScript numbers are exact `real`s, and `Math.floor` is `.Floor`.
- **The document.** A document is a non-empty sequence of line lengths. It is never empty, because the source always reads line 0.
- **Random draws.** `Math.random()` is a parameter `random: nat -> real` whose values all lie in [0, 1); call i returns `random(i)`.
  - Particle k of the batch uses calls 4k to 4k+3, in the source's order: the x start (an argument evaluated before the constructor), then colour, then horizontal velocity, then vertical velocity.
- **Decorations.** A decoration is `(line, column, colour)`.
- **`Animator.decorations`** holds the argument of the last `setDecorations` call of the tick: the tick's list while it reschedules, and the empty list when it stops.

The survivors of a tick are exactly the decorated particles, for every y and not only for y ≥ 0 (`DecorateMatchesSurvive`). The document has at least one line, so a negative y projects to line 0 and also passes the filter `y < lineCount`.

## Model

| member | source | states |
|---|---|---|
| Particles.ColorIndex | src/extension.ts:34 | for a draw r in [0,1), the palette index floor(r·6) lies in [0,6) and satisfies i ≤ 6r < i+1 |
| Particles.RandomColor | src/extension.ts:25-35 | getRandomColor always returns one of the six palette entries |
| Particles.Spawned | src/extension.ts:9-17 | a new particle keeps the given position, has vx in [-1,1), vy in [0.5,1.5) and a palette colour, and below line 0 it is falling |
| Particles.Particle.constructor | src/extension.ts:9-17 | the constructed object's value is the spawned state for the three draws |
| Particles.Particle.Update | src/extension.ts:19-23 | update changes only this particle; its new value is x+vx, y+vy, vy+0.05 with vx and colour unchanged |
| Particles.Advance | src/extension.ts:20-22 | the value-level update step: x += vx, y += vy, vy += 0.05; it never changes vx or the colour |
| Particles.AdvanceFalls | src/extension.ts:15-22 | the step preserves y ≥ 0 and vy ≥ 0.5, moves the particle down by at least 0.5 and strictly increases vy |
| Animation.BatchParticle | src/extension.ts:58-65 | each batch particle starts on y = 0 with x in [0, length of line 0], falling, with bounded velocity and a palette colour |
| Animation.NewBatch | src/extension.ts:52-65 | the creation loop builds exactly 50 fresh, distinct particle objects, the k-th holding BatchParticle(k) |
| Animation.Batch | src/extension.ts:58-65 | the values of the created batch: exactly 50 particles, all falling from line 0 |
| Animation.Animator.constructor | src/extension.ts:52-65 | the animator starts with fresh particle objects holding exactly the values Batch(length of line 0, random), and no decorations |
| Animation.Steps | src/extension.ts:77-78 | advancing every particle keeps the number of particles |
| Animation.StepsAt | src/extension.ts:77-78 | the i-th advanced particle is the step of the i-th particle alone |
| Animation.LineOf | src/extension.ts:81 | the projected line max(0, floor(y)) is non-negative, is floor(y) for y ≥ 0 and is 0 for y < 0 |
| Animation.Project | src/extension.ts:80-101 | a decoration is produced iff the projected line is below lineCount, iff y < lineCount; it is on that line with the particle's colour; its column is at most the line's length, is floor(x) when that is in range, 0 when floor(x) < 0 and the line length when floor(x) exceeds it |
| Animation.Decorate | src/extension.ts:75-102 | the decoration pass never produces more decorations than there are particles |
| Animation.DecorateInBounds | src/extension.ts:80-89 | every emitted decoration is on an existing line and at most at that line's end (clamped, never rejected) |
| Animation.DecoratePrefix | src/extension.ts:77-102 | handling one more particle appends exactly that particle's projection, if any |
| Animation.DecorateAppend | src/extension.ts:77-102 | the decoration pass handles each particle on its own, in order: it distributes over concatenation |
| Animation.Survive | src/extension.ts:106-108 | the filter never returns more particles than it was given |
| Animation.SurviveKeepsExactly | src/extension.ts:106-108 | a particle survives iff it was in the list and y < lineCount |
| Animation.SurviveAppend | src/extension.ts:106-108 | the filter keeps the original order: it distributes over concatenation |
| Animation.DecorateMatchesSurvive | src/extension.ts:77-108 | the decorations of a tick correspond one to one, in order, to its survivors: the i-th decoration is the projection of the i-th survivor |
| Animation.Animate | src/extension.ts:75-115 | one animate call as a function of the particle values: advance, decorate, filter, reschedule iff a survivor is left; it never yields more decorations or more survivors than particles |
| Animation.AnimateFrame | src/extension.ts:104-115 | there are exactly as many decorations as survivors, no more than particles, and the i-th decoration is the projection of the i-th survivor; a tick that stops leaves no decorations; every survivor is above the last line |
| Animation.Iterate | src/extension.ts:106-111 | the particles left after k timer ticks on an unchanging document; the list never grows |
| Animation.AdvanceAll | src/extension.ts:75-102 | the forEach pass advances every particle object in place and returns the decorations Decorate gives for the advanced values |
| Animation.KeepVisible | src/extension.ts:106-108 | the filter on the objects returns, without duplicates, objects of the old list whose values are exactly Survive of the old values, in order |
| Animation.Animator.Tick | src/extension.ts:69-116 | one animate call: the new particle values are Survive(Steps(old values)), the list holds only old particle objects, it reschedules iff particles remain, and the decorations set last are the tick's list or, when it stops, the empty list |
| Animation.Animator.Commit | src/extension.ts:104-108 | the survivor list replaces the particle list and the decorations are handed over, keeping the animator's invariant |
| Animation.StepsDescend | src/extension.ts:15-22 | one step takes every falling particle at least half a line further |
| Animation.SurviveNone | src/extension.ts:106-108 | when every particle is at or past lineCount, none survives |
| Animation.TickDescends | src/extension.ts:77-108 | the survivors of a tick are still falling and half a line further down |
| Animation.IterateDescends | src/extension.ts:106-111 | after k ticks every remaining particle is falling and at least k/2 lines down |
| Animation.AllGoneAfter | src/extension.ts:106-111 | on an unchanging document of n lines, no particle of a falling batch is left after 2n ticks |
| Animation.FinishedIsFinal | src/extension.ts:110-115 | Finished is absorbing: once no particle is left after j ticks, none is left after any later tick |
| Animation.Animator.Run | src/extension.ts:106-121 | the timer chain stops after at least one and at most 2n ticks, exactly when Iterate first becomes empty, with no particles and no decorations left |
| Animation.ShowConfetti | src/extension.ts:38-124 | with no editor nothing is started; otherwise the fresh batch is animated until no particle of it is left: after `ticks` ticks Iterate of Batch is empty, after one tick fewer (when ticks > 1) it was not, and 1 ≤ ticks ≤ 2n |

## Left out

- The vscode API is represented by plain values: decoration types, `setDecorations` as the `decorations` field, `Position`/`Range`, and command registration in `activate`/`deactivate`. The decoration's glyph (`contentText`) and the one-character range end are not represented.
- The information messages and `console.log` diagnostics are output only and do not affect the animation state.
- `setTimeout`/`clearTimeout` and the 100 ms delay are not modelled. The timer chain is the loop in `Animator.Run`.
- The guard before `clearTimeout` is not modelled, because `animationFrame` is always undefined at that point.
- The `!editor` check inside `animate` is not modelled, because the captured editor was already checked at the start of `showConfetti`.
- `Math.random()` is a parameter, not a global source.
- IEEE-754 rounding of 0.05, 0.5 and the products is not modelled; all arithmetic is exact real arithmetic.
- The nested `velocity` object is flattened into the two fields `vx` and `vy` of `Particle`. In the source it is owned by its particle alone, so flattening it loses no aliasing.
- Animation.Animator.Run: it runs all ticks on one unchanging document. The source re-reads `lineCount` and the line lengths on every tick. `Tick` takes the document per call, so a change between ticks applies to a single tick, but the 2n bound is proved only for a fixed document.
- Animation.ShowConfetti: like Run, it animates on one unchanging document, so its Iterate and 2n statements hold only for a document that does not change during the animation.
- The `helloWorld` command is not modelled; it only shows a message.
