# Dust: a verified model of the game state in main.js

The game lets the player click to create "dust" particles at a random
point of [50, 949]² around the centre (500, 500). Each call of
`dust.animateDust` moves a particle one pixel toward the centre on each
axis. A particle found exactly at the centre is absorbed: it disappears,
the dust counter drops by one and the centre grows. Three buttons each raise one stat by 1:
particles per click, particle size and gravity. Gravity only shortens the
delay `tempT` computed for the animation interval.

Modules:

- `PxStyle` (px.dfy): positions are stored in an element's style as
  `${n}px` and read back with `parseInt`. The module models JavaScript's
  integer-to-string conversion and `parseInt` with no radix argument:
  leading white space, an optional sign, the `0x` hexadecimal prefix, and
  NaN when no digit follows (`None`). It proves that reading back a
  written position gives the position.
- `Motion` (motion.dfy): one particle as a record of `left`, `top` and
  `size`. It models the per-axis move, one tick of `animateDust`, and `k`
  ticks of one particle. It proves that a particle never overshoots and
  that it is absorbed after exactly Chebyshev-distance + 1 ticks.
- `Spawning` (spawning.dfy): `random(limit)`, the spawn coordinate
  `random(900) + 50`, and the delay `15 + r·5 − gravity·0.1` with its
  clamp to at least 1.
- `Game` (game.dfy): the class `DustGame`. Its fields are the module-level
  variables of main.js:10-15 plus the particles on the page. Its methods
  are the three upgrade buttons, the `createDust` click (a counting-down
  loop, as in the source) and one `animateDust` call on a chosen particle.
  The invariant `Valid()` states the following facts. They hold of the
  model, where each absorption happens once; see `Game.DustGame.Step`
  under "Left out" for why the program itself does not guarantee them:
  - `dustCounter` equals the number of particles;
  - every particle ever created is either on the page or absorbed (two
    ghost counters);
  - `centerSize` is 1 plus `sizeIncrease` per absorbed particle;
  - every particle lies in [50, 949]² and has size at least 8.

Each call of `Math.random()` is a parameter `u` with 0 ≤ u < 1. Number
arithmetic is exact: integers are unbounded and `tempT` is a `real`.

A particle stores the integers its style strings encode. The centre test
of main.js:96 is still made on the strings (`Px(left) == "500px"`).
`CenterStyle` and `StepStyleOfPx` show that the string-level code and the
integer model agree.

## Model

| member | source | states |
|---|---|---|
| PxStyle.NatDigits | main.js:66-69 | `${n}` of a natural number is a non-empty decimal numeral. It has a leading zero only for 0 and one digit exactly below 10. |
| PxStyle.ParseIntOfPx | main.js:106-126 | For every integer n, `parseInt` of the written style `${n}px` returns n. |
| PxStyle.PxInjective | main.js:66-69 | Two positions get the same style string if and only if they are equal. |
| PxStyle.CenterStyle | main.js:96 | A position's style string is "500px" if and only if the position is 500. |
| Motion.Toward | main.js:106-115 | One move of a coordinate c gives \|new − 500\| = max(\|c − 500\| − 1, 0). It never passes 500, changes c by exactly 1, and leaves 500 unchanged. |
| Motion.StepStyleOfPx | main.js:105-127 | The string-level update (parse, compare with 500, write `${n±1}px` or keep) applied to `${c}px` gives `${Toward(c)}px`. |
| Motion.Advance | main.js:105-127 | Moving both axes lowers the Chebyshev distance to the centre by one, down to 0. It keeps the size and keeps a particle inside [50, 949]². It lands on the centre exactly when the distance was at most 1. |
| Motion.Tick | main.js:94-127 | One `animateDust` call absorbs the particle if and only if its distance to the centre is 0. |
| Motion.RunBeforeCenter | main.js:105-127 | For k up to the distance, k ticks leave the particle alive, at distance exactly distance − k, with the same size. |
| Motion.AbsorbedStays | main.js:96-103 | After absorption, further ticks leave the particle absorbed. |
| Motion.RunThrough | main.js:96-103 | The tick after the one that lands on the centre absorbs the particle. |
| Motion.AbsorbedAfter | main.js:94-127 | A particle is absorbed after k ticks if and only if k > max(\|x − 500\|, \|y − 500\|). After exactly that many ticks it sits at (500, 500) with its size unchanged. |
| Spawning.Random | main.js:20-22 | `random(limit)` lies in [0, limit) for positive limit and in [limit, 0] otherwise. |
| Spawning.RandomHits | main.js:20-22 | Every k in [0, limit) is the result of some draw. |
| Spawning.SpawnCoord | main.js:45-46 | A spawn coordinate lies in [50, 949]. |
| Spawning.SpawnCoordCovers | main.js:45-46 | Every coordinate in [50, 949] is the result of some draw. |
| Spawning.ClampDelay | main.js:54-56 | The clamped delay is at least 1. It is either 1 or the unclamped value, and it is the unclamped value whenever that is at least 1. |
| Spawning.SpawnDelay | main.js:47-56 | The delay is at least 1. It is either 1 or lies in [15 − gravity/10, 20 − gravity/10). The clamp never changes it while gravity ≤ 140, and it is always 1 from gravity 190 on. |
| Spawning.DelayNonIncreasing | main.js:47-56 | For the same draw, more gravity never gives a longer delay. |
| Game.DustGame.constructor | main.js:10-15 | The initial state: no dust, 1 per click, size 8, gravity 100, centre 1, growth 1. |
| Game.DustGame.UpgradePerClick | main.js:26-29 | `dustPerClick` rises by exactly 1. Every other field and the particles are unchanged, and the invariant is kept. |
| Game.DustGame.UpgradeSize | main.js:31-34 | `dustSize` rises by exactly 1. Everything else is unchanged, and the invariant is kept. |
| Game.DustGame.UpgradeGravity | main.js:36-39 | `gravity` rises by exactly 1. Everything else is unchanged, and the invariant is kept. |
| Game.DustGame.Spawn | main.js:43-70 | One click appends exactly `dustPerClick` particles, all at the same position in [50, 949]² and of size `dustSize`. `dustCounter` grows by `dustPerClick`, the returned delay is the clamped `tempT`, and the invariant is kept. |
| Game.DustGame.Step | main.js:94-128 | A particle at (500, 500) is removed, `dustCounter` drops by 1 and `centerSize` grows by `sizeIncrease`. Any other particle makes one `Tick` move in place, and the counters and `centerSize` are unchanged. The invariant is kept. |

## Left out

- The page itself: `getElementById`, `insertAdjacentHTML`, `innerHTML`
  display updates, style writes, element removal and the listener
  registration (main.js:4-8, 28, 33, 38, 59-69, 101). These are user
  interface only; particles are records in a sequence instead.
- Timers: `setInterval`, `clearInterval` and the `intervals` array
  (main.js:16, 72-80, 97-98, 100). `Step(i)` takes the particle as an
  index chosen by its caller. Which particle the source's interval would
  animate is not modelled. In the source, that interval:
  - reads the implicit global `currentDust`, so it is always the newest
    element;
  - calls a bare `animateDust`, which is defined only as a property of
    `dust`.
  As written, the bare `animateDust` at main.js:73 throws a ReferenceError
  on every firing, so no particle moves; the model follows
  `dust.animateDust` as if it were called.
- `for (intervals in intervals)` (main.js:77-79) rebinds the array
  variable. It is timer cleanup and is not modelled.
- Game.DustGame.Step: absorbs a particle at most once, because it acts
  only on a particle still in `particles`. main.js does not guarantee
  this:
  - `clearInterval(intervals[currentDust])` (main.js:97) indexes the array
    by an element, so it clears nothing;
  - `intervals.shift()` (main.js:98) only drops the oldest interval id.
  If the interval called `dust.animateDust`, it could call it again on
  the removed element; its style still reads "500px", so main.js:96-103
  would run again: `dustCounter` would drop again and `centerSize` would
  grow again. The invariant
  facts `dustCounter` = number of particles and `centerSize` = 1 +
  `sizeIncrease` × absorbed hold for the model, not for the program.
- `Math.random()`: each draw is a parameter in [0, 1).
- `console.log` output (main.js:48, 65, 75, 100).
- Floating-point rounding in `tempT` (main.js:47): exact reals are used,
  and only the clamp affects behaviour.
- Numbers beyond 2^53 in `parseInt` and exponent notation in `${n}`: the
  model uses unbounded integers. Positions stay within [50, 949].
- The move code that main.js:105-127 still runs after absorbing a
  particle: at 500 it changes nothing, and the element is already removed.
- The commented-out SVG spawn variant, the `MutationObserver` and the
  jQuery calls (main.js:140-218): they are not part of the running program.
