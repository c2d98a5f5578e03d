# PedroMeep path following, modelled in Dafny

This project models the core of PedroMeep, a MeepMeep plug-in that animates a robot along a
Pedro Pathing path chain. It has two cooperating objects.

- `PedroBotEntity` is the robot. The host calls `update(deltaTime)` every frame.
  - A guard skips the call unless a chain is being executed.
  - The first two calls that pass the guard are warm-up ticks.
  - After warm-up, elapsed time advances unless paused. It is mapped to a path of the chain by
    `(elapsed / timePerPath).toInt()`.
  - A time before or after the chain zeroes the elapsed time. It also stops the robot unless
    it loops.
  - A time inside the chain tells the chain's render cache which path is current. The robot
    then takes the point and heading of that path at the eased progress.
  - `followPath` installs a chain and a new render cache for it.
  - `PedroBotBuilder` holds the robot's defaults and setters.
- `PathChainEntity` is the render cache.
  - Its base image holds the whole chain's outline. It is redrawn only when the canvas size
    or the colour scheme changes.
  - Its overlay holds the current path's outline, stroked twice. It is rebuilt or cleared only
    when the current path changes.
  - An outline is a list of `moveTo`/`lineTo` commands: one `moveTo` per path, then a `lineTo`
    for each of 101 samples at `i/100`.

Files and modules:

- `Foreign.dfy` (module `Foreign`) holds the foreign values.
  - `Path`, `ColorScheme` and `FollowerConstants` are opaque types.
  - The `Geometry` record holds the uninterpreted library functions `getPoint`,
    `getHeadingGoal`, `EASE_IN_OUT_CUBIC` and `toScreenCoord`.
  - `MeepMeep` stands in for the host. It holds that geometry, the colour manager's theme and
    FieldUtil's canvas size.
  - It also holds the Kotlin number semantics the code relies on. `ToInt` is `Double.toInt()`
    (truncation saturated at the `Int` bounds), `Rem` is `Double %` and `Inc32` is the wrapping `Int` increment.
- `PathChainEntity.dfy` (module `PathChainRendering`) holds the render cache.
  - Outlines are functions: `PathOutline` and `ChainOutline`.
  - Each operation has a specification function over the cache's fields (`CacheState`). It
    counts base and overlay redraws, so "redrawn exactly when changed" can be stated.
  - The class `PathChainEntity` has the source's fields. Its methods are proved equal to
    those functions. `Path2D` is the command list that `drawPath` appends to in place, with
    `moveTo` replacing a trailing `moveTo` as `java.awt.geom.Path2D` does.
- `PedroBotEntity.dfy` (module `PedroBot`) holds the robot and its builder.
  - `Tick` is one `update` on the robot's fields (`BotState`). `Run` and `Trace` are sequences
    of ticks.
  - The class `PedroBotEntity`'s `Update` is proved equal to `Tick`. It also does the
    matching `updateCurrentPath` on its cache.

Time is a `real` number of seconds, so `deltaTime / 1e9` is exact. `deltaTime` is an `int`,
like Kotlin's `Long`, so negative deltas are modelled as well.

Behaviours of the code that are easy to misread:

- `followPath` leaves the warm-up counter as it is. Only the first two active ticks of a
  robot's lifetime are warm-up ticks; a later `followPath` starts moving on its first tick
  (`FollowPathKeepsWarmup`).
- The counter goes up on every tick that passes the guard. It is a Kotlin `Int`, so it wraps
  from `Int.MAX_VALUE` to `Int.MIN_VALUE`, and the ticks after the wrap are skipped as warm-up
  ticks (`CounterWraps`).
- The tick that runs off the end of a looping chain only zeroes the elapsed time; it leaves the
  pose where it was. The next tick shows the first path (`LoopRestartsAtFirstPath`).
- The overlay is rebuilt when the current `Path` object differs from the stored one; two
  indices holding the same path count as no change (`AfterUpdateCurrentPath`).
- `toInt()` truncates toward zero, so a negative elapsed time above `-timePerPath` gives
  index 0 and shows the first path, with the easing argument in `(-1, 0]`. Only negative
  deltas can produce such a time (`SegmentIndexBounds`, `ProgressBounds`).
- `toInt()` saturates at the `Int` bounds, so an elapsed time beyond `Int.MAX_VALUE` paths
  gives index `Int.MAX_VALUE`, which is past the end of any chain (`Foreign.ToInt`,
  `SegmentIndexBounds`).
- `setCanvasDimensions` redraws the base before it stores the new size, so the new base image
  has the previous size (`AfterSetCanvasDimensions`).
- A scheme change does not rebuild the overlay. The overlay keeps the old colour until the
  current path changes (`AfterSwitchScheme`, `Consistent`).
- With two paths, 2 s per path and 0.5 s ticks, the robot shows nothing for the two warm-up
  ticks, the first path for three ticks, the second for four, and stops on the tenth
  (`TwoPathScenario`).

## Model

| member | source | states |
|---|---|---|
| `Foreign.ToInt` | src/main/java/io/github/lunbun/pedromeep/PedroBotEntity.kt:163 | `toInt()` always gives an `Int`. For `x >= 0` the result is non-negative and at most `x`, and within 1 below `x` when `x` is below `Int.MAX_VALUE + 1`; from there on it is `Int.MAX_VALUE`. For `x < 0` it is non-positive and at least `x`, within 1 above `x` when `x` is above `Int.MIN_VALUE - 1`, and `Int.MIN_VALUE` below that. |
| `Foreign.Truncate` | src/main/java/io/github/lunbun/pedromeep/PedroBotEntity.kt:178 | The quotient `%` discards is truncated toward zero without bound: within 1 below a non-negative `x`, within 1 above a negative one. |
| `Foreign.RemBounds` | src/main/java/io/github/lunbun/pedromeep/PedroBotEntity.kt:178 | `%` on doubles keeps the dividend's sign. For `a >= 0` the result is in `[0, b)`, for `a < 0` it is in `(-b, 0]`. Divided by `b` it is `a/b` minus its truncation. |
| `Foreign.Inc32` | src/main/java/io/github/lunbun/pedromeep/PedroBotEntity.kt:153-159 | The `Int` post-increment stays in 32-bit range. It adds one below the maximum and wraps the maximum to the minimum. |
| `PathChainRendering.LineSamplesAt` | src/main/java/io/github/lunbun/pedromeep/PathChainEntity.kt:63-67 | The first `n` loop iterations append exactly `n` commands. Command `k` is `lineTo` the screen point of `getPoint(k/100)`. |
| `PathChainRendering.PathOutlineShape` | src/main/java/io/github/lunbun/pedromeep/PathChainEntity.kt:58-68 | `drawPath` appends exactly 102 commands. The first is `moveTo(screen(getPoint(0)))`. Command `j` for `j` in 1..101 is `lineTo(screen(getPoint((j-1)/100)))`. Exactly one command is a `moveTo`. |
| `PathChainRendering.ChainOutlineSize` | src/main/java/io/github/lunbun/pedromeep/PathChainEntity.kt:91-94 | The base outline has `102*size` commands and exactly `size` `moveTo`s. An empty chain gives an empty outline. |
| `PathChainRendering.ChainOutlineBlock` | src/main/java/io/github/lunbun/pedromeep/PathChainEntity.kt:91-94 | Block `k` of 102 commands of the base outline is exactly `drawPath`'s output for path `k`, so the paths appear in chain order. |
| `PathChainRendering.ChainOutlineEndsWithLine` | src/main/java/io/github/lunbun/pedromeep/PathChainEntity.kt:91-94 | The outline of a non-empty prefix of the chain ends with a `lineTo`, so the next path's `moveTo` starts a new subpath instead of replacing one. |
| `PathChainRendering.WithBaseRedrawn` | src/main/java/io/github/lunbun/pedromeep/PathChainEntity.kt:71-114 | `redrawPath` makes an image of the stored canvas size, truncated. It holds one stroke of the chain outline, inner width, unfocused opacity, current scheme. It counts one base redraw and touches nothing else. |
| `PathChainRendering.WithOverlayRedrawn` | src/main/java/io/github/lunbun/pedromeep/PathChainEntity.kt:117-175 | With no current path the overlay is cleared. Otherwise it is canvas-sized with the current path's outline stroked twice: outer width at outer opacity, then inner width at full colour. It counts one overlay redraw and touches nothing else. |
| `PathChainRendering.Initial` | src/main/java/io/github/lunbun/pedromeep/PathChainEntity.kt:31-49 | After construction the base has been drawn once, at the initial canvas size and scheme. There is no current path, no overlay and no overlay redraw. |
| `PathChainRendering.AfterUpdateCurrentPath` | src/main/java/io/github/lunbun/pedromeep/PathChainEntity.kt:51-56 | The argument becomes the current path. The overlay is redrawn once exactly when the argument differs, and the state is unchanged when it is equal. Base, scheme and size are untouched. |
| `PathChainRendering.AfterSetCanvasDimensions` | src/main/java/io/github/lunbun/pedromeep/PathChainEntity.kt:187-196 | The new size is always stored. The base is redrawn once exactly when width or height differs, and at the previous size. The overlay is not redrawn. |
| `PathChainRendering.AfterSwitchScheme` | src/main/java/io/github/lunbun/pedromeep/PathChainEntity.kt:198-206 | The scheme is stored. The base is redrawn once with it exactly when it differs, and nothing changes when it is equal. The overlay is untouched. |
| `PathChainRendering.ConsistentPreserved` | src/main/java/io/github/lunbun/pedromeep/PathChainEntity.kt:47-206 | Every operation keeps two facts. The base shows the whole chain in the current scheme. The overlay exists exactly when a current path does, and shows that path's outline, outer stroke first. |
| `PathChainRendering.UpdateCurrentPathIdempotent` | src/main/java/io/github/lunbun/pedromeep/PathChainEntity.kt:51-56 | Calling `updateCurrentPath` again with the same path changes nothing. |
| `PathChainRendering.SetCanvasDimensionsIdempotent` | src/main/java/io/github/lunbun/pedromeep/PathChainEntity.kt:187-196 | Resizing again to the size just stored changes nothing. |
| `PathChainRendering.PathChainEntity.constructor` | src/main/java/io/github/lunbun/pedromeep/PathChainEntity.kt:19-49 | Takes the canvas size from the host and draws the base. Leaves the state `Initial` describes, and the cache is consistent. |
| `PathChainRendering.PathChainEntity.UpdateCurrentPath` | src/main/java/io/github/lunbun/pedromeep/PathChainEntity.kt:51-56 | The new state is `AfterUpdateCurrentPath` of the old one, and consistency is kept. |
| `PathChainRendering.PathChainEntity.DrawPath` | src/main/java/io/github/lunbun/pedromeep/PathChainEntity.kt:58-68 | Appends exactly `PathOutline` to the `Path2D` in place, keeping what was already there except a trailing `moveTo`, which its own `moveTo` replaces. |
| `PathChainRendering.PathChainEntity.RedrawPath` | src/main/java/io/github/lunbun/pedromeep/PathChainEntity.kt:71-114 | The loop over the chain builds `ChainOutline`. The new state is `WithBaseRedrawn` of the old one. |
| `PathChainRendering.PathChainEntity.RedrawCurrentSegment` | src/main/java/io/github/lunbun/pedromeep/PathChainEntity.kt:117-175 | The new state is `WithOverlayRedrawn` of the old one. |
| `PathChainRendering.PathChainEntity.Update` | src/main/java/io/github/lunbun/pedromeep/PathChainEntity.kt:177 | Changes nothing. |
| `PathChainRendering.PathChainEntity.Render` | src/main/java/io/github/lunbun/pedromeep/PathChainEntity.kt:179-185 | Draws the base at (0,0), then the overlay at (0,0) exactly when there is one, and nothing else. It changes no field. |
| `PathChainRendering.PathChainEntity.SetCanvasDimensions` | src/main/java/io/github/lunbun/pedromeep/PathChainEntity.kt:187-196 | The new state is `AfterSetCanvasDimensions` of the old one, and consistency is kept. |
| `PathChainRendering.PathChainEntity.SwitchScheme` | src/main/java/io/github/lunbun/pedromeep/PathChainEntity.kt:198-206 | The new state is `AfterSwitchScheme` of the old one, and consistency is kept. |
| `PedroBot.SegmentIndexBounds` | src/main/java/io/github/lunbun/pedromeep/PedroBotEntity.kt:163 | The index is an `Int`. For `elapsed >= 0` it is non-negative with `k*T <= elapsed`, and `elapsed < k*T + T` while `elapsed/T` is below `Int.MAX_VALUE + 1`; beyond that it is `Int.MAX_VALUE`. Any `elapsed` in `(-T, T)` gives 0, and `elapsed <= -T` gives a negative index. |
| `PedroBot.ProgressBounds` | src/main/java/io/github/lunbun/pedromeep/PedroBotEntity.kt:178 | For `elapsed >= 0` the easing argument lies in `[0,1)`, and within the `Int` range of indices it is the fraction of segment `k`'s time already spent. For negative `elapsed` it lies in `(-1, 0]`. |
| `PedroBot.Tick` | src/main/java/io/github/lunbun/pedromeep/PedroBotEntity.kt:155-182 | Five facts hold. Without an executing chain nothing changes. Otherwise the counter is incremented, wrapping. Chain, pause and loop flags never change, and execution can only stop. A path shown is one of the chain's, and when none is shown the pose is kept. Non-negative time and delta give non-negative time. |
| `PedroBot.AfterFollowPath` | src/main/java/io/github/lunbun/pedromeep/PedroBotEntity.kt:186-192 | The chain is set and executing, with elapsed time 0. Pause flag, loop flag, warm-up counter and pose are unchanged. |
| `PedroBot.WarmupTick` | src/main/java/io/github/lunbun/pedromeep/PedroBotEntity.kt:129-159 | While the counter is below `SKIP_LOOPS` = 2, an active tick only increments it. Elapsed time, pose and the cache stay as they were. |
| `PedroBot.TickInRange` | src/main/java/io/github/lunbun/pedromeep/PedroBotEntity.kt:161-181 | After warm-up, elapsed advances by `deltaTime/1e9` exactly when not paused. When index `k` is in the chain, the cache is told `getPath(k)`, and for non-negative time `k*T <= elapsed`. The pose becomes `(getPoint(t).x, getPoint(t).y, getHeadingGoal(t))` with `t = ease((elapsed % T)/T)`, whose argument is in `[0,1)` for non-negative time. Nothing else changes. |
| `PedroBot.TickExhausted` | src/main/java/io/github/lunbun/pedromeep/PedroBotEntity.kt:164-173 | After warm-up with the index outside the chain, elapsed becomes 0 whether or not looping is on. Nothing is shown and the pose is untouched. Executing becomes the loop flag. |
| `PedroBot.EmptyChainExhausted` | src/main/java/io/github/lunbun/pedromeep/PedroBotEntity.kt:164 | An empty chain is exhausted on every tick after warm-up. |
| `PedroBot.StoppedStaysStopped` | src/main/java/io/github/lunbun/pedromeep/PedroBotEntity.kt:156-170 | When the bot is not executing, or has no chain, any number of ticks leaves every field unchanged. |
| `PedroBot.ElapsedStaysNonNegative` | src/main/java/io/github/lunbun/pedromeep/PedroBotEntity.kt:161-165 | With non-negative deltas, elapsed time stays non-negative over any run. |
| `PedroBot.WarmupNotRepeated` | src/main/java/io/github/lunbun/pedromeep/PedroBotEntity.kt:153-159 | Once the counter has reached `SKIP_LOOPS`, it never drops below its value over any run short of wrapping. So the warm-up is not repeated. |
| `PedroBot.FollowPathKeepsWarmup` | src/main/java/io/github/lunbun/pedromeep/PedroBotEntity.kt:186-192 | After warm-up, the first tick after a new `followPath` already advances the time and shows the first path. |
| `PedroBot.LoopRestartsAtFirstPath` | src/main/java/io/github/lunbun/pedromeep/PedroBotEntity.kt:163-176 | After a looping bot's elapsed time has been zeroed, the next tick of less than one path's time shows the first path. |
| `PedroBot.CounterWraps` | src/main/java/io/github/lunbun/pedromeep/PedroBotEntity.kt:153-159 | An active tick at `Int.MAX_VALUE` wraps the counter to `Int.MIN_VALUE`. The next active tick is then skipped as a warm-up tick. |
| `PedroBot.RunFromSteps` | src/main/java/io/github/lunbun/pedromeep/PedroBotEntity.kt:155-182 | If each tick of a run leads to the next given state and shows the given path, the run shows exactly those paths and ends in the last state. |
| `PedroBot.RunAppend` | src/main/java/io/github/lunbun/pedromeep/PedroBotEntity.kt:155-182 | Ticking through `a` and then `b` ends where ticking through `a + b` ends, and shows the paths of `a` followed by those of `b`. |
| `PedroBot.TwoPathScenario` | src/main/java/io/github/lunbun/pedromeep/PedroBotEntity.kt:155-192 | Setup: two paths, `T` = 2 s, ticks of 0.5 s, not looping. The shown paths are none, none, three times path 0, four times path 1, none. At 4.0 s the bot stops with elapsed time 0. |
| `PedroBot.PedroBotEntity.constructor` | src/main/java/io/github/lunbun/pedromeep/PedroBotEntity.kt:112-153 | Stores the configuration. Starts with no chain, no cache, not executing, elapsed 0, not paused, looping, counter 0, at the given pose. |
| `PedroBot.PedroBotEntity.Update` | src/main/java/io/github/lunbun/pedromeep/PedroBotEntity.kt:155-182 | The new state is `Tick` of the old one. When `Tick` shows a path, the cache does `updateCurrentPath` with it; otherwise the cache is unchanged. The chain-has-cache invariant is kept. |
| `PedroBot.PedroBotEntity.FollowPath` | src/main/java/io/github/lunbun/pedromeep/PedroBotEntity.kt:186-192 | The new state is `AfterFollowPath` of the old one. The cache is a fresh `PathChainEntity` for the chain, in its initial state, so the non-null assertion in `update` holds. |
| `PedroBot.PedroBotBuilder.constructor` | src/main/java/io/github/lunbun/pedromeep/PedroBotEntity.kt:14-34 | Defaults: `FollowerConstants()`, width = height = 18.0, the origin pose, no scheme, opacity 0.8, `timePerPath` 2.0. |
| `PedroBot.PedroBotBuilder.SetDimensions` | src/main/java/io/github/lunbun/pedromeep/PedroBotEntity.kt:43-47 | Changes width and height only, and returns the same builder. |
| `PedroBot.PedroBotBuilder.SetStartPose` | src/main/java/io/github/lunbun/pedromeep/PedroBotEntity.kt:55-58 | Changes the start pose only, and returns the same builder. |
| `PedroBot.PedroBotBuilder.SetConstants` | src/main/java/io/github/lunbun/pedromeep/PedroBotEntity.kt:67-70 | Changes the constants only, and returns the same builder. |
| `PedroBot.PedroBotBuilder.SetColorScheme` | src/main/java/io/github/lunbun/pedromeep/PedroBotEntity.kt:78-81 | Sets the scheme only, and returns the same builder. |
| `PedroBot.PedroBotBuilder.SetTimePerPath` | src/main/java/io/github/lunbun/pedromeep/PedroBotEntity.kt:89-92 | Changes `timePerPath` only, and returns the same builder. |
| `PedroBot.PedroBotBuilder.Build` | src/main/java/io/github/lunbun/pedromeep/PedroBotEntity.kt:100-109 | A fresh robot with the builder's settings. Its scheme is the set one, otherwise the host's current theme. |

## Left out

- AWT work is not modelled: creating images, `Graphics2D`, rendering hints, `BasicStroke` and `Color`. An image is its size plus the strokes drawn into it, and the pixels that stroking produces are not modelled.
- The numeric values of the stroke widths and opacities, and `FieldUtil.scaleInchesToPixel`, are foreign constants. They appear only as the names `InnerStrokeWidth`, `OuterStrokeWidth`, `UnfocusedOpacity`, `OuterOpacity` and `FullOpacity`.
- `Path.getPoint`, `Path.getHeadingGoal`, `Ease.EASE_IN_OUT_CUBIC` and `toScreenCoord` are foreign library code. They are uninterpreted, so nothing is claimed about easing endpoints or monotonicity.
- `pathBuilder()` only builds a foreign `PathBuilder`.
- Floating point details are not modelled: the rounding of `deltaTime / 1e9`, and of the division and `%`, and NaN or infinite values. Time is exact real arithmetic.
- `PedroBot.PedroBotEntity.Update`: requires `timePerPath > 0`. With zero or negative `timePerPath` the source divides into NaN or infinity, and the model does not reproduce what `toInt()` and `%` then give.
- `onAddToEntityList`/`onRemoveFromEntityList` and the host requests to add or remove entities are host entity-list plumbing. The cache that a second `followPath` replaces is still registered with the host, and the model does not track that.
- The `BotEntity` superclass is not modelled (how the pose is drawn, opacity), nor the `tag` and `zIndex` fields. The pose is a field of `PedroBotEntity`, and `Pose` stands for both `Pose` and `Pose2d`.
- `currentPathChain` and `pathChainEntity` are public properties that any caller could reassign. The model assumes only `followPath` sets them, since that is what makes the non-null assertion in `update` safe.
- `isPathPaused` and `looping` are public properties that the host sets directly. There are no pause or resume methods to model.
- `PedroMeepExample.kt` (demo wiring) and `build.gradle.kts` are not part of this model.
