# Dispersion: a model of the animated background widget

The app draws a decorative background. A `WidgetViewGroup` spawns twenty
`WidgetView`s. Each view caches one offscreen bitmap holding a large oval or
rectangle with a gradient. It fades the bitmap in, moves it along a random
ten-segment quadratic path, fades it out, and then regenerates it with new
random geometry, forever. This project models three pieces of that in Dafny:

- the measurement rule of `WidgetView`;
- the shape choice and geometry of one regeneration;
- the redraw cache and animation lifecycle of a view, and the spawn loop of the group.

Every `Math.random()` call that decides geometry, shape or timing is an
explicit parameter `u` in [0, 1); the colour draws are left out. Floats are
exact reals. The host's animation callbacks are the events of a state machine.

Modules:

- `Draws` (draws.dfy): what a random draw is, and Kotlin's truncating
  `toInt()`/`toLong()`.
- `Measurement` (measurement.dfy): `getMode`, `getWidthSize`, `getHeightSize`
  and `onMeasure`. A measure spec follows the layout android.view.View.MeasureSpec
  documents: the mode in the two high bits, the size in the low thirty. Kotlin
  `Int` addition wraps around at 32 bits.
- `Shapes` (shapes.dfy): `randomWidth`/`randomHeight`, the `shape` index mapping,
  the rectangle and gradient of `drawShape`, and the path loop of `bessel`
  (`BuildPath`, proved against `PathOf`).
- `Lifecycle` (lifecycle.dfy): the view's state as a value, the step of each
  host event, the invariant `Valid`, and the lemmas about traces.
- `View` (widget_view.dfy): class `WidgetView`. `redraw` and `bitmap` are the
  source's own fields; `generation`, `phase`, `fadingIn`, `started` and
  `invalidations` record what the bitmap allocations, the animators and
  `invalidate()` do. The four host callbacks (`OnDraw`, `OnFadeInEnd`,
  `OnTravelEnd`, `OnFadeOutEnd`) each leave the fields equal to the matching
  `Lifecycle` step of the old state; the helpers `DrawShape`, `FadeIn`,
  `Bessel` and `FadeOut` state only the fields they change.
- `Group` (widget_view_group.dfy): class `WidgetViewGroup` with the `init`
  spawn loop, `time()` and `noise()`.

## Behaviour of the code the model follows

- The rectangle passed to `drawOval`/`drawRect` is
  `RectF(mLeft, mTop, left + size, top + size)`. Here `left`/`top` are the
  View's own layout position, not the random anchor. So the drawn shape is
  not 1500 × 1500 in general: `DrawnRect` is `size` wide exactly when
  `mLeft == left`. Only the gradient spans `mLeft .. mLeft + 1500`.
- `delay(time())` waits 0 to 4 **milliseconds**, because `delay` takes
  milliseconds. In the model all twenty views are spawned within 80 ms of the
  coroutine's start (`Init`'s last ensures).
- Fade and travel durations are 5000 ms and 10 × 8000 = 80000 ms.
- The fade-in and the travel start together in `drawShape`. Of these two, only
  the travel set has an end listener (the fade-out it starts has one too). The fade-in's end triggers nothing.
- `Bitmap.createBitmap` throws for a non-positive width or height. The model's `CreateBitmapFailed`
  outcome leaves the view unchanged, so `redraw` stays set.

## Model

| member | source | states |
|---|---|---|
| Draws.Truncate | app/src/main/java/com/aliyunm/myapplication/WidgetViewGroup.kt:52 | converting a double to an integer drops the fraction toward zero: a non-negative value gives its floor, a negative value its ceiling |
| Draws.TruncateScaledDraw | app/src/main/java/com/aliyunm/myapplication/WidgetView.kt:144 | `(Math.random() * n).toInt()` is one of 0 .. n-1 |
| Measurement.Wrap32 | app/src/main/java/com/aliyunm/myapplication/WidgetView.kt:72 | Kotlin Int sum: congruent to the exact sum modulo 2^32, and equal to it when it fits in an Int |
| Measurement.ModeOf | app/src/main/java/com/aliyunm/myapplication/WidgetView.kt:65 | the mode read from a spec is a multiple of 2^30 no larger than the spec |
| Measurement.SizeOf | app/src/main/java/com/aliyunm/myapplication/WidgetView.kt:70 | the size read from a spec is in 0 .. 2^30-1 |
| Measurement.WrapTwice | app/src/main/java/com/aliyunm/myapplication/WidgetView.kt:72 | wrapping after each of the two additions equals wrapping the exact three-term sum once |
| Measurement.GetMode | app/src/main/java/com/aliyunm/myapplication/WidgetView.kt:64-66 | `getMode`: compares the decoded mode with EXACTLY; its meaning is stated by `GetModeExactly` |
| Measurement.GetWidthSize | app/src/main/java/com/aliyunm/myapplication/WidgetView.kt:68-75 | the spec size when exact, otherwise the spec size plus paddingStart plus paddingEnd wrapped once to an Int (the two left-to-right wraps collapse by `WrapTwice`) |
| Measurement.GetHeightSize | app/src/main/java/com/aliyunm/myapplication/WidgetView.kt:77-84 | the spec size when exact, otherwise the spec size plus paddingTop plus paddingBottom wrapped once to an Int |
| Measurement.OnMeasure | app/src/main/java/com/aliyunm/myapplication/WidgetView.kt:57-62 | the pair passed to `setMeasuredDimension`; its two components are stated by `MeasuredWidth` and `MeasuredHeight` |
| Measurement.SpecRoundTrip | app/src/main/java/com/aliyunm/myapplication/WidgetView.kt:64-70 | decoding a spec made from a size and a mode gives back that mode and that size |
| Measurement.GetModeExactly | app/src/main/java/com/aliyunm/myapplication/WidgetView.kt:64-66 | `getMode` is true for EXACTLY and false for AT_MOST and UNSPECIFIED |
| Measurement.MeasuredWidth | app/src/main/java/com/aliyunm/myapplication/WidgetView.kt:57-75 | measured width: the spec size in EXACTLY mode; in every other mode the size plus paddingStart plus paddingEnd, wrapped to an Int |
| Measurement.MeasuredHeight | app/src/main/java/com/aliyunm/myapplication/WidgetView.kt:77-84 | measured height: the spec size in EXACTLY mode; in every other mode the size plus paddingTop plus paddingBottom, wrapped to an Int |
| Measurement.PaddedWidthGrows | app/src/main/java/com/aliyunm/myapplication/WidgetView.kt:68-75 | with non-negative padding that does not overflow, the padded width is the exact sum and at least the exact-mode width |
| Measurement.PaddedWidthCanWrap | app/src/main/java/com/aliyunm/myapplication/WidgetView.kt:72 | a padding near Int.MAX_VALUE wraps the padded width to a negative number |
| Shapes.RandomCoord | app/src/main/java/com/aliyunm/myapplication/WidgetView.kt:132-138 | `randomWidth`/`randomHeight`: for a draw and a positive extent the coordinate lies in [-750, extent - 750) (also `RandomCoordBounds`) |
| Shapes.RandomCoordBounds | app/src/main/java/com/aliyunm/myapplication/WidgetView.kt:132-138 | a random anchor coordinate lies in [-750, extent - 750), so a shape may hang off either edge |
| Shapes.ShapeIndex | app/src/main/java/com/aliyunm/myapplication/WidgetView.kt:144 | the shape index is 0, 1 or 2 |
| Shapes.ShapeFor | app/src/main/java/com/aliyunm/myapplication/WidgetView.kt:145-155 | the `when`: some shape exactly for indices 0, 1, 2, and a rectangle exactly for 2 (so an oval for 0 and 1); `ShapeDrawn` states it for a draw |
| Shapes.ShapeDrawn | app/src/main/java/com/aliyunm/myapplication/WidgetView.kt:143-156 | every regeneration draws exactly one shape: an oval exactly when the draw is below 2/3, otherwise a rectangle |
| Shapes.DrawnRect | app/src/main/java/com/aliyunm/myapplication/WidgetView.kt:124 | the rectangle starts at the random anchor, but it is 1500 wide (tall) exactly when the anchor equals the View's own left (top) |
| Shapes.DrawnRectNotFixedSize | app/src/main/java/com/aliyunm/myapplication/WidgetView.kt:124 | a View at the origin with anchor -750 draws a rectangle 2250 wide |
| Shapes.GradientFor | app/src/main/java/com/aliyunm/myapplication/WidgetView.kt:107-112 | the gradient starts at the anchor and spans exactly 1500 on both axes |
| Shapes.QuadFor | app/src/main/java/com/aliyunm/myapplication/WidgetView.kt:211 | one `quadTo` from four draws in argument order: control (width, height), end (width, height); its bounds are stated by `PathInBounds` |
| Shapes.PathOf | app/src/main/java/com/aliyunm/myapplication/WidgetView.kt:209-213 | one quad per segment draw, the k-th built from the k-th draws; `BuildPath` is proved equal to it |
| Shapes.PathInBounds | app/src/main/java/com/aliyunm/myapplication/WidgetView.kt:209-213 | the path has one quad per segment draw, and every control and end point lies in the anchor range of the current size |
| Shapes.BuildPath | app/src/main/java/com/aliyunm/myapplication/WidgetView.kt:203-213 | the `bessel` loop yields exactly 10 quads: the i-th is built from the i-th four draws, in argument order |
| Lifecycle.ShapeBitmap | app/src/main/java/com/aliyunm/myapplication/WidgetView.kt:117-127 | the bitmap `drawShape` renders has the view's width and height, the current generation, exactly one shape, and a gradient spanning 1500 on both axes |
| Lifecycle.OnDraw | app/src/main/java/com/aliyunm/myapplication/WidgetView.kt:46-55 | the draw step: with redraw clear nothing changes; when redraw stays set nothing changes; a painted bitmap is the state's bitmap; the generation grows by exactly one when the state changes (also `DrawRegenerates`, `DrawReuses`, `DrawRejectsEmptySize`, `DrawnBitmapInitialised`) |
| Lifecycle.FadeInEnded | app/src/main/java/com/aliyunm/myapplication/WidgetView.kt:161-169 | the fade-in end starts nothing and leaves redraw, bitmap, phase, log and repaints as they were; only the fade-in stops running |
| Lifecycle.TravelEnded | app/src/main/java/com/aliyunm/myapplication/WidgetView.kt:220-225 | the travel end appends exactly one fade-out and enters FadingOut, leaving redraw, bitmap and repaints as they were |
| Lifecycle.FadeOutEnded | app/src/main/java/com/aliyunm/myapplication/WidgetView.kt:182-186 | the fade-out end sets redraw, returns to waiting and adds one repaint request, leaving bitmap and log as they were |
| Lifecycle.InitialValid | app/src/main/java/com/aliyunm/myapplication/WidgetView.kt:34-44 | a new view (redraw set, no bitmap, nothing running) satisfies the invariant |
| Lifecycle.StepPreservesValid | app/src/main/java/com/aliyunm/myapplication/WidgetView.kt:44-233 | every host event keeps the invariant: redraw is set exactly while waiting for a draw; a bitmap exists once one was generated and is the latest; the animation log is whole fade-in/travel/fade-out cycles |
| Lifecycle.RunPreservesValid | app/src/main/java/com/aliyunm/myapplication/WidgetView.kt:44-233 | every state reachable by any admissible event trace satisfies the invariant |
| Lifecycle.DrawRegenerates | app/src/main/java/com/aliyunm/myapplication/WidgetView.kt:47-52 | with redraw set and a positive size, a draw makes a new bitmap of exactly that size, clears redraw, bumps the generation and starts one fade-in followed by one 10-segment, 80000 ms travel |
| Lifecycle.DrawReuses | app/src/main/java/com/aliyunm/myapplication/WidgetView.kt:46-55 | with redraw clear, a draw paints the cached bitmap and changes nothing, starting no animation |
| Lifecycle.DrawRejectsEmptySize | app/src/main/java/com/aliyunm/myapplication/WidgetView.kt:47-48 | with redraw set and a non-positive size, `createBitmap` throws and the view is unchanged |
| Lifecycle.DrawnBitmapInitialised | app/src/main/java/com/aliyunm/myapplication/WidgetView.kt:26-53 | in every valid state a draw never reads the lateinit bitmap uninitialised; it fails exactly when it must allocate with a non-positive size; otherwise it paints the view's current bitmap |
| Lifecycle.FirstDrawCreatesBitmap | app/src/main/java/com/aliyunm/myapplication/WidgetView.kt:44-53 | the first draw of a new view of positive size creates a bitmap of that size and starts the travel |
| Lifecycle.OnlyFadeOutSetsRedraw | app/src/main/java/com/aliyunm/myapplication/WidgetView.kt:182-186 | only the fade-out's end sets redraw; it also requests exactly one repaint, and no other event does |
| Lifecycle.FadeOutOnlyAfterTravel | app/src/main/java/com/aliyunm/myapplication/WidgetView.kt:161-225 | animations are only appended; the travel end appends exactly one fade-out; the fade-in end appends nothing; no other event starts a fade-out |
| Lifecycle.AtMostOneRegeneration | app/src/main/java/com/aliyunm/myapplication/WidgetView.kt:46-55 | with no fade-out end in a trace, the view regenerates at most once, and not at all if redraw was clear at the start (its bitmap stays the same) |
| Lifecycle.FullCycle | app/src/main/java/com/aliyunm/myapplication/WidgetView.kt:128-186 | draw, fade-in end, travel end and fade-out end bring a waiting view back to waiting with redraw set, one more generation, and one more fade-in/travel/fade-out in its log |
| View.WidgetView.constructor | app/src/main/java/com/aliyunm/myapplication/WidgetView.kt:34-44 | a new view starts with redraw set and no bitmap |
| View.WidgetView.OnDraw | app/src/main/java/com/aliyunm/myapplication/WidgetView.kt:46-55 | `onDraw` updates the fields to the lifecycle's draw step and returns what is painted or raised |
| View.WidgetView.DrawShape | app/src/main/java/com/aliyunm/myapplication/WidgetView.kt:117-130 | `drawShape` rasterises the shape for the draws, then starts the fade-in and the travel, in that order |
| View.WidgetView.FadeIn | app/src/main/java/com/aliyunm/myapplication/WidgetView.kt:161-169 | `fadeIn` starts one 0-to-1 alpha fade of 5000 ms |
| View.WidgetView.Bessel | app/src/main/java/com/aliyunm/myapplication/WidgetView.kt:203-234 | `bessel` starts one travel along the built path, lasting 10 × 8000 ms |
| View.WidgetView.FadeOut | app/src/main/java/com/aliyunm/myapplication/WidgetView.kt:174-198 | `fadeOut` starts one 1-to-0 alpha fade of 5000 ms |
| View.WidgetView.OnFadeInEnd | app/src/main/java/com/aliyunm/myapplication/WidgetView.kt:161-169 | the fade-in's end changes nothing except that the fade-in no longer runs |
| View.WidgetView.OnTravelEnd | app/src/main/java/com/aliyunm/myapplication/WidgetView.kt:220-225 | the travel set's end starts the fade-out |
| View.WidgetView.OnFadeOutEnd | app/src/main/java/com/aliyunm/myapplication/WidgetView.kt:182-186 | the fade-out's end sets redraw and requests one repaint |
| Group.Time | app/src/main/java/com/aliyunm/myapplication/WidgetViewGroup.kt:51-53 | `time()` is a delay of 0 to 4 ms |
| Group.Elapsed | app/src/main/java/com/aliyunm/myapplication/WidgetViewGroup.kt:42-43 | the clock after n delays of `delay(time())` lies between 0 and 4n ms |
| Group.ElapsedBounds | app/src/main/java/com/aliyunm/myapplication/WidgetViewGroup.kt:42-43 | after n delays the clock is between 0 and 4n ms, and it never goes back |
| Group.WidgetViewGroup.constructor | app/src/main/java/com/aliyunm/myapplication/WidgetViewGroup.kt:31-37 | a new group ends up holding the twenty spawned views |
| Group.WidgetViewGroup.Init | app/src/main/java/com/aliyunm/myapplication/WidgetViewGroup.kt:39-49 | the loop runs `Spawn` exactly 20 times: 20 views, each new and in its initial state, none twice; `views` and the children are the same list; the k-th spawn time is the sum of the first k+1 delays, at most 80 ms in all (the append order of each iteration is stated by `Spawn`) |
| Group.WidgetViewGroup.Spawn | app/src/main/java/com/aliyunm/myapplication/WidgetViewGroup.kt:43-46 | one iteration advances the clock by the delay, creates a new view in its initial state and appends that same view at the end of both `views` and the children, leaving earlier entries as they were, and records its spawn time |
| Group.WidgetViewGroup.Noise | app/src/main/java/com/aliyunm/myapplication/WidgetViewGroup.kt:70-72 | `noise()` changes no state |

## Left out

- Colours are not modelled: `color()`, `setAlphaComponent` at half alpha, and the gradient's colours and tile mode. The colour draws taken between the anchor and the shape index are not model parameters.
- Rasterisation is not modelled: `drawOval`, `drawRect`, dithering, `canvas.drawBitmap`, `super.onDraw`. A bitmap is a record of its size, its generation, the shape kind, the rectangle and the gradient geometry.
- Floating point is not modelled: reals are exact, so the rounding of `Math.random() * n`, the `toFloat()` conversions, and `toInt()` saturation and NaN are left out. They can move each boundary by one rounding step: for example `(0.6666666666666666 * 3).toInt()` is 2, a rectangle, although the draw is below 2/3, and `toFloat()` can round a coordinate up onto the upper bound of `RandomCoordBounds`.
- Animation timing is not modelled: alpha and position interpolation per tick, the `PathInterpolator(0.2, 0, 0.4, 1)` easing, and the per-tick `invalidate()`/`postInvalidate()` calls. An animation is a record of its endpoints, path and duration. `invalidations` counts only the fade-out end's `invalidate()`.
- Where the travel starts is not modelled. The `Path` begins at (0, 0), and the "x"/"y" properties of the View it drives are not modelled.
- Host ordering is an assumption: `OnTravelEnd` requires that the fade-in has ended, because it started together with the travel and lasts 5000 ms against 80000 ms. Events are admitted only while the matching animation runs.
- Bitmap allocation running out of memory is not modelled. Only the non-positive size rejection of `createBitmap` is.
- Android's processing of `setMeasuredDimension` and `super.onMeasure` is not modelled. The MeasureSpec encoding is taken from its documented layout; the platform class itself is not part of this model.
- The coroutine's dispatch on the main thread and its real-time suspension are not modelled. The real constructor returns before any view is spawned, since `init` only launches the loop onto `Dispatchers.Main`; the model's constructor runs the whole loop before returning. `Init` is a sequential loop that advances a millisecond clock, and views drawing while spawning continues are not interleaved.
- Children of the group other than the spawned views are not modelled.
- Group.WidgetViewGroup.Init: its own ensures do not pin which fresh view sits at which index; the order is stated per iteration by `Spawn`, which appends at the end, because a contract on a list of new objects has nothing else to compare their order against.
- `onLayout`/`gaussian` are not modelled: the blur with radius 170 is a platform render effect. BitmapUtil.kt (the blur wrapper and the identity `impulseNoise`) and MainActivity.kt (window flags) are not part of this model.
