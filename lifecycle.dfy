/**
 * The redraw cache and animation lifecycle of one WidgetView as a state
 * machine on values. A state holds the `redraw` flag, the cached bitmap, how
 * many bitmaps have been generated, which animations are running, the log
 * of animations started so far and the number of explicit `invalidate()`
 * requests. Events are the host's calls: a draw, and the end of the fade-in,
 * of the travel set and of the fade-out.
 */
module Lifecycle {
  import opened Wrappers
  import opened Draws
  import opened Shapes

  /** The offscreen bitmap built on a regeneration: its size, its generation and what was drawn into it. */
  datatype Bitmap = Bitmap(width: int, height: int, generation: nat,
                           shape: Option<ShapeKind>, rect: RectF, gradient: Gradient)

  /** An animation the view started. */
  datatype Animation =
    | AlphaFade(fromAlpha: real, toAlpha: real, durationMs: int)
    | PathTravel(path: seq<Quad>, durationMs: int)

  /** `fadeIn`: alpha from 0 to 1 over 5000 ms. */
  const FADE_IN: Animation := AlphaFade(0.0, 1.0, FADE_MS)
  /** `fadeOut`: alpha from 1 to 0 over 5000 ms. */
  const FADE_OUT: Animation := AlphaFade(1.0, 0.0, FADE_MS)

  /** The travel set `bessel` starts: ten quad segments, 80000 ms in all. */
  predicate IsTravel(a: Animation) {
    a.PathTravel? && |a.path| == PATH_SEGMENTS && a.durationMs == TRAVEL_MS
  }

  /**
   * Which of the view's own animations are running. `fadingIn` in the state
   * tells whether the fade-in, started together with the travel, is still
   * running.
   */
  datatype Phase = AwaitingDraw | Traveling | FadingOut

  datatype ViewState = ViewState(
    redraw: bool,
    bitmap: Option<Bitmap>,
    generation: nat,
    phase: Phase,
    fadingIn: bool,
    started: seq<Animation>,
    invalidations: nat)

  /** What `onDraw` hands to the canvas, or the exception it raises. */
  datatype DrawOutcome =
    | Painted(bitmap: Bitmap)
    | CreateBitmapFailed   // Bitmap.createBitmap rejects a width or height that is not positive
    | Uninitialized        // reading the `lateinit` bitmap before it was ever assigned

  datatype DrawResult = DrawResult(state: ViewState, outcome: DrawOutcome)

  datatype Event =
    | Draw(width: int, height: int, viewLeft: int, viewTop: int, draws: ShapeDraws)
    | FadeInEnd
    | TravelEnd
    | FadeOutEnd

  /** A freshly constructed view: `redraw = true`, no bitmap yet, nothing running. */
  function Initial(): ViewState {
    ViewState(true, None, 0, AwaitingDraw, false, [], 0)
  }

  /** The bitmap content `drawShape` rasterises for the given draws. */
  function ShapeBitmap(width: int, height: int, viewLeft: int, viewTop: int,
                       generation: nat, d: ShapeDraws): (b: Bitmap)
    requires WellFormedDraws(d)
    ensures b.width == width && b.height == height && b.generation == generation
    ensures b.shape.Some?
    ensures b.gradient.x1 - b.gradient.x0 == SIZE && b.gradient.y1 - b.gradient.y0 == SIZE
  {
    ShapeDrawn(d.shape);
    var mLeft := RandomCoord(width, d.left);
    var mTop := RandomCoord(height, d.top);
    Bitmap(width, height, generation, ShapeFor(ShapeIndex(d.shape)),
           DrawnRect(mLeft, mTop, viewLeft, viewTop), GradientFor(mLeft, mTop))
  }

  /**
   * `onDraw`: when `redraw` is set, allocate a new bitmap of the view's size,
   * draw the shape into it, start the fade-in and the travel, and clear the
   * flag; then paint whatever bitmap is cached.
   */
  function OnDraw(s: ViewState, width: int, height: int, viewLeft: int, viewTop: int,
                  d: ShapeDraws): (r: DrawResult)
    requires WellFormedDraws(d)
    ensures !s.redraw ==> r.state == s
    ensures r.state.redraw ==> r.state == s
    ensures r.outcome.Painted? ==> r.state.bitmap == Some(r.outcome.bitmap)
    ensures r.state.generation == s.generation + (if r.state == s then 0 else 1)
  {
    if s.redraw then
      if width <= 0 || height <= 0 then DrawResult(s, CreateBitmapFailed)
      else
        var b := ShapeBitmap(width, height, viewLeft, viewTop, s.generation + 1, d);
        var travel := PathTravel(PathOf(width, height, d.path), TRAVEL_MS);
        var t := s.(redraw := false, bitmap := Some(b), generation := s.generation + 1,
                    phase := Traveling, fadingIn := true,
                    started := s.started + [FADE_IN, travel]);
        DrawResult(t, Painted(b))
    else
      match s.bitmap
      case None => DrawResult(s, Uninitialized)
      case Some(b) => DrawResult(s, Painted(b))
  }

  /** The fade-in animator has no listener: its end only means it no longer runs. */
  function FadeInEnded(s: ViewState): (t: ViewState)
    ensures t.redraw == s.redraw && t.bitmap == s.bitmap && t.phase == s.phase
    ensures t.started == s.started && t.invalidations == s.invalidations && !t.fadingIn
  {
    s.(fadingIn := false)
  }

  /** The travel set's end listener starts the fade-out. */
  function TravelEnded(s: ViewState): (t: ViewState)
    ensures t.redraw == s.redraw && t.bitmap == s.bitmap && t.invalidations == s.invalidations
    ensures t.started == s.started + [FADE_OUT] && t.phase == FadingOut
  {
    s.(phase := FadingOut, started := s.started + [FADE_OUT])
  }

  /** The fade-out's end listener sets `redraw` and calls `invalidate()`. */
  function FadeOutEnded(s: ViewState): (t: ViewState)
    ensures t.redraw && t.phase == AwaitingDraw && t.invalidations == s.invalidations + 1
    ensures t.bitmap == s.bitmap && t.started == s.started
  {
    s.(redraw := true, phase := AwaitingDraw, invalidations := s.invalidations + 1)
  }

  /**
   * The calls the host can make in a state. An animator only reports the
   * end of an animation it is running; the fade-in (5000 ms) and the travel
   * (80000 ms) start together, so the fade-in has ended before the travel ends.
   */
  predicate Enabled(s: ViewState, e: Event) {
    match e
    case Draw(_, _, _, _, d) => WellFormedDraws(d)
    case FadeInEnd => s.fadingIn
    case TravelEnd => s.phase == Traveling && !s.fadingIn
    case FadeOutEnd => s.phase == FadingOut
  }

  function Step(s: ViewState, e: Event): ViewState
    requires Enabled(s, e)
  {
    match e
    case Draw(w, h, l, t, d) => OnDraw(s, w, h, l, t, d).state
    case FadeInEnd => FadeInEnded(s)
    case TravelEnd => TravelEnded(s)
    case FadeOutEnd => FadeOutEnded(s)
  }

  /** Every event of the trace is enabled in the state it reaches. */
  predicate Admissible(s: ViewState, events: seq<Event>)
    decreases |events|
  {
    events == [] || (Enabled(s, events[0]) && Admissible(Step(s, events[0]), events[1..]))
  }

  function Run(s: ViewState, events: seq<Event>): ViewState
    requires Admissible(s, events)
    decreases |events|
  {
    if events == [] then s else Run(Step(s, events[0]), events[1..])
  }

  /** `log` is exactly `n` complete cycles: fade-in, travel, fade-out. */
  ghost predicate Cycles(log: seq<Animation>, n: nat)
    decreases n
  {
    if n == 0 then log == []
    else
      && |log| >= 3
      && Cycles(log[..|log| - 3], n - 1)
      && log[|log| - 3] == FADE_IN && IsTravel(log[|log| - 2]) && log[|log| - 1] == FADE_OUT
  }

  /**
   * The invariant of the view. `redraw` is set exactly while the view waits
   * for its next draw; a bitmap exists once one has been generated and it is
   * the latest one; and the animations started so far are the lifecycle's
   * cycle, fade-in and travel together and a fade-out only after a travel.
   */
  ghost predicate Valid(s: ViewState) {
    && (s.redraw <==> s.phase == AwaitingDraw)
    && (s.fadingIn ==> s.phase == Traveling)
    && (s.phase != AwaitingDraw ==> s.generation >= 1)
    && (s.bitmap.None? <==> s.generation == 0)
    && (s.bitmap.Some? ==> s.bitmap.value.generation == s.generation)
    && (s.phase == Traveling ==>
          |s.started| >= 2 && Cycles(s.started[..|s.started| - 2], s.generation - 1)
          && s.started[|s.started| - 2] == FADE_IN && IsTravel(s.started[|s.started| - 1]))
    && (s.phase != Traveling ==> Cycles(s.started, s.generation))
  }

  lemma InitialValid()
    ensures Valid(Initial())
  {
  }

  /** Every enabled event keeps the invariant. */
  lemma StepPreservesValid(s: ViewState, e: Event)
    requires Valid(s) && Enabled(s, e)
    ensures Valid(Step(s, e))
  {
    var t := Step(s, e);
    match e
    case Draw(w, h, l, top, d) =>
      if s.redraw && w > 0 && h > 0 {
        assert t.started[..|t.started| - 2] == s.started;
        assert t.started[|t.started| - 1] == PathTravel(PathOf(w, h, d.path), TRAVEL_MS);
      }
    case FadeInEnd =>
    case TravelEnd =>
      assert t.started[..|t.started| - 3] == s.started[..|s.started| - 2];
    case FadeOutEnd =>
  }

  /** Every state a view reaches from construction satisfies the invariant. */
  lemma {:induction false} RunPreservesValid(s: ViewState, events: seq<Event>)
    requires Valid(s) && Admissible(s, events)
    ensures Valid(Run(s, events))
    decreases |events|
  {
    if events != [] {
      StepPreservesValid(s, events[0]);
      RunPreservesValid(Step(s, events[0]), events[1..]);
    }
  }

  /**
   * A draw with `redraw` set and a positive size builds a fresh bitmap of
   * exactly that size, clears `redraw` and starts one fade-in and one travel,
   * together and in that order.
   */
  lemma DrawRegenerates(s: ViewState, width: int, height: int, viewLeft: int, viewTop: int,
                        d: ShapeDraws)
    requires WellFormedDraws(d) && s.redraw && width > 0 && height > 0
    ensures var r := OnDraw(s, width, height, viewLeft, viewTop, d);
      && r.outcome.Painted?
      && r.state.bitmap == Some(r.outcome.bitmap)
      && r.outcome.bitmap.width == width && r.outcome.bitmap.height == height
      && r.outcome.bitmap.generation == s.generation + 1 == r.state.generation
      && !r.state.redraw
      && |r.state.started| == |s.started| + 2
      && r.state.started[..|s.started|] == s.started
      && r.state.started[|s.started|] == FADE_IN
      && IsTravel(r.state.started[|s.started| + 1])
  {
    var r := OnDraw(s, width, height, viewLeft, viewTop, d);
    assert r.state.started == s.started + [FADE_IN, PathTravel(PathOf(width, height, d.path), TRAVEL_MS)];
  }

  /** A draw with `redraw` clear paints the cached bitmap and changes nothing. */
  lemma DrawReuses(s: ViewState, width: int, height: int, viewLeft: int, viewTop: int,
                   d: ShapeDraws)
    requires Valid(s) && WellFormedDraws(d) && !s.redraw
    ensures OnDraw(s, width, height, viewLeft, viewTop, d) == DrawResult(s, Painted(s.bitmap.value))
  {
  }

  /** A draw that must allocate with a non-positive size raises and leaves the view as it was. */
  lemma DrawRejectsEmptySize(s: ViewState, width: int, height: int, viewLeft: int, viewTop: int,
                             d: ShapeDraws)
    requires WellFormedDraws(d) && s.redraw && (width <= 0 || height <= 0)
    ensures OnDraw(s, width, height, viewLeft, viewTop, d) == DrawResult(s, CreateBitmapFailed)
  {
  }

  /**
   * The `lateinit` bitmap is never read uninitialised: in every valid state a
   * draw either paints the view's current bitmap or fails to allocate one,
   * and it fails exactly when it has to allocate with a non-positive size.
   */
  lemma DrawnBitmapInitialised(s: ViewState, width: int, height: int, viewLeft: int, viewTop: int,
                               d: ShapeDraws)
    requires Valid(s) && WellFormedDraws(d)
    ensures var r := OnDraw(s, width, height, viewLeft, viewTop, d);
      && !r.outcome.Uninitialized?
      && (r.outcome.CreateBitmapFailed? <==> s.redraw && (width <= 0 || height <= 0))
      && (r.outcome.Painted? ==> r.state.bitmap == Some(r.outcome.bitmap))
  {
  }

  /** The first draw of a new view of positive size always creates its bitmap. */
  lemma FirstDrawCreatesBitmap(width: int, height: int, viewLeft: int, viewTop: int, d: ShapeDraws)
    requires WellFormedDraws(d) && width > 0 && height > 0
    ensures var r := OnDraw(Initial(), width, height, viewLeft, viewTop, d);
      && r.outcome.Painted? && r.outcome.bitmap.width == width && r.outcome.bitmap.height == height
      && r.state.generation == 1 && r.state.phase == Traveling
  {
  }

  /** Only the fade-out's end sets `redraw`; it also requests exactly one repaint. */
  lemma OnlyFadeOutSetsRedraw(s: ViewState, e: Event)
    requires Enabled(s, e)
    ensures !e.FadeOutEnd? && Step(s, e).redraw ==> s.redraw
    ensures e.FadeOutEnd? ==> Step(s, e).redraw && Step(s, e).invalidations == s.invalidations + 1
    ensures !e.FadeOutEnd? ==> Step(s, e).invalidations == s.invalidations
  {
  }

  /**
   * Animations are only ever added to the log. A fade-out is started by the
   * travel set's end and by nothing else; the fade-in's end starts nothing.
   */
  lemma FadeOutOnlyAfterTravel(s: ViewState, e: Event)
    requires Enabled(s, e)
    ensures |Step(s, e).started| >= |s.started| && Step(s, e).started[..|s.started|] == s.started
    ensures e.TravelEnd? ==> Step(s, e).started == s.started + [FADE_OUT]
    ensures e.FadeInEnd? ==> Step(s, e).started == s.started
    ensures !e.TravelEnd? ==> forall k :: |s.started| <= k < |Step(s, e).started| ==> Step(s, e).started[k] != FADE_OUT
  {
  }

  /**
   * Between two fade-out ends the view regenerates at most once: with no
   * fade-out end in a trace, the generation grows by one if `redraw` was set
   * at its start and not at all otherwise.
   */
  lemma {:induction false} AtMostOneRegeneration(s: ViewState, events: seq<Event>)
    requires Admissible(s, events)
    requires forall k :: 0 <= k < |events| ==> !events[k].FadeOutEnd?
    ensures Run(s, events).generation <= s.generation + (if s.redraw then 1 else 0)
    ensures !s.redraw ==> !Run(s, events).redraw && Run(s, events).bitmap == s.bitmap
    decreases |events|
  {
    if events != [] {
      var t := Step(s, events[0]);
      assert forall k :: 0 <= k < |events[1..]| ==> !events[1..][k].FadeOutEnd? by {
        forall k | 0 <= k < |events[1..]| ensures !events[1..][k].FadeOutEnd? {
          assert events[1..][k] == events[k + 1];
        }
      }
      AtMostOneRegeneration(t, events[1..]);
    }
  }

  /**
   * One whole cycle from a valid waiting state: a draw, the end of the
   * fade-in, of the travel and of the fade-out bring the view back to waiting
   * with `redraw` set, one more generation and one more complete
   * fade-in / travel / fade-out in its log.
   */
  lemma FullCycle(s: ViewState, width: int, height: int, viewLeft: int, viewTop: int, d: ShapeDraws)
    requires Valid(s) && s.redraw && WellFormedDraws(d) && width > 0 && height > 0
    ensures var events := [Draw(width, height, viewLeft, viewTop, d), FadeInEnd, TravelEnd, FadeOutEnd];
      && Admissible(s, events)
      && var t := Run(s, events);
      && t.redraw && t.phase == AwaitingDraw && t.generation == s.generation + 1
      && t.started == s.started + [FADE_IN, PathTravel(PathOf(width, height, d.path), TRAVEL_MS), FADE_OUT]
      && Valid(t)
  {
    var events := [Draw(width, height, viewLeft, viewTop, d), FadeInEnd, TravelEnd, FadeOutEnd];
    var s1 := Step(s, events[0]);
    var s2 := Step(s1, FadeInEnd);
    var s3 := Step(s2, TravelEnd);
    var s4 := Step(s3, FadeOutEnd);
    assert Admissible(s3, [FadeOutEnd]) && Run(s3, [FadeOutEnd]) == s4 by {
      assert [FadeOutEnd][1..] == [];
    }
    assert Admissible(s2, [TravelEnd, FadeOutEnd]) && Run(s2, [TravelEnd, FadeOutEnd]) == s4 by {
      assert [TravelEnd, FadeOutEnd][1..] == [FadeOutEnd];
    }
    assert Admissible(s1, [FadeInEnd, TravelEnd, FadeOutEnd]) && Run(s1, [FadeInEnd, TravelEnd, FadeOutEnd]) == s4 by {
      assert [FadeInEnd, TravelEnd, FadeOutEnd][1..] == [TravelEnd, FadeOutEnd];
    }
    assert events[1..] == [FadeInEnd, TravelEnd, FadeOutEnd];
    assert s4.started == s.started + [FADE_IN, PathTravel(PathOf(width, height, d.path), TRAVEL_MS), FADE_OUT];
    RunPreservesValid(s, events);
  }
}
