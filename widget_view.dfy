/**
 * WidgetView as the object the source mutates: the `redraw` flag, the
 * `lateinit` bitmap and the animations it starts are fields, and each host
 * callback is a method whose new state is the corresponding step of the
 * lifecycle machine.
 */
module View {
  import opened Wrappers
  import opened Shapes
  import opened Lifecycle

  class WidgetView {
    var redraw: bool
    var bitmap: Option<Bitmap>
    /** How many bitmaps `onDraw` has allocated. */
    var generation: nat
    var phase: Phase
    var fadingIn: bool
    var started: seq<Animation>
    var invalidations: nat

    function State(): ViewState
      reads this
    {
      ViewState(redraw, bitmap, generation, phase, fadingIn, started, invalidations)
    }

    constructor ()
      ensures State() == Initial()
    {
      redraw := true;
      bitmap := None;
      generation := 0;
      phase := AwaitingDraw;
      fadingIn := false;
      started := [];
      invalidations := 0;
    }

    method OnDraw(width: int, height: int, viewLeft: int, viewTop: int, d: ShapeDraws)
      returns (outcome: DrawOutcome)
      requires WellFormedDraws(d)
      modifies this
      ensures State() == Lifecycle.OnDraw(old(State()), width, height, viewLeft, viewTop, d).state
      ensures outcome == Lifecycle.OnDraw(old(State()), width, height, viewLeft, viewTop, d).outcome
    {
      if redraw {
        if width <= 0 || height <= 0 {
          // Bitmap.createBitmap throws before anything is assigned
          return CreateBitmapFailed;
        }
        generation := generation + 1;
        var content := DrawShape(width, height, viewLeft, viewTop, d);
        bitmap := Some(content);
        redraw := false;
      }
      match bitmap {
        case None => outcome := Uninitialized;
        case Some(b) => outcome := Painted(b);
      }
    }

    /** `drawShape`: rasterise the shape, then start the fade-in and the travel. */
    method DrawShape(width: int, height: int, viewLeft: int, viewTop: int, d: ShapeDraws)
      returns (content: Bitmap)
      requires WellFormedDraws(d)
      modifies this`started, this`fadingIn, this`phase
      ensures content == ShapeBitmap(width, height, viewLeft, viewTop, generation, d)
      ensures started == old(started) + [FADE_IN, PathTravel(PathOf(width, height, d.path), TRAVEL_MS)]
      ensures fadingIn && phase == Traveling
    {
      content := ShapeBitmap(width, height, viewLeft, viewTop, generation, d);
      FadeIn();
      Bessel(width, height, d.path);
    }

    method FadeIn()
      modifies this`started, this`fadingIn
      ensures started == old(started) + [FADE_IN] && fadingIn
    {
      started := started + [FADE_IN];
      fadingIn := true;
    }

    /** `bessel`: build the ten-segment path and start the travel set along it. */
    method Bessel(width: int, height: int, draws: seq<QuadDraw>)
      requires |draws| == PATH_SEGMENTS
      modifies this`started, this`phase
      ensures started == old(started) + [PathTravel(PathOf(width, height, draws), TRAVEL_MS)]
      ensures phase == Traveling
    {
      var path := BuildPath(width, height, draws);
      started := started + [PathTravel(path, PATH_SEGMENTS * SEGMENT_MS)];
      phase := Traveling;
    }

    method FadeOut()
      modifies this`started, this`phase
      ensures started == old(started) + [FADE_OUT] && phase == FadingOut
    {
      started := started + [FADE_OUT];
      phase := FadingOut;
    }

    /** The fade-in animator has no listener; its end changes only what is running. */
    method OnFadeInEnd()
      requires fadingIn
      modifies this
      ensures State() == FadeInEnded(old(State()))
    {
      fadingIn := false;
    }

    /** The travel set's `onAnimationEnd` starts the fade-out. */
    method OnTravelEnd()
      requires phase == Traveling && !fadingIn
      modifies this
      ensures State() == TravelEnded(old(State()))
    {
      FadeOut();
    }

    /** The fade-out's `onAnimationEnd`: `redraw = true; invalidate()`. */
    method OnFadeOutEnd()
      requires phase == FadingOut
      modifies this
      ensures State() == FadeOutEnded(old(State()))
    {
      redraw := true;
      phase := AwaitingDraw;
      invalidations := invalidations + 1;
    }
  }
}
