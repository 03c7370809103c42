/**
 * Window placement (src-tauri/src/window.rs): the main window is centred on a point
 * but kept 10 pixels from the left edge; the recording indicator is placed above and
 * to the right of the mouse, clamped to the main display, and an existing indicator
 * is reused rather than rebuilt.
 */
module Window {
  import opened Wrappers
  import opened Effects

  /** `MAIN_WINDOW_WIDTH`, truncated to an integer. */
  const MainWindowWidth := 320
  /** `INDICATOR_SIZE`: the indicator is a square of this side. */
  const IndicatorSize := 36
  /** Where the indicator goes when the mouse position is unavailable. */
  const DefaultMouse := (100, 100)

  /** The x coordinate `show_window_at_position` uses: centred on `x`, but at least 10. */
  function ShowWindowX(x: int): (r: int)
    ensures r >= 10 && r >= x - MainWindowWidth / 2
    ensures r == x - MainWindowWidth / 2 || r == 10
  {
    if x - MainWindowWidth / 2 >= 10 then x - MainWindowWidth / 2 else 10
  }

  /** `max(lo).min(hi)` on integers. */
  function Clamp(v: int, lo: int, hi: int): (r: int)
    ensures r <= hi
    ensures lo <= hi ==> lo <= r
    ensures lo <= v <= hi ==> r == v
    ensures v < lo && lo <= hi ==> r == lo
    ensures v > hi ==> r == hi
  {
    var m := if v >= lo then v else lo;
    if m <= hi then m else hi
  }

  /**
   * The indicator's unclamped position: 8 pixels right of the mouse, and 12 pixels
   * above it when that leaves at least 4 pixels of room, 4 pixels below otherwise.
   */
  function PlacementNearMouse(mouse: Option<(int, int)>): (p: (int, int))
    ensures var (mx, my) := if mouse.Some? then mouse.value else DefaultMouse;
      p.0 == mx + 8
      && (my - IndicatorSize - 12 >= 4 ==> p.1 == my - 48)
      && (my - IndicatorSize - 12 < 4 ==> p.1 == my + 4)
  {
    var (mx, my) := match mouse case Some(m) => m case None => DefaultMouse;
    (mx + 8, if my - IndicatorSize - 12 >= 4 then my - IndicatorSize - 12 else my + 4)
  }

  /** The indicator's position on a main display of the given size. */
  function IndicatorPosition(mouse: Option<(int, int)>, screenW: int, screenH: int): (p: (int, int))
    ensures p.0 <= screenW - 40 && p.1 <= screenH - 40
    ensures screenW - 40 >= 4 ==> p.0 >= 4
    ensures screenH - 40 >= 4 ==> p.1 >= 4
  {
    var (x, y) := PlacementNearMouse(mouse);
    (Clamp(x, 4, screenW - IndicatorSize - 4), Clamp(y, 4, screenH - IndicatorSize - 4))
  }

  /**
   * When the mouse is far enough from the edges of a usual display, the indicator
   * sits at exactly `(mx + 8, my - 48)`.
   */
  lemma IndicatorAboveRightOfMouse(mx: int, my: int, screenW: int, screenH: int)
    requires 52 <= my <= screenH - 40 + 48
    requires -4 <= mx <= screenW - 48
    ensures IndicatorPosition(Some((mx, my)), screenW, screenH) == (mx + 8, my - 48)
  {
  }

  /**
   * The effects of `create_indicator_window` when an indicator is already `present`
   * or not: an existing one is moved and told it is recording; otherwise a new one is
   * built at the position, unless the build fails.
   */
  function IndicatorEffects(present: bool, mouse: Option<(int, int)>, screenW: int, screenH: int, build: Result<Unit>): seq<Effect> {
    var p := IndicatorPosition(mouse, screenW, screenH);
    if present then [IndicatorShown(p.0, p.1, false), Emitted(IndicatorState("recording"))]
    else if build.Ok? then [IndicatorShown(p.0, p.1, true)]
    else []
  }

  /**
   * `create_indicator_window`: when an indicator exists it is reused, giving
   * `(Some, false)`; otherwise one is built, giving `(Some, true)`, or the build fails,
   * giving `(None, false)` and no change. `build` is the builder's outcome.
   */
  method CreateIndicatorWindow(host: Host, mouse: Option<(int, int)>, screenW: int, screenH: int, build: Result<Unit>)
    returns (window: bool, isNew: bool)
    modifies host`log, host`indicator
    ensures window <==> old(host.indicator) || build.Ok?
    ensures isNew <==> !old(host.indicator) && build.Ok?
    ensures host.indicator == window
    ensures host.log == old(host.log) + IndicatorEffects(old(host.indicator), mouse, screenW, screenH, build)
  {
    var (x, y) := IndicatorPosition(mouse, screenW, screenH);
    if host.indicator {
      host.Record(IndicatorShown(x, y, false));
      host.Emit(IndicatorState("recording"));
      return true, false;
    }
    match build {
      case Ok(_) =>
        host.indicator := true;
        host.Record(IndicatorShown(x, y, true));
        return true, true;
      case Err(_) =>
        return false, false;
    }
  }

  /** `destroy_indicator_window`: the indicator, if any, is gone afterwards. */
  method DestroyIndicatorWindow(host: Host)
    modifies host`log, host`indicator
    ensures !host.indicator && host.log == old(host.log) + [IndicatorDestroyed]
  {
    host.indicator := false;
    host.Record(IndicatorDestroyed);
  }
}
