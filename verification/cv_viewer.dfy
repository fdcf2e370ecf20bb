/** The CV-preview overlay: its local state, the handlers wired to its
    buttons, the iframe and the keyboard, and what any sequence of those
    events can do to the state.

    The component keeps three pieces of state (zoom percentage, fullscreen
    flag, loading flag) and receives `isOpen` from its parent.  Every handler
    is a pure transition of that state; the only outward effect is a request
    to the parent to close the overlay, which is returned as a flag. */
module CVViewer {
  import opened Numeric

  /** Zoom limits and step, in percent. */
  const MinZoom: int := 50
  const MaxZoom: int := 200
  const ZoomStep: int := 25
  const DefaultZoom: int := 100

  /** The key name the keydown listener reacts to. */
  const EscapeKey: string := "Escape"

  datatype Viewer = Viewer(zoom: int, isFullscreen: bool, isLoading: bool)

  /** State when the component mounts: 100%, windowed, spinner showing. */
  const Initial: Viewer := Viewer(DefaultZoom, false, true)

  /** A zoom level the controls can produce: within the limits and on the
      25% grid that starts at the default. */
  predicate ValidZoom(z: int) {
    MinZoom <= z <= MaxZoom && z % ZoomStep == 0
  }

  predicate Inv(v: Viewer) {
    ValidZoom(v.zoom)
  }

  /** The zoom-in handler: one step up, saturating at the maximum. */
  function ZoomIn(v: Viewer): (r: Viewer)
    ensures r.isFullscreen == v.isFullscreen && r.isLoading == v.isLoading
    ensures r.zoom <= MaxZoom
    ensures v.zoom <= MaxZoom - ZoomStep ==> r.zoom == v.zoom + ZoomStep
    ensures v.zoom >= MaxZoom - ZoomStep ==> r.zoom == MaxZoom
    ensures Inv(v) ==> Inv(r)
  {
    v.(zoom := Min(v.zoom + ZoomStep, MaxZoom))
  }

  /** The zoom-out handler: one step down, saturating at the minimum. */
  function ZoomOut(v: Viewer): (r: Viewer)
    ensures r.isFullscreen == v.isFullscreen && r.isLoading == v.isLoading
    ensures r.zoom >= MinZoom
    ensures v.zoom >= MinZoom + ZoomStep ==> r.zoom == v.zoom - ZoomStep
    ensures v.zoom <= MinZoom + ZoomStep ==> r.zoom == MinZoom
    ensures Inv(v) ==> Inv(r)
  {
    v.(zoom := Max(v.zoom - ZoomStep, MinZoom))
  }

  /** The reset handler, bound to the button that shows the percentage. */
  function ResetZoom(v: Viewer): (r: Viewer)
    ensures Inv(r)
    ensures r.zoom == DefaultZoom
    ensures r.isFullscreen == v.isFullscreen && r.isLoading == v.isLoading
  {
    v.(zoom := DefaultZoom)
  }

  /** The fullscreen button flips the flag and touches nothing else. */
  function ToggleFullscreen(v: Viewer): (r: Viewer)
    ensures r.isFullscreen != v.isFullscreen
    ensures r.zoom == v.zoom && r.isLoading == v.isLoading
  {
    v.(isFullscreen := !v.isFullscreen)
  }

  /** The iframe's load handler hides the spinner. */
  function FrameLoaded(v: Viewer): (r: Viewer)
    ensures !r.isLoading
    ensures r.zoom == v.zoom && r.isFullscreen == v.isFullscreen
  {
    v.(isLoading := false)
  }

  /** The `disabled` attributes of the two zoom buttons. */
  predicate ZoomInDisabled(v: Viewer) { v.zoom >= MaxZoom }
  predicate ZoomOutDisabled(v: Viewer) { v.zoom <= MinZoom }

  /** What a handler did: the next state and whether it called `onClose`. */
  datatype Reaction = Reaction(next: Viewer, close: bool)

  /** The keydown listener: Escape first leaves fullscreen, and only a
      windowed viewer asks to be closed; any other key is ignored. */
  function OnKeyDown(v: Viewer, key: string): (r: Reaction)
    ensures r.close <==> key == EscapeKey && !v.isFullscreen
    ensures key == EscapeKey ==> !r.next.isFullscreen
    ensures r.next.isFullscreen != v.isFullscreen <==> key == EscapeKey && v.isFullscreen
    ensures r.next.zoom == v.zoom && r.next.isLoading == v.isLoading
  {
    if key == EscapeKey then
      if v.isFullscreen then Reaction(v.(isFullscreen := false), false)
      else Reaction(v, true)
    else Reaction(v, false)
  }

  /** The user-visible events of the overlay. */
  datatype Event =
    | ZoomInClick
    | ZoomOutClick
    | ResetZoomClick
    | FullscreenClick
    | CloseClick
    | BackdropClick
    | FrameLoad
    | KeyDown(key: string)

  /** Whether an event can change the zoom level at all. */
  predicate IsZoomEvent(e: Event) {
    e == ZoomInClick || e == ZoomOutClick || e == ResetZoomClick
  }

  /** Deliver one event.  A closed overlay renders nothing and has no key
      listener, so nothing reaches it; a click on a disabled button is not
      delivered to its handler. */
  function Dispatch(isOpen: bool, v: Viewer, e: Event): (r: Reaction)
    ensures !isOpen ==> r == Reaction(v, false)
    ensures isOpen && e == FullscreenClick ==> r.next.isFullscreen != v.isFullscreen
    ensures isOpen && e == ResetZoomClick ==> r.next.zoom == DefaultZoom
    ensures isOpen && e == FrameLoad ==> !r.next.isLoading
    ensures isOpen && (e == CloseClick || e == BackdropClick) ==> r.close
    ensures Inv(v) ==> Inv(r.next)
    ensures r.close ==> r.next == v
    ensures r.next.zoom != v.zoom ==> IsZoomEvent(e)
    ensures r.next.isFullscreen != v.isFullscreen ==> e == FullscreenClick || e == KeyDown(EscapeKey)
    ensures r.next.isLoading != v.isLoading ==> e == FrameLoad && v.isLoading
    ensures r.close ==> e == CloseClick || e == BackdropClick || e == KeyDown(EscapeKey)
  {
    if !isOpen then Reaction(v, false)
    else
      match e
      case ZoomInClick => Reaction(if ZoomInDisabled(v) then v else ZoomIn(v), false)
      case ZoomOutClick => Reaction(if ZoomOutDisabled(v) then v else ZoomOut(v), false)
      case ResetZoomClick => Reaction(ResetZoom(v), false)
      case FullscreenClick => Reaction(ToggleFullscreen(v), false)
      case CloseClick => Reaction(v, true)
      case BackdropClick => Reaction(v, true)
      case FrameLoad => Reaction(FrameLoaded(v), false)
      case KeyDown(key) => OnKeyDown(v, key)
  }

  /** The state after a sequence of events, with `isOpen` held fixed. */
  function Run(isOpen: bool, v: Viewer, es: seq<Event>): Viewer
    decreases |es|
  {
    if |es| == 0 then v
    else Run(isOpen, Dispatch(isOpen, v, es[0]).next, es[1..])
  }

  // ---------------------------------------------------------------------
  // Properties of single handlers
  // ---------------------------------------------------------------------

  /** Over the valid zoom range a button is disabled exactly when its
      handler would leave the state unchanged. */
  lemma DisabledExactlyWhenNoOp(v: Viewer)
    requires MinZoom <= v.zoom <= MaxZoom
    ensures ZoomInDisabled(v) <==> ZoomIn(v) == v
    ensures ZoomOutDisabled(v) <==> ZoomOut(v) == v
  {
  }

  /** Hence the `disabled` guards change nothing: an enabled or disabled
      click has the same effect as calling the handler directly. */
  lemma DisabledGuardsAreTransparent(v: Viewer)
    requires MinZoom <= v.zoom <= MaxZoom
    ensures Dispatch(true, v, ZoomInClick).next == ZoomIn(v)
    ensures Dispatch(true, v, ZoomOutClick).next == ZoomOut(v)
  {
    DisabledExactlyWhenNoOp(v);
  }

  /** Zooming in and then out returns to the start below the top step, and
      zooming out and then in returns to the start above the bottom step. */
  lemma ZoomRoundTrip(v: Viewer)
    ensures MinZoom <= v.zoom <= MaxZoom - ZoomStep ==> ZoomOut(ZoomIn(v)) == v
    ensures MinZoom + ZoomStep <= v.zoom <= MaxZoom ==> ZoomIn(ZoomOut(v)) == v
  {
  }

  /** Reset is idempotent and is undone by nothing else: after a reset the
      state no longer depends on the old zoom. */
  lemma ResetForgetsZoom(v: Viewer, w: Viewer)
    requires v.isFullscreen == w.isFullscreen && v.isLoading == w.isLoading
    ensures ResetZoom(v) == ResetZoom(w)
    ensures ResetZoom(ResetZoom(v)) == ResetZoom(v)
  {
  }

  lemma ToggleTwiceRestores(v: Viewer)
    ensures ToggleFullscreen(ToggleFullscreen(v)) == v
  {
  }

  /** Escape is two-stage: from fullscreen the first press only leaves
      fullscreen, and the second press asks to close. */
  lemma EscapeIsTwoStage(v: Viewer)
    requires v.isFullscreen
    ensures !OnKeyDown(v, EscapeKey).close
    ensures OnKeyDown(OnKeyDown(v, EscapeKey).next, EscapeKey).close
    ensures OnKeyDown(OnKeyDown(v, EscapeKey).next, EscapeKey).next == v.(isFullscreen := false)
  {
  }

  // ---------------------------------------------------------------------
  // Properties of event sequences
  // ---------------------------------------------------------------------

  /** No sequence of events leaves the valid zoom levels. */
  lemma {:induction false} RunPreservesInv(isOpen: bool, v: Viewer, es: seq<Event>)
    requires Inv(v)
    ensures Inv(Run(isOpen, v, es))
    decreases |es|
  {
    if |es| > 0 {
      RunPreservesInv(isOpen, Dispatch(isOpen, v, es[0]).next, es[1..]);
    }
  }

  /** Starting from the mounted state, the zoom is always between 50% and
      200% and a multiple of 25%. */
  lemma ReachableZoomIsValid(isOpen: bool, es: seq<Event>)
    ensures MinZoom <= Run(isOpen, Initial, es).zoom <= MaxZoom
    ensures Run(isOpen, Initial, es).zoom % ZoomStep == 0
  {
    RunPreservesInv(isOpen, Initial, es);
  }

  /** `n` presses of the same button. */
  function Repeat(e: Event, n: nat): (r: seq<Event>)
    ensures |r| == n
    ensures forall i :: 0 <= i < n ==> r[i] == e
  {
    if n == 0 then [] else [e] + Repeat(e, n - 1)
  }

  lemma {:induction false} ZoomInSteps(v: Viewer, n: nat)
    requires MinZoom <= v.zoom && v.zoom + n * ZoomStep <= MaxZoom
    ensures Run(true, v, Repeat(ZoomInClick, n)) == v.(zoom := v.zoom + n * ZoomStep)
    decreases n
  {
    if n > 0 {
      var es := Repeat(ZoomInClick, n);
      assert es[0] == ZoomInClick && es[1..] == Repeat(ZoomInClick, n - 1);
      var w := Dispatch(true, v, ZoomInClick).next;
      assert w == v.(zoom := v.zoom + ZoomStep);
      ZoomInSteps(w, n - 1);
    }
  }

  lemma {:induction false} ZoomOutSteps(v: Viewer, n: nat)
    requires v.zoom <= MaxZoom && MinZoom <= v.zoom - n * ZoomStep
    ensures Run(true, v, Repeat(ZoomOutClick, n)) == v.(zoom := v.zoom - n * ZoomStep)
    decreases n
  {
    if n > 0 {
      var es := Repeat(ZoomOutClick, n);
      assert es[0] == ZoomOutClick && es[1..] == Repeat(ZoomOutClick, n - 1);
      var w := Dispatch(true, v, ZoomOutClick).next;
      assert w == v.(zoom := v.zoom - ZoomStep);
      ZoomOutSteps(w, n - 1);
    }
  }

  /** A button sequence that brings any open viewer to zoom level `z`:
      reset, then step up or down from 100%. */
  function ZoomPath(z: int): seq<Event>
  {
    if z >= DefaultZoom then [ResetZoomClick] + Repeat(ZoomInClick, (z - DefaultZoom) / ZoomStep)
    else [ResetZoomClick] + Repeat(ZoomOutClick, (DefaultZoom - z) / ZoomStep)
  }

  /** Conversely, every valid zoom level is reachable from any open state,
      and reaching it changes neither the fullscreen nor the loading flag. */
  lemma EveryValidZoomIsReachable(v: Viewer, z: int)
    requires ValidZoom(z)
    ensures Run(true, v, ZoomPath(z)) == v.(zoom := z)
  {
    var path := ZoomPath(z);
    var w := ResetZoom(v);
    assert path[0] == ResetZoomClick;
    if z >= DefaultZoom {
      var n := (z - DefaultZoom) / ZoomStep;
      assert path[1..] == Repeat(ZoomInClick, n);
      ZoomInSteps(w, n);
    } else {
      var n := (DefaultZoom - z) / ZoomStep;
      assert path[1..] == Repeat(ZoomOutClick, n);
      ZoomOutSteps(w, n);
    }
  }

  /** The spinner is a latch: it is still showing after a sequence of
      events exactly when it showed before and the open viewer's iframe
      never reported a load. */
  lemma {:induction false} LoadingOnlyClears(isOpen: bool, v: Viewer, es: seq<Event>)
    ensures Run(isOpen, v, es).isLoading <==> v.isLoading && !(isOpen && FrameLoad in es)
    decreases |es|
  {
    if |es| > 0 {
      LoadingOnlyClears(isOpen, Dispatch(isOpen, v, es[0]).next, es[1..]);
      assert FrameLoad in es <==> es[0] == FrameLoad || FrameLoad in es[1..] by {
        assert es == [es[0]] + es[1..];
      }
    }
  }

  /** Only zoom buttons move the zoom: a run without them keeps it. */
  lemma {:induction false} ZoomOnlyMovesByZoomButtons(isOpen: bool, v: Viewer, es: seq<Event>)
    requires forall i :: 0 <= i < |es| ==> !IsZoomEvent(es[i])
    ensures Run(isOpen, v, es).zoom == v.zoom
    decreases |es|
  {
    if |es| > 0 {
      ZoomOnlyMovesByZoomButtons(isOpen, Dispatch(isOpen, v, es[0]).next, es[1..]);
    }
  }
}
