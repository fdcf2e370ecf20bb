/** The overlay together with its parent: the hero section owns the
    `isOpen` flag, its "view CV" button sets it, and the `onClose` callback
    it passes down clears it.  The overlay stays mounted while closed, so
    its own state survives a close and a reopen. */
module CVSession {
  import opened CVViewer

  datatype Session = Session(cvOpen: bool, viewer: Viewer)

  /** Page load: overlay closed, viewer in its mounted state. */
  const Start: Session := Session(false, Initial)

  datatype SessionEvent = OpenCV | InViewer(e: Event)

  /** One event of the page.  A close request from the overlay clears the
      parent's flag; nothing else touches it. */
  function Step(s: Session, se: SessionEvent): (r: Session)
    ensures se == OpenCV ==> r.cvOpen && r.viewer == s.viewer
    ensures se.InViewer? && !s.cvOpen ==> r == s
    ensures se.InViewer? ==> r.viewer == Dispatch(s.cvOpen, s.viewer, se.e).next
    ensures s.cvOpen && !r.cvOpen ==> r.viewer == s.viewer
    ensures s.cvOpen && se.InViewer? ==> (!r.cvOpen <==> Dispatch(s.cvOpen, s.viewer, se.e).close)
    ensures s.cvOpen && !r.cvOpen ==>
      se.e == CloseClick || se.e == BackdropClick || se.e == KeyDown(EscapeKey)
  {
    match se
    case OpenCV => s.(cvOpen := true)
    case InViewer(e) =>
      var reaction := Dispatch(s.cvOpen, s.viewer, e);
      Session(s.cvOpen && !reaction.close, reaction.next)
  }

  function RunSession(s: Session, ses: seq<SessionEvent>): Session
    decreases |ses|
  {
    if |ses| == 0 then s else RunSession(Step(s, ses[0]), ses[1..])
  }

  /** Whatever happens on the page, the zoom stays a valid level. */
  lemma {:induction false} SessionKeepsValidZoom(s: Session, ses: seq<SessionEvent>)
    requires Inv(s.viewer)
    ensures Inv(RunSession(s, ses).viewer)
    decreases |ses|
  {
    if |ses| > 0 {
      SessionKeepsValidZoom(Step(s, ses[0]), ses[1..]);
    }
  }

  /** Escape on an open windowed overlay closes it; on an open fullscreen
      overlay it only leaves fullscreen, and a second Escape closes. */
  lemma EscapeClosesOnlyWhenWindowed(s: Session)
    requires s.cvOpen
    ensures !s.viewer.isFullscreen ==> !Step(s, InViewer(KeyDown(EscapeKey))).cvOpen
    ensures s.viewer.isFullscreen ==>
      var once := Step(s, InViewer(KeyDown(EscapeKey)));
      once.cvOpen && !once.viewer.isFullscreen && !Step(once, InViewer(KeyDown(EscapeKey))).cvOpen
  {
  }

  /** The close button and the backdrop close regardless of fullscreen. */
  lemma CloseClicksAlwaysClose(s: Session)
    requires s.cvOpen
    ensures !Step(s, InViewer(CloseClick)).cvOpen
    ensures !Step(s, InViewer(BackdropClick)).cvOpen
  {
  }

  /** Closing and reopening brings back the exact viewer state, including
      the zoom, a lingering fullscreen flag and a cleared spinner. */
  lemma ReopenKeepsViewerState(s: Session, e: Event)
    requires s.cvOpen
    requires !Step(s, InViewer(e)).cvOpen
    ensures Step(Step(s, InViewer(e)), OpenCV) == s
  {
  }

  /** While the overlay is closed, viewer events are inert until it is
      reopened. */
  lemma {:induction false} ClosedSessionIgnoresViewerEvents(s: Session, ses: seq<SessionEvent>)
    requires !s.cvOpen
    requires forall i :: 0 <= i < |ses| ==> ses[i].InViewer?
    ensures RunSession(s, ses) == s
    decreases |ses|
  {
    if |ses| > 0 {
      assert Step(s, ses[0]) == s;
      ClosedSessionIgnoresViewerEvents(s, ses[1..]);
    }
  }
}
