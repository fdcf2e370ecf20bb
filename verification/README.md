# CV viewer and project cards of the 2025 portfolio site

This project models, in Dafny, the two parts of the portfolio site's
front end that have behaviour rather than only markup.

- **The CV-preview overlay** (`CVViewer` component). It keeps a zoom
  percentage, a fullscreen flag and a loading flag. It gets `isOpen` and
  `onClose` from the hero section. Its handlers are modelled as pure
  transitions of an immutable `Viewer` record:
  - zoom in and out in 25% steps, clamped to 50%–200%;
  - reset to 100%;
  - toggle fullscreen;
  - the iframe's load event;
  - the two-stage Escape key.

  `Dispatch` delivers one event. A closed overlay renders nothing and has
  no key listener, so every event reaches nothing. A click on a disabled
  zoom button is not delivered. `Run` folds a sequence of events.
  `CVSession` adds the parent's `isCVOpen` flag: the "view CV" button sets
  it and `onClose` clears it. The overlay stays mounted while closed, so
  its state survives a close and a reopen. For example, the spinner does
  not come back on reopening (`ReopenKeepsViewerState`).
- **The project gallery** (`Projects` component). It covers:
  - the `Project` record;
  - the badge colour tables, with their "background = text colour + `10`"
    agreement;
  - the category icon;
  - which parts of a card are rendered: description choice, first three
    highlights, links only for truthy URLs, featured badge and double
    column span;
  - the gallery data itself, whose ids and technology names are distinct
    list keys.

  `Array.prototype.slice` is modelled with its clamping and
  negative-index rules from section 23.1.3.28 of ECMAScript 2024. A link is
  rendered when its URL is truthy in JavaScript. An empty string is falsy,
  so a present but empty URL renders no link either.

## Model

| member | source | states |
|---|---|---|
| CVViewer.ZoomIn | src/components/CVViewer.tsx:53-55 | zoom goes up one 25% step and saturates at 200%; other flags untouched; valid levels stay valid |
| CVViewer.ZoomOut | src/components/CVViewer.tsx:57-59 | zoom goes down one 25% step and saturates at 50%; other flags untouched; valid levels stay valid |
| CVViewer.ResetZoom | src/components/CVViewer.tsx:61-63 | zoom becomes 100%, a valid level, whatever it was; fullscreen and loading unchanged |
| CVViewer.ToggleFullscreen | src/components/CVViewer.tsx:257-258 | the fullscreen flag flips and nothing else changes |
| CVViewer.FrameLoaded | src/components/CVViewer.tsx:49-51 | the iframe load hides the spinner and changes nothing else |
| CVViewer.OnKeyDown | src/components/CVViewer.tsx:28-35 | close is requested iff the key is Escape and the viewer is windowed; Escape always ends windowed; only Escape from fullscreen changes the flag; zoom and loading never change |
| CVViewer.Dispatch | src/components/CVViewer.tsx:26-372 | a closed overlay ignores every event; on an open overlay the fullscreen button flips the flag, reset gives 100%, a load clears the spinner, and the close button and backdrop request close; each event keeps zoom valid; a close request leaves the state unchanged; only zoom buttons move the zoom, only the fullscreen button or Escape move fullscreen, only a load clears loading, only close button, backdrop or Escape request close |
| CVViewer.DisabledExactlyWhenNoOp | src/components/CVViewer.tsx:156-206 | within 50%–200% a zoom button is disabled exactly when its handler would be a no-op |
| CVViewer.DisabledGuardsAreTransparent | src/components/CVViewer.tsx:156-206 | with the disabled guards, a click has exactly the effect of calling the handler directly |
| CVViewer.ZoomRoundTrip | src/components/CVViewer.tsx:53-59 | zoom-in then zoom-out restores the state from 50% to 175%; zoom-out then zoom-in restores it from 75% to 200% |
| CVViewer.ResetForgetsZoom | src/components/CVViewer.tsx:61-63 | reset is idempotent and its result does not depend on the previous zoom |
| CVViewer.ToggleTwiceRestores | src/components/CVViewer.tsx:257-258 | toggling fullscreen twice restores the original state |
| CVViewer.EscapeIsTwoStage | src/components/CVViewer.tsx:28-35 | from fullscreen the first Escape only leaves fullscreen, and the second requests close with the state windowed |
| CVViewer.RunPreservesInv | src/components/CVViewer.tsx:53-63 | any event sequence keeps the zoom within 50%–200% and a multiple of 25% |
| CVViewer.ReachableZoomIsValid | src/components/CVViewer.tsx:14-63 | from the mounted state (100%), every reachable zoom is within 50%–200% and a multiple of 25% |
| CVViewer.EveryValidZoomIsReachable | src/components/CVViewer.tsx:53-63 | conversely, each such zoom is reached from any open state by a button sequence that leaves the other flags alone |
| CVViewer.LoadingOnlyClears | src/components/CVViewer.tsx:15-51 | after any event sequence the spinner shows iff it showed before and the open viewer got no load event |
| CVViewer.ZoomOnlyMovesByZoomButtons | src/components/CVViewer.tsx:53-63 | a sequence without zoom-button clicks keeps the zoom |
| CVSession.Step | src/components/Hero.tsx:415-418 | opening sets the parent's flag only; a closed overlay ignores viewer events; an open overlay closes exactly when the viewer requests close, which only the close button, the backdrop or Escape do; a close leaves the viewer state as it was |
| CVSession.SessionKeepsValidZoom | src/components/CVViewer.tsx:53-63 | any page-level sequence, including opens and closes, keeps the zoom valid |
| CVSession.EscapeClosesOnlyWhenWindowed | src/components/CVViewer.tsx:28-47 | Escape closes an open windowed overlay; from fullscreen one press keeps it open and windowed, and the second closes it |
| CVSession.CloseClicksAlwaysClose | src/components/CVViewer.tsx:70-96 | the backdrop and the close button close the overlay whether or not it is fullscreen |
| CVSession.ReopenKeepsViewerState | src/components/CVViewer.tsx:13-65 | closing and reopening returns exactly the previous session, viewer state included |
| CVSession.ClosedSessionIgnoresViewerEvents | src/components/CVViewer.tsx:38-65 | while closed, any sequence of viewer events leaves the session unchanged |
| Projects.StatusColor | src/components/Projects.tsx:170-176 | a six-digit hex colour for any string: Completed is emerald, In Progress amber, and grey exactly for every other string |
| Projects.StatusBgColor | src/components/Projects.tsx:179-186 | an eight-digit hex colour for any string |
| Projects.BgIsForegroundWithAlpha | src/components/Projects.tsx:170-186 | for every string, the background table entry is the text colour with alpha `10` appended |
| Projects.StatusColorsOfKnownStatuses | src/components/Projects.tsx:170-176 | the three statuses get equal colours iff they are equal; Planning looks like an unrecognised status |
| Projects.CategoryIcon | src/components/Projects.tsx:292-298 | mobile icon iff Mobile Development, database icon iff Full Stack, desktop icon iff Web Development or Landing Page |
| Projects.Slice | src/components/Projects.tsx:335 | a JavaScript slice is the contiguous run between the clamped start and end, empty when they cross |
| Projects.SliceFromZeroIsPrefix | src/components/Projects.tsx:335 | `slice(0, n)` is the prefix of length min(n, length) |
| Projects.ShownHighlights | src/components/Projects.tsx:328-346 | the list exists iff the project is featured, and is then the first min(3, n) highlights in their original order |
| Projects.CardLinks | src/components/Projects.tsx:236-260 | a Source Code link iff the GitHub URL is truthy, a Live Demo link iff the live URL is truthy; each link points to its URL; source comes before demo; the same list is rendered again in the action row |
| Projects.TechnologyKeys | src/components/Projects.tsx:309-311 | one chip key per technology, its name, in order |
| Projects.RenderCard | src/components/Projects.tsx:188-376 | the card's key, span (2 iff featured, within the 3-column grid), badge, description choice, status text colour per status (emerald, amber, grey) with the `10`-alpha background, icon, chips, the first three highlights for featured cards, and exactly the link list of `CardLinks` |
| Projects.FeaturedMarkersAgree | src/components/Projects.tsx:189-346 | featured badge, double span and highlights list appear together or not at all |
| Projects.RenderGrid | src/components/Projects.tsx:416-418 | one card per project in order; distinct ids give distinct card keys |
| Projects.ProjectIdsAreDistinct | src/components/Projects.tsx:60-119 | the gallery's three project ids are pairwise distinct |
| Projects.TechnologyKeysAreDistinct | src/components/Projects.tsx:60-119 | within each gallery project the technology names are pairwise distinct |

## Left out

- Animation: framer-motion variants, springs, hover scaling and delays. They are timing with no behavioural contract.
- Document side effects of the overlay: listener registration and removal and the body's `overflow` style. Only their effect is modelled: a closed overlay has no key listener.
- The CV URL, the iframe document, and the download and open-in-new-tab anchors. These are I/O.
- The zoom's rendering as a CSS scale factor and the `{zoom}%` label. They are presentation of the modelled number.
- The hiding of the zoom controls on small screens (`hidden sm:flex`). This is layout.
- The card's hover state and image scaling. These are presentation.
- Technology icons and the chip colours' hover styles. These are presentation.
- Skills, About, Footer, Navbar, Certifications, Teamwork, Contact and App. They are markup, floating-point pointer effects, random particles, clock reads or a hovered-item string. Contact and Navbar hold no form workflow and no scroll observer to model.
- The parent's reaction to `onClose` is treated as immediate. React would apply it at the next render, and no event can fall in between in this model.
