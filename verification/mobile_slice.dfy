/**
 * The `mobile` slice of the store (frontend/src/slices/mobileSlice.js): its
 * initial state and its three reducers, with the browser window passed in
 * (`None` where there is no window).
 */
module MobileSlice {
  import opened Optional

  datatype Orientation = Portrait | Landscape

  datatype Viewport = Viewport(innerWidth: int, innerHeight: int)

  datatype MobileFeatures = MobileFeatures(sidebarOpen: bool, bottomNavigation: bool)

  /** `touchEnabled` is absent until `setTouchEnabled` first runs. */
  datatype MobileState = MobileState(
    isMobile: bool,
    orientation: Orientation,
    mobileFeatures: MobileFeatures,
    touchEnabled: Option<bool>)

  /** The widest viewport, in CSS pixels, that counts as mobile. */
  const MobileBreakpoint: int := 768

  function InitialState(window: Option<Viewport>): (s: MobileState)
    ensures s.isMobile <==> window.Some? && window.value.innerWidth <= 768
    ensures s.orientation == Portrait
    ensures !s.mobileFeatures.sidebarOpen && s.mobileFeatures.bottomNavigation
    ensures s.touchEnabled.None?
  {
    MobileState(
      if window.Some? then window.value.innerWidth <= MobileBreakpoint else false,
      Portrait,
      MobileFeatures(false, true),
      None)
  }

  /** `setViewport`. */
  function SetViewport(s: MobileState, window: Option<Viewport>): (r: MobileState)
    ensures window.None? ==> r == s
    ensures window.Some? ==> (r.isMobile <==> window.value.innerWidth <= 768)
    ensures window.Some? ==> (r.orientation == Portrait <==> window.value.innerHeight > window.value.innerWidth)
    ensures r.mobileFeatures == s.mobileFeatures && r.touchEnabled == s.touchEnabled
  {
    match window
    case None => s
    case Some(w) =>
      s.(isMobile := w.innerWidth <= MobileBreakpoint,
         orientation := if w.innerHeight > w.innerWidth then Portrait else Landscape)
  }

  /** A square viewport is landscape. */
  lemma SquareIsLandscape(s: MobileState, side: int)
    ensures SetViewport(s, Some(Viewport(side, side))).orientation == Landscape
  {
  }

  /** The viewport decides alone: applying it again changes nothing. */
  lemma SetViewportIdempotent(s: MobileState, window: Option<Viewport>)
    ensures SetViewport(SetViewport(s, window), window) == SetViewport(s, window)
  {
  }

  /** The initial state guesses the orientation: every window at least as
      wide as it is tall starts portrait, and only the first `setViewport`
      turns it landscape. */
  lemma InitialOrientationIsAGuess(vp: Viewport)
    requires vp.innerHeight <= vp.innerWidth
    ensures InitialState(Some(vp)).orientation == Portrait
    ensures SetViewport(InitialState(Some(vp)), Some(vp)).orientation == Landscape
  {
  }

  /** `toggleSidebar`. */
  function ToggleSidebar(s: MobileState): (r: MobileState)
    ensures r.mobileFeatures.sidebarOpen == !s.mobileFeatures.sidebarOpen
    ensures r.mobileFeatures.bottomNavigation == s.mobileFeatures.bottomNavigation
    ensures r.isMobile == s.isMobile && r.orientation == s.orientation && r.touchEnabled == s.touchEnabled
  {
    s.(mobileFeatures := s.mobileFeatures.(sidebarOpen := !s.mobileFeatures.sidebarOpen))
  }

  lemma ToggleTwice(s: MobileState)
    ensures ToggleSidebar(ToggleSidebar(s)) == s
  {
  }

  /** `setTouchEnabled(payload)`. */
  function SetTouchEnabled(s: MobileState, payload: bool): (r: MobileState)
    ensures r.touchEnabled == Some(payload)
    ensures r.isMobile == s.isMobile && r.orientation == s.orientation && r.mobileFeatures == s.mobileFeatures
  {
    s.(touchEnabled := Some(payload))
  }

  /** The reducers touch disjoint fields, so the sidebar and touch updates commute. */
  lemma ToggleCommutesWithTouch(s: MobileState, payload: bool)
    ensures ToggleSidebar(SetTouchEnabled(s, payload)) == SetTouchEnabled(ToggleSidebar(s), payload)
  {
  }
}
