/** The application shell: which navigation item is highlighted for the
    current path, and the sidebar's open state, width and offset as the
    window width and the user's actions drive them. */
module AppShell {
  import opened Text

  /** The navigation targets, in menu order: dashboard, soldiers, procedures. */
  const MenuHrefs: seq<string> := ["/", "/soldiers", "/settings/templates"]

  /** `isActive`: the root item only on the root path; any other item on
      every path that starts with its href, whole path segment or not. */
  function IsActive(pathname: string, href: string): (b: bool)
    ensures href == "/" ==> (b <==> pathname == "/")
    ensures href != "/" ==> (b <==> StartsWith(pathname, href))
  {
    pathname == href || (href != "/" && StartsWith(pathname, href))
  }

  /** The root item is highlighted on the root path and nowhere else. */
  lemma RootActiveOnlyAtRoot(pathname: string)
    ensures IsActive(pathname, "/") <==> pathname == "/"
  {
  }

  /** Any other item is highlighted exactly on the paths it prefixes. */
  lemma ActiveIsPrefix(pathname: string, href: string)
    requires href != "/"
    ensures IsActive(pathname, href) <==> StartsWith(pathname, href)
  {
  }

  /** The prefix rule is not segment-aware: a sibling path that merely
      begins with the same letters highlights the soldiers item. */
  lemma SiblingPathActivatesSoldiers()
    ensures IsActive("/soldiersX", "/soldiers")
    ensures IsActive("/soldiers/abc", "/soldiers")
  {
    assert "/soldiersX"[..|"/soldiers"|] == "/soldiers";
    assert "/soldiers/abc"[..|"/soldiers"|] == "/soldiers";
  }

  /** Whatever the path, at most one menu item is highlighted. */
  lemma AtMostOneActive(pathname: string, i: int, j: int)
    requires 0 <= i < j < |MenuHrefs|
    ensures !(IsActive(pathname, MenuHrefs[i]) && IsActive(pathname, MenuHrefs[j]))
  {
    if i == 0 && IsActive(pathname, MenuHrefs[0]) {
      assert pathname == "/";
      assert |MenuHrefs[j]| > 1;
    }
    if i == 1 && IsActive(pathname, MenuHrefs[1]) {
      assert pathname[2] == MenuHrefs[1][2] != MenuHrefs[2][2];
    }
  }

  /** Widths below this are treated as mobile (tablet and below). */
  const MobileBreakpoint: int := 1024

  /** The sidebar's open state and whether the layout is mobile. */
  datatype Shell = Shell(sidebarOpen: bool, mobile: bool)

  /** The state before the first measurement. */
  const Initial: Shell := Shell(true, false)

  /** `checkMobile`, run on mount and on every resize: the layout is mobile
      below the breakpoint, and the sidebar is open exactly when it is not. */
  function OnResize(s: Shell, width: int): (r: Shell)
    ensures r.mobile <==> width < MobileBreakpoint
    ensures r.sidebarOpen <==> !r.mobile
  {
    var mobile := width < MobileBreakpoint;
    Shell(!mobile, mobile)
  }

  /** A change of path closes the sidebar on mobile and leaves it alone on desktop. */
  function OnNavigate(s: Shell): (r: Shell)
    ensures r.mobile == s.mobile
    ensures s.mobile ==> !r.sidebarOpen
    ensures !s.mobile ==> r == s
  {
    if s.mobile then s.(sidebarOpen := false) else s
  }

  /** The user's sidebar controls: the header's menu button opens the
      sidebar, and the overlay or the close button close it. All three are
      shown on mobile only, so on desktop they do nothing. */
  datatype Event = Resize(width: int) | Navigate | OpenMenu | CloseMenu

  /** One event. A resize re-measures the layout and a change of path
      closes the mobile sidebar; on mobile the menu button opens the
      sidebar, and the overlay and the close button close it. */
  function Step(s: Shell, e: Event): (r: Shell)
    ensures !s.mobile && !e.Resize? ==> r == s
    ensures r.mobile == (if e.Resize? then e.width < MobileBreakpoint else s.mobile)
    ensures e.Resize? ==> r == OnResize(s, e.width)
    ensures e.Navigate? ==> r == OnNavigate(s)
    ensures e.OpenMenu? && s.mobile ==> r.sidebarOpen
    ensures e.CloseMenu? && s.mobile ==> !r.sidebarOpen
  {
    match e
    case Resize(width) => OnResize(s, width)
    case Navigate => OnNavigate(s)
    case OpenMenu => if s.mobile then s.(sidebarOpen := true) else s
    case CloseMenu => if s.mobile then s.(sidebarOpen := false) else s
  }

  /** The state after a run of events. Only a resize changes the layout,
      and a desktop layout with an open sidebar stays that way. */
  function Run(s: Shell, events: seq<Event>): (r: Shell)
    ensures |events| == 0 ==> r == s
    ensures (forall i :: 0 <= i < |events| ==> !events[i].Resize?) ==> r.mobile == s.mobile
    ensures DesktopOpen(s) ==> DesktopOpen(r)
    decreases |events|
  {
    if |events| == 0 then s else Run(Step(s, events[0]), events[1..])
  }

  /** On mobile, opening the menu and then closing it, by the overlay or
      the close button, leaves the sidebar closed and the layout mobile. */
  lemma MobileMenuRoundTrip(s: Shell)
    requires s.mobile
    ensures Run(s, [OpenMenu]).sidebarOpen
    ensures Run(s, [OpenMenu, CloseMenu]) == Shell(false, true)
  {
  }

  /** On desktop the sidebar is open. */
  predicate DesktopOpen(s: Shell)
  {
    !s.mobile ==> s.sidebarOpen
  }

  /** Every step keeps the desktop sidebar open. */
  lemma StepKeepsDesktopOpen(s: Shell, e: Event)
    requires DesktopOpen(s)
    ensures DesktopOpen(Step(s, e))
  {
  }

  /** From the initial state, whatever happens, the desktop sidebar is open. */
  lemma {:induction false} RunKeepsDesktopOpen(s: Shell, events: seq<Event>)
    requires DesktopOpen(s)
    ensures DesktopOpen(Run(s, events))
    decreases |events|
  {
    if |events| > 0 {
      StepKeepsDesktopOpen(s, events[0]);
      RunKeepsDesktopOpen(Step(s, events[0]), events[1..]);
    }
  }

  /** The sidebar's width: full when open, hidden when closed on mobile,
      a collapsed rail when closed on desktop. */
  function SidebarWidth(s: Shell): (w: int)
    ensures w == 280 <==> s.sidebarOpen
    ensures w == 0 <==> !s.sidebarOpen && s.mobile
    ensures w == 80 <==> !s.sidebarOpen && !s.mobile
  {
    if s.sidebarOpen then 280 else if s.mobile then 0 else 80
  }

  /** The sidebar's horizontal offset: pushed off screen exactly when it is
      closed on mobile. */
  function SidebarOffset(s: Shell): (x: int)
    ensures x == 280 <==> s.mobile && !s.sidebarOpen
    ensures x == 0 <==> !(s.mobile && !s.sidebarOpen)
  {
    if s.mobile && !s.sidebarOpen then 280 else 0
  }

  /** The sidebar has no width exactly when it is pushed off screen. */
  lemma HiddenIffOffscreen(s: Shell)
    ensures SidebarWidth(s) == 0 <==> SidebarOffset(s) == 280
  {
  }

  /** The collapsed desktop rail is never shown: from the initial state no
      run of events reaches it. */
  lemma CollapsedRailUnreachable(events: seq<Event>)
    ensures SidebarWidth(Run(Initial, events)) != 80
  {
    RunKeepsDesktopOpen(Initial, events);
  }
}
