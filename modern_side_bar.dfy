/**
 * The modern sidebar: which navigation link is active for a pathname, the
 * open and collapsed flags with their toggles, the window-width rule, and
 * the badge shown on a collapsed item.
 */
module ModernSideBar {
  import opened Wrappers
  import opened Strings
  import opened JsParseInt

  /** Below this window width the sidebar is a mobile drawer. */
  const DesktopWidth := 768

  datatype NavigationItem = NavigationItem(id: string, name: string, href: string, badge: Option<string>)

  /** The two navigation links; neither carries a badge. */
  const NavigationItems: seq<NavigationItem> := [
    NavigationItem("dashboard", "Dashboard", "/", None),
    NavigationItem("patients", "Patients", "/patients", None)
  ]

  /**
   * `isActive(href)`: the root link only for the root path, any other link
   * for every path that starts with it; never without a pathname.
   */
  predicate IsActive(pathname: Option<string>, href: string)
    ensures IsActive(pathname, href) ==> pathname.Some? && href <= pathname.value
  {
    if href == "/" then pathname == Some("/")
    else pathname.Some? && StartsWith(pathname.value, href)
  }

  /** The root link is active exactly on "/". */
  lemma RootActive(pathname: Option<string>)
    ensures IsActive(pathname, "/") <==> pathname == Some("/")
  {
  }

  /** Any other link is active exactly when the pathname starts with it. */
  lemma OtherActive(pathname: Option<string>, href: string)
    requires href != "/"
    ensures IsActive(pathname, href) <==> pathname.Some? && href <= pathname.value
    ensures pathname == None ==> !IsActive(pathname, href)
  {
  }

  /**
   * Patients is active on its sub-pages, and also on any path merely
   * starting with "/patients"; Dashboard is then not active.
   */
  lemma PatientsActiveExamples()
    ensures IsActive(Some("/patients/add"), "/patients") && IsActive(Some("/patients/3"), "/patients")
    ensures IsActive(Some("/patientsX"), "/patients")
    ensures !IsActive(Some("/patients/3"), "/")
    ensures !IsActive(Some("/"), "/patients")
  {
  }

  /** No path activates both links of the sidebar. */
  lemma AtMostOneActive(pathname: Option<string>)
    ensures !(IsActive(pathname, NavigationItems[0].href) && IsActive(pathname, NavigationItems[1].href))
  {
  }

  /**
   * The badge of a collapsed item: nothing without a badge or with an empty
   * one, "9+" when its number is above 9, otherwise the badge itself.
   */
  function CollapsedBadge(badge: Option<string>): (r: Option<string>)
    ensures r.Some? <==> badge.Some? && badge.value != ""
    ensures r.Some? ==> r.value == "9+" || r == badge
  {
    match badge
    case None => None
    case Some(b) =>
      if b == "" then None
      else match ParseInt(b)
        case Some(v) => if v > 9 then Some("9+") else Some(b)
        case None => Some(b)
  }

  /** A numeric badge above 9 shows as "9+"; every other shown badge is shown as written. */
  lemma CollapsedBadgeRule(b: string)
    requires b != ""
    ensures CollapsedBadge(Some(b)) == Some("9+") <==> (ParseInt(b).Some? && ParseInt(b).value > 9) || b == "9+"
    ensures CollapsedBadge(Some(b)) == Some("9+") || CollapsedBadge(Some(b)) == Some(b)
  {
  }

  /** For a count written in decimal, the collapsed badge is the count up to 9 and "9+" beyond. */
  lemma CollapsedCountBadge(n: nat)
    ensures CollapsedBadge(Some(DecimalString(n))) == Some(if n > 9 then "9+" else DecimalString(n))
  {
    var d := DecimalString(n);
    assert ParseInt(d) == Some(n) by {
      assert d + [] == d;
      ParseDecimal(n, []);
    }
    BadgeOfNumber(d, n);
  }

  /** A badge that reads as the number `v` shows as "9+" above 9 and as itself otherwise. */
  lemma BadgeOfNumber(b: string, v: int)
    requires b != "" && ParseInt(b) == Some(v)
    ensures CollapsedBadge(Some(b)) == Some(if v > 9 then "9+" else b)
  {
  }

  /** No navigation item has a badge, so no collapsed badge is ever shown. */
  lemma NoBadgeShown()
    ensures forall k :: 0 <= k < |NavigationItems| ==> CollapsedBadge(NavigationItems[k].badge) == None
  {
  }

  /** The window-width rule: open on desktop widths, closed below. */
  predicate OpenForWidth(width: int) {
    width >= DesktopWidth
  }

  class Sidebar {
    var isOpen: bool
    var isCollapsed: bool

    /** Both flags start false; the mount effect then applies the width rule. */
    constructor ()
      ensures !isOpen && !isCollapsed
    {
      isOpen := false;
      isCollapsed := false;
    }

    /** The hamburger button. */
    method ToggleSidebar()
      modifies this
      ensures isOpen == !old(isOpen) && isCollapsed == old(isCollapsed)
    {
      isOpen := !isOpen;
    }

    /** The collapse button. */
    method ToggleCollapse()
      modifies this
      ensures isCollapsed == !old(isCollapsed) && isOpen == old(isOpen)
    {
      isCollapsed := !isCollapsed;
    }

    /** `handleResize`, run on mount and on every resize. */
    method HandleResize(width: int)
      modifies this
      ensures isOpen == OpenForWidth(width) && isCollapsed == old(isCollapsed)
    {
      if width >= DesktopWidth {
        isOpen := true;
      } else {
        isOpen := false;
      }
    }

    /** A navigation or logout click closes the drawer on narrow windows only. */
    method HandleItemClick(width: int)
      modifies this
      ensures isOpen == (old(isOpen) && OpenForWidth(width)) && isCollapsed == old(isCollapsed)
    {
      if width < DesktopWidth {
        isOpen := false;
      }
    }

    /** The mobile overlay exists only while the sidebar is open. */
    predicate OverlayShown()
      reads this
    {
      isOpen
    }

    /** Clicking the overlay toggles the sidebar, which closes it. */
    method OverlayClick()
      requires OverlayShown()
      modifies this
      ensures !isOpen && isCollapsed == old(isCollapsed)
    {
      ToggleSidebar();
    }
  }

  /** Toggling either flag twice restores the state. */
  method ToggleTwiceRestores(s: Sidebar)
    modifies s
    ensures s.isOpen == old(s.isOpen) && s.isCollapsed == old(s.isCollapsed)
  {
    s.ToggleSidebar();
    s.ToggleSidebar();
    s.ToggleCollapse();
    s.ToggleCollapse();
  }
}
