/**
 * The older sidebar component: exact-path highlighting for Dashboard,
 * "/patients" or its sub-paths for Patients, and the mobile menu flag
 * with its button and overlay.
 */
module SidebarComponent {
  import opened Wrappers
  import opened Strings
  import ModernSideBar

  /** `isActive(path)`: the pathname is exactly `path` (never without a pathname). */
  predicate IsActive(pathname: Option<string>, path: string)
    ensures IsActive(pathname, path) <==> pathname.Some? && pathname.value == path
  {
    pathname == Some(path)
  }

  /** Dashboard is highlighted on the root path. */
  predicate DashboardHighlighted(pathname: Option<string>)
    ensures DashboardHighlighted(pathname) ==> pathname == Some("/")
  {
    IsActive(pathname, "/")
  }

  /** Patients is highlighted on "/patients" and on paths starting with "/patients/". */
  predicate PatientsHighlighted(pathname: Option<string>)
    ensures PatientsHighlighted(pathname) ==> pathname.Some? && "/patients" <= pathname.value
  {
    IsActive(pathname, "/patients") || (pathname.Some? && StartsWith(pathname.value, "/patients/"))
  }

  /** Dashboard is highlighted exactly on "/", Patients exactly on its own path and its sub-paths. */
  lemma Highlighting(pathname: Option<string>)
    ensures DashboardHighlighted(pathname) <==> pathname == Some("/")
    ensures PatientsHighlighted(pathname) <==>
      pathname.Some? && (pathname.value == "/patients" || "/patients/" <= pathname.value)
    ensures !(DashboardHighlighted(pathname) && PatientsHighlighted(pathname))
  {
  }

  /** A path that starts with "/patients" but is no sub-path highlights Patients here, but not in the modern sidebar's rule. */
  lemma DiffersFromModernSidebar()
    ensures ModernSideBar.IsActive(Some("/patientsX"), "/patients")
    ensures !PatientsHighlighted(Some("/patientsX"))
    ensures PatientsHighlighted(Some("/patients/3")) && PatientsHighlighted(Some("/patients"))
  {
    assert !("/patients/" <= "/patientsX") by {
      assert "/patientsX"[9] != "/patients/"[9];
    }
  }

  /**
   * Wherever this sidebar highlights Patients, the modern sidebar's
   * prefix rule makes it active too.
   */
  lemma HighlightImpliesModernActive(pathname: Option<string>)
    ensures PatientsHighlighted(pathname) ==> ModernSideBar.IsActive(pathname, "/patients")
    ensures DashboardHighlighted(pathname) <==> ModernSideBar.IsActive(pathname, "/")
  {
    if pathname.Some? && "/patients/" <= pathname.value {
      assert "/patients" <= "/patients/";
    }
  }

  class Sidebar {
    var isMobileMenuOpen: bool

    constructor ()
      ensures !isMobileMenuOpen
    {
      isMobileMenuOpen := false;
    }

    /** The overlay is rendered only while the menu is open. */
    predicate OverlayShown()
      reads this
    {
      isMobileMenuOpen
    }

    /** The menu button flips the flag. */
    method ToggleMobileMenu()
      modifies this
      ensures isMobileMenuOpen == !old(isMobileMenuOpen)
    {
      isMobileMenuOpen := !isMobileMenuOpen;
    }

    /** Clicking the overlay closes the menu (it sets the flag to false, whatever it was). */
    method OverlayClick()
      modifies this
      ensures !isMobileMenuOpen && !OverlayShown()
    {
      isMobileMenuOpen := false;
    }
  }
}
