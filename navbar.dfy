/** The site navigation bar of apps/web/src/components/navbar.tsx: the link
    list, the rule that highlights the current section, and the two pieces of
    local state (mobile menu open, page scrolled) with the events that change
    them. */
module Navbar {

  datatype NavLink = NavLink(href: string, title: string)

  const NAV_LINKS: seq<NavLink> := [
    NavLink("/", "Home"),
    NavLink("/solution", "Solution"),
    NavLink("/news", "News"),
    NavLink("/team", "Team"),
    NavLink("/careers", "Careers"),
    NavLink("/contact", "Contact")
  ]

  /** Scroll offset, in pixels, past which the bar counts as scrolled. */
  const SCROLL_THRESHOLD: real := 20.0

  /** `isActive(href)`: the home link only on "/" itself, every other link on
      any path that has its href as a plain string prefix. */
  predicate IsActive(pathname: string, href: string): (active: bool)
    ensures active ==> href <= pathname
  {
    if href == "/" then pathname == "/" else href <= pathname
  }

  /** Local state of one mounted navigation bar. */
  class NavbarState {
    var pathname: string
    var isOpen: bool
    var isScrolled: bool

    /** First render: menu closed, not scrolled. */
    constructor (pathname: string)
      ensures this.pathname == pathname
      ensures !isOpen && !isScrolled
    {
      this.pathname := pathname;
      isOpen := false;
      isScrolled := false;
    }

    /** Click on the mobile toggle: `setIsOpen(!isOpen)`. */
    method Toggle()
      modifies this
      ensures isOpen == !old(isOpen)
      ensures isScrolled == old(isScrolled) && pathname == old(pathname)
    {
      isOpen := !isOpen;
    }

    /** A new pathname from the router. The effect keyed on `pathname` runs
        only when the value changes, and then closes the menu. */
    method RouteChange(newPathname: string)
      modifies this
      ensures pathname == newPathname
      ensures isOpen == (old(isOpen) && newPathname == old(pathname))
      ensures isScrolled == old(isScrolled)
    {
      if newPathname != pathname {
        isOpen := false;
      }
      pathname := newPathname;
    }

    /** The window's scroll handler: `setIsScrolled(window.scrollY > 20)`. */
    method Scroll(scrollY: real)
      modifies this
      ensures isScrolled == (scrollY > SCROLL_THRESHOLD)
      ensures isOpen == old(isOpen) && pathname == old(pathname)
    {
      isScrolled := scrollY > SCROLL_THRESHOLD;
    }

    /** Whether the mobile menu panel is rendered. */
    predicate MobileMenuShown()
      reads this
    {
      isOpen
    }

    /** The toggle button's `aria-label`. */
    function AriaLabel(): (aria: string)
      reads this
      ensures aria == "Close menu" <==> MobileMenuShown()
      ensures aria == "Open menu" <==> !MobileMenuShown()
    {
      if isOpen then "Close menu" else "Open menu"
    }
  }

  /** Toggling twice gives back the state it started from. */
  method ToggleTwice(nav: NavbarState)
    modifies nav
    ensures nav.isOpen == old(nav.isOpen)
    ensures nav.isScrolled == old(nav.isScrolled) && nav.pathname == old(nav.pathname)
  {
    nav.Toggle();
    nav.Toggle();
  }

  // --- Properties of the active-link rule ---

  /** The home link is active exactly on "/". */
  lemma HomeActiveOnlyAtRoot(pathname: string)
    ensures IsActive(pathname, "/") <==> pathname == "/"
  {
  }

  /** The rule is a plain string prefix, not a path-segment prefix: the News
      link is also active on "/newsroom". */
  lemma PrefixIsNotSegmentAware()
    ensures IsActive("/news/launch", "/news")
    ensures IsActive("/newsroom", "/news")
    ensures !IsActive("/solution", "/")
  {
  }

  /** Two prefixes of one string are prefixes of each other. */
  lemma PrefixesAreComparable(a: string, b: string, s: string)
    requires a <= s && b <= s && |a| <= |b|
    ensures a <= b
  {
  }

  /** No link's href, other than the home link's, is a prefix of another's:
      any two differ in their second or third character. */
  lemma HrefsIncomparable(i: nat, j: nat)
    requires 0 < i < |NAV_LINKS| && 0 < j < |NAV_LINKS| && i != j
    ensures !(NAV_LINKS[i].href <= NAV_LINKS[j].href)
  {
    var a, b := NAV_LINKS[i].href, NAV_LINKS[j].href;
    assert i == 1 || i == 2 || i == 3 || i == 4 || i == 5;
    assert j == 1 || j == 2 || j == 3 || j == 4 || j == 5;
    assert |a| >= 3 && |b| >= 3 && (a[1] != b[1] || a[2] != b[2]);
  }

  /** On any page at most one link is highlighted. */
  lemma AtMostOneActive(pathname: string, i: nat, j: nat)
    requires i < |NAV_LINKS| && j < |NAV_LINKS|
    requires IsActive(pathname, NAV_LINKS[i].href) && IsActive(pathname, NAV_LINKS[j].href)
    ensures i == j
  {
    // The home link is active only on "/", where no other href is a prefix.
    if i != j && i != 0 && j != 0 {
      var a, b := NAV_LINKS[i].href, NAV_LINKS[j].href;
      if |a| <= |b| {
        PrefixesAreComparable(a, b, pathname);
        HrefsIncomparable(i, j);
      } else {
        PrefixesAreComparable(b, a, pathname);
        HrefsIncomparable(j, i);
      }
    }
  }
}
