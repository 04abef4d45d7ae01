/**
 * The alternative top bar (src/components/Navbar/Navbar.tsx): a mobile menu toggle and a
 * "scrolled" flag. The site's layout does not mount it and the page imports it without rendering it.
 */
module NavbarComponent {
  import opened Wrappers

  /** A navigation link. */
  datatype NavItem = NavItem(name: string, href: string)

  /** The page scroll offset (pixels) beyond which the bar switches to its scrolled style. */
  const ScrollThreshold: real := 20.0

  /** The navigation links, in order. */
  function NavItems(): (r: seq<NavItem>)
    ensures |r| == 5
    ensures forall j, k :: 0 <= j < k < |r| ==> r[j].href != r[k].href
  {
    [ NavItem("Home", "#home"), NavItem("Projects", "#projects"), NavItem("About", "#about"),
      NavItem("Services", "#services"), NavItem("Contact", "#contact") ]
  }

  /** ASCII lower-casing of one character. */
  function LowerChar(c: char): (d: char)
    ensures 'A' <= c <= 'Z' ==> 'a' <= d <= 'z'
    ensures !('A' <= c <= 'Z') ==> d == c
  {
    if 'A' <= c <= 'Z' then (c as int + 32) as char else c
  }

  /** ASCII lower-casing. */
  function Lower(s: string): (r: string)
    ensures |r| == |s|
  {
    seq(|s|, j requires 0 <= j < |s| => LowerChar(s[j]))
  }

  /** Five links; each points at the in-page anchor named after its lower-cased label. */
  lemma NavItemsShape()
    ensures |NavItems()| == 5
    ensures forall k :: 0 <= k < |NavItems()| ==> NavItems()[k].href == "#" + Lower(NavItems()[k].name)
  {
    assert Lower("Home") == "home";
    assert Lower("Projects") == "projects";
    assert Lower("About") == "about";
    assert Lower("Services") == "services";
    assert Lower("Contact") == "contact";
  }

  class Navbar {
    var isOpen: bool
    var scrolled: bool

    constructor ()
      ensures !isOpen && !scrolled
    {
      isOpen, scrolled := false, false;
    }

    /** The mobile menu button flips the menu. */
    method MenuButtonClick()
      modifies this
      ensures isOpen == !old(isOpen) && scrolled == old(scrolled)
    {
      isOpen := !isOpen;
    }

    /** A click on any mobile menu link closes the menu. */
    method MobileLinkClick()
      modifies this
      ensures !isOpen && scrolled == old(scrolled)
    {
      isOpen := false;
    }

    /** A window scroll event at offset `scrollY`; the comparison is strict. */
    method Scroll(scrollY: real)
      modifies this
      ensures scrolled <==> scrollY > ScrollThreshold
      ensures isOpen == old(isOpen)
    {
      scrolled := scrollY > ScrollThreshold;
    }

    /** The mobile menu's links, rendered only while the menu is open. */
    function MobileMenu(): (r: Option<seq<NavItem>>)
      reads this
      ensures r.Some? <==> isOpen
      ensures r.Some? ==> r.value == NavItems()
    {
      if isOpen then Some(NavItems()) else None
    }
  }
}
