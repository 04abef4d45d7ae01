/**
 * The navigation bar (src/components/CardNav/CardNav.tsx): one button toggles the project
 * gallery and reports the new value to the page, the other toggles the contact overlay.
 */
module CardNavComponent {
  import opened Wrappers
  import opened Catalog

  /** A rendered contact link. */
  datatype Anchor = Anchor(href: string, ariaLabel: string, text: string)

  /** The contact card: its heading and its links. */
  datatype ContactCard = ContactCard(heading: string, links: seq<Anchor>)

  /** The full-screen contact overlay; it holds the card when there is a first item. */
  datatype ContactOverlay = ContactOverlay(card: Option<ContactCard>)

  /** The aria-label both menu buttons carry. */
  function MenuAriaLabel(isExpanded: bool): (s: string)
    ensures s == "Close menu" <==> isExpanded
    ensures !isExpanded ==> s == "Open menu"
  {
    if isExpanded then "Close menu" else "Open menu"
  }

  /** The links of the first item, one anchor per link, in order. */
  function CardLinks(links: seq<CardNavLink>): (r: seq<Anchor>)
    ensures |r| == |links|
    ensures forall j :: 0 <= j < |r| ==>
      r[j].href == links[j].href && r[j].ariaLabel == links[j].ariaLabel && r[j].text == links[j].labelText
  {
    seq(|links|, j requires 0 <= j < |links| => Anchor(links[j].href, links[j].ariaLabel, links[j].labelText))
  }

  /** The contact overlay: shown only while expanded; its card only if `items[0]` exists. */
  function Overlay(items: seq<CardNavItem>, isExpanded: bool): (r: Option<ContactOverlay>)
    ensures r.Some? <==> isExpanded
    ensures r.Some? ==> (r.value.card.Some? <==> |items| > 0)
    ensures r.Some? && r.value.card.Some? ==>
      r.value.card.value == ContactCard(items[0].labelText, CardLinks(items[0].links))
  {
    if !isExpanded then None
    else if |items| == 0 then Some(ContactOverlay(None))
    else Some(ContactOverlay(Some(ContactCard(items[0].labelText, CardLinks(items[0].links)))))
  }

  class CardNav {
    /** The `items` prop. */
    const items: seq<CardNavItem>
    var isHamburgerOpen: bool
    var isExpanded: bool
    var isGalleryOpen: bool
    /** The `isGalleryOpen` prop value the sync effect last ran with. */
    var seenExternal: bool

    /** Mounting with gallery prop `external`: both menu flags closed; the sync effect copies the prop. */
    constructor (items: seq<CardNavItem>, external: bool)
      ensures this.items == items
      ensures !isHamburgerOpen && !isExpanded
      ensures isGalleryOpen == external && seenExternal == external
    {
      this.items := items;
      isHamburgerOpen, isExpanded := false, false;
      isGalleryOpen, seenExternal := external, external;
    }

    /** The contact-menu button: flips both menu flags and leaves the gallery alone. */
    method ToggleMenu()
      modifies this
      ensures isHamburgerOpen == !old(isHamburgerOpen) && isExpanded == !old(isExpanded)
      ensures isGalleryOpen == old(isGalleryOpen) && seenExternal == old(seenExternal)
    {
      isHamburgerOpen := !isHamburgerOpen;
      isExpanded := !isExpanded;
    }

    /** The gallery button: flips the local gallery flag and reports exactly the new value. */
    method ToggleGallery() returns (reported: bool)
      modifies this
      ensures isGalleryOpen == !old(isGalleryOpen) && reported == isGalleryOpen
      ensures isHamburgerOpen == old(isHamburgerOpen) && isExpanded == old(isExpanded)
      ensures seenExternal == old(seenExternal)
    {
      isGalleryOpen := !isGalleryOpen;
      reported := isGalleryOpen;
    }

    /** The page re-renders with gallery prop `external`; the sync effect runs when it changed. */
    method ExternalGalleryProp(external: bool)
      modifies this
      ensures seenExternal == external
      ensures isGalleryOpen == if external != old(seenExternal) then external else old(isGalleryOpen)
      ensures isHamburgerOpen == old(isHamburgerOpen) && isExpanded == old(isExpanded)
    {
      if external != seenExternal {
        isGalleryOpen := external;
        seenExternal := external;
      }
    }

    /**
     * A click in the contact overlay. The backdrop closes it but leaves `isHamburgerOpen` as it
     * was; a click on the card stops propagation. Without an overlay there is nothing to click.
     */
    method OverlayClick(onCard: bool)
      modifies this
      ensures isExpanded == (old(isExpanded) && onCard && |items| > 0)
      ensures isHamburgerOpen == old(isHamburgerOpen)
      ensures isGalleryOpen == old(isGalleryOpen) && seenExternal == old(seenExternal)
    {
      if isExpanded && !(onCard && |items| > 0) {
        isExpanded := false;
      }
    }

    /** The contact overlay as currently rendered. */
    function CurrentOverlay(): (r: Option<ContactOverlay>)
      reads this
      ensures r.Some? <==> isExpanded
    {
      Overlay(items, isExpanded)
    }
  }

  /**
   * Opening the contact menu and then clicking its backdrop leaves the hamburger icon open
   * while the overlay is closed: the two flags are not kept equal.
   */
  method MenuDesync() returns (hamburgerOpen: bool, expanded: bool)
    ensures hamburgerOpen && !expanded
  {
    var nav := new CardNav(ContactItems(), false);
    nav.ToggleMenu();
    nav.OverlayClick(false);
    hamburgerOpen, expanded := nav.isHamburgerOpen, nav.isExpanded;
  }

  /** The contact card of the site lists Email, Facebook and Instagram, in that order. */
  lemma SiteContactCard()
    ensures Overlay(ContactItems(), true) == Some(ContactOverlay(Some(ContactCard("Contact", [
      Anchor("mailto:", "Email us", "Email"),
      Anchor("https://www.facebook.com/profile.php?id=61577381315326", "Facebook", "Facebook"),
      Anchor("https://www.instagram.com/romeroarchitects", "Instagram", "Instagram")]))))
  {
    var links := ContactItems()[0].links;
    assert CardLinks(links) == [
      Anchor("mailto:", "Email us", "Email"),
      Anchor("https://www.facebook.com/profile.php?id=61577381315326", "Facebook", "Facebook"),
      Anchor("https://www.instagram.com/romeroarchitects", "Instagram", "Instagram")];
  }
}
