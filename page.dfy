/**
 * The home page (src/app/page.tsx), which coordinates the navigation bar, the carousel and the
 * gallery overlay through `currentIndex` and two gallery flags. Every event handler of the
 * children that reaches the page is a method here: it runs the child's handler, applies the
 * callback the child makes, and re-renders the children with the new props.
 */
module Page {
  import opened Wrappers
  import opened Catalog
  import opened CarouselRules
  import opened CarouselComponent
  import opened CardNavComponent
  import ProjectGallery

  class Home {
    /** The catalog the page declares; the constructor sets it to `Projects()` for good. */
    const projects: seq<ProjectRecord>

    var isGalleryOpen: bool
    var currentIndex: nat
    var showCarousel: bool
    var isProjectGalleryOpen: bool
    /** The pending 1000 ms timer that mounts the carousel. */
    var mountTimerPending: bool

    /** The navigation bar, mounted with the page. */
    const nav: CardNav
    /** The carousel, mounted once `showCarousel` holds. */
    var carousel: Carousel?

    ghost var Repr: set<object>

    /** Every invariant except that the navigation bar's own gallery flag agrees with the page's. */
    ghost predicate Coherent()
      reads this, Repr
    {
      && this in Repr && nav in Repr
      && (carousel != null ==> carousel in Repr && carousel.item in Repr)
      && |projects| == ProjectCount
      && currentIndex < |projects|
      // the two gallery flags are always written together
      && isGalleryOpen == isProjectGalleryOpen
      // the navigation bar has synced with the gallery prop it receives
      && nav.items == ContactItems()
      && nav.seenExternal == isProjectGalleryOpen
      // the carousel is mounted exactly once the deferred timer has fired
      && (mountTimerPending <==> !showCarousel)
      && (showCarousel <==> carousel != null)
      && (carousel != null ==>
            carousel.Valid() && carousel.projects == projects && carousel.item.currentIndex == currentIndex)
    }

    ghost predicate Valid()
      reads this, Repr
    {
      Coherent() && nav.isGalleryOpen == isProjectGalleryOpen
    }

    /** Page state that only the gallery handlers change. */
    twostate predicate GalleryKept()
      reads this
    {
      isGalleryOpen == old(isGalleryOpen) && isProjectGalleryOpen == old(isProjectGalleryOpen)
    }

    /** The mount timer and the carousel, once shown, stay. */
    twostate predicate MountKept()
      reads this
    {
      && showCarousel == old(showCarousel) && mountTimerPending == old(mountTimerPending)
      && carousel == old(carousel)
    }

    /** The navigation bar's contact-menu flags, which only its menu button and overlay change. */
    twostate predicate NavMenuKept()
      reads this, nav
    {
      nav.isHamburgerOpen == old(nav.isHamburgerOpen) && nav.isExpanded == old(nav.isExpanded)
    }

    /**
     * The mounted carousel has followed the page's index: its item re-rendered with it (see
     * `Carousel.FollowedIndex`), and a change of index started one more preload round.
     */
    twostate predicate IndexFollowed()
      reads this, carousel, carousel.item
      requires carousel != null && carousel == old(carousel)
    {
      && carousel.rounds == (if currentIndex == old(currentIndex) then old(carousel.rounds) else old(carousel.rounds) + [{}])
      && carousel.FollowedIndex()
    }

    /** The initial render: closed gallery, index 0, carousel deferred. */
    constructor ()
      ensures Valid() && fresh(Repr) && projects == Projects()
      ensures !isGalleryOpen && currentIndex == 0 && !showCarousel && !isProjectGalleryOpen
      ensures mountTimerPending && carousel == null
      ensures !nav.isHamburgerOpen && !nav.isExpanded
    {
      projects := Projects();
      isGalleryOpen, currentIndex, showCarousel, isProjectGalleryOpen := false, 0, false, false;
      mountTimerPending := true;
      carousel := null;
      nav := new CardNav(ContactItems(), false);
      new;
      Repr := {this, nav};
    }

    /** The carousel layer's target opacity. */
    function CarouselOpacity(): (r: int)
      reads this
      ensures r == 0 || r == 1
      ensures r == 1 <==> showCarousel && !isProjectGalleryOpen
    {
      if showCarousel && !isProjectGalleryOpen then 1 else 0
    }

    /** The gallery overlay as currently rendered. */
    function Gallery(): (r: Option<seq<ProjectGallery.GridEntry>>)
      reads this
      ensures r.Some? <==> isProjectGalleryOpen
    {
      ProjectGallery.Render(projects, isProjectGalleryOpen, currentIndex)
    }

    /** The 1000 ms mount timer fires: `showCarousel` turns true for good and the carousel mounts. */
    method MountTimerFired()
      requires Valid()
      modifies Repr
      ensures Valid() && fresh(Repr - old(Repr))
      ensures showCarousel && carousel != null && !mountTimerPending
      ensures old(showCarousel) ==> carousel == old(carousel) && unchanged(carousel, carousel.item)
      ensures !old(showCarousel) ==>
        && fresh(carousel) && carousel.rounds == [{}]
        && carousel.imagesLoaded == {} && !carousel.allImagesPreloaded && carousel.cursorType == None
        && carousel.item.Initial(currentIndex)
      ensures currentIndex == old(currentIndex) && GalleryKept()
      ensures NavMenuKept()
    {
      if mountTimerPending {
        showCarousel, mountTimerPending := true, false;
        carousel := new Carousel(projects, currentIndex);
        Repr := Repr + {carousel, carousel.item};
      }
    }

    /**
     * `setCurrentIndex(k)`. A new value re-renders the page, which passes the carousel the new
     * index and a rebuilt catalog array, so the preload effect starts another round; the same
     * value renders nothing.
     */
    method SetCurrentIndex(k: nat)
      requires Valid() && k < |projects|
      modifies Repr
      ensures Valid() && Repr == old(Repr)
      ensures currentIndex == k && GalleryKept() && MountKept()
      ensures carousel != null ==>
        && carousel.rounds == (if k == old(currentIndex) then old(carousel.rounds) else old(carousel.rounds) + [{}])
        && carousel.FollowedIndex() && carousel.item.SwipeKept()
      ensures NavMenuKept()
    {
      if k != currentIndex {
        currentIndex := k;
        if carousel != null {
          carousel.IndexRerender(k);
        }
      }
    }

    /** Applies a carousel's `setCurrentIndex` request, if any. */
    method Apply(request: Option<nat>)
      requires Valid() && (request.Some? ==> request.value < |projects|)
      modifies Repr
      ensures Valid() && Repr == old(Repr)
      ensures currentIndex == if request.Some? then request.value else old(currentIndex)
      ensures GalleryKept() && MountKept()
      ensures carousel != null ==> IndexFollowed() && carousel.item.SwipeKept()
      ensures NavMenuKept()
    {
      if request.Some? {
        SetCurrentIndex(request.value);
      }
    }

    /**
     * `handleGalleryToggle(isOpen)`: both flags take the value. A change re-renders the page: the
     * navigation bar's sync effect sees its new prop and the carousel's preload effect restarts.
     * The bar may already hold the new value, as it does when its own button reported it.
     */
    method HandleGalleryToggle(isOpen: bool)
      requires Coherent() && (isOpen == isProjectGalleryOpen ==> nav.isGalleryOpen == isOpen)
      modifies Repr
      ensures Valid() && Repr == old(Repr)
      ensures isGalleryOpen == isOpen && isProjectGalleryOpen == isOpen
      ensures currentIndex == old(currentIndex) && MountKept()
      ensures NavMenuKept()
      ensures carousel != null ==>
        && carousel.rounds == (if isOpen == old(isProjectGalleryOpen) then old(carousel.rounds) else old(carousel.rounds) + [{}])
        && carousel.PreloadKept() && unchanged(carousel.item)
    {
      var changed := isOpen != isProjectGalleryOpen;
      isGalleryOpen := isOpen;
      isProjectGalleryOpen := isOpen;
      nav.ExternalGalleryProp(isOpen);
      if changed && carousel != null {
        carousel.StartPreload();
      }
    }

    /** `handleProjectClick(index)`: show project `index` and close the gallery, whatever the prior state. */
    method HandleProjectClick(index: nat)
      requires Valid() && index < |projects|
      modifies Repr
      ensures Valid() && Repr == old(Repr)
      ensures currentIndex == index && !isGalleryOpen && !isProjectGalleryOpen
      ensures MountKept()
      ensures carousel != null ==>
        && carousel.rounds == old(carousel.rounds) + (if index == old(currentIndex) then [] else [{}])
                                                   + (if old(isProjectGalleryOpen) then [{}] else [])
        && carousel.FollowedIndex() && carousel.item.SwipeKept()
      ensures NavMenuKept()
    {
      SetCurrentIndex(index);
      // the same two flag updates as `handleGalleryToggle(false)`
      HandleGalleryToggle(false);
    }

    /** The gallery's `onClose` callback: closes both flags and keeps the index. */
    method CloseGallery()
      requires Valid()
      modifies Repr
      ensures Valid() && Repr == old(Repr)
      ensures !isGalleryOpen && !isProjectGalleryOpen
      ensures currentIndex == old(currentIndex) && MountKept()
      ensures carousel != null ==>
        && carousel.rounds == (if old(isProjectGalleryOpen) then old(carousel.rounds) + [{}] else old(carousel.rounds))
        && carousel.PreloadKept() && unchanged(carousel.item)
      ensures NavMenuKept()
    {
      HandleGalleryToggle(false);
    }

    /** A click on the navigation bar's gallery button: the gallery flags flip together. */
    method GalleryButtonClick()
      requires Valid()
      modifies Repr
      ensures Valid() && Repr == old(Repr)
      ensures isGalleryOpen == !old(isGalleryOpen) && isProjectGalleryOpen == !old(isProjectGalleryOpen)
      ensures currentIndex == old(currentIndex) && MountKept()
      ensures NavMenuKept()
      ensures carousel != null ==>
        carousel.rounds == old(carousel.rounds) + [{}] && carousel.PreloadKept() && unchanged(carousel.item)
    {
      var reported := nav.ToggleGallery();
      HandleGalleryToggle(reported);
    }

    /** A click on the navigation bar's contact-menu button: nothing of the page changes. */
    method MenuButtonClick()
      requires Valid()
      modifies nav
      ensures Valid()
      ensures carousel != null ==> unchanged(carousel, carousel.item)
      ensures currentIndex == old(currentIndex) && GalleryKept() && MountKept()
      ensures nav.isHamburgerOpen == !old(nav.isHamburgerOpen) && nav.isExpanded == !old(nav.isExpanded)
    {
      nav.ToggleMenu();
    }

    /** A click in the contact overlay, on the card or on the backdrop around it. */
    method ContactOverlayClick(onCard: bool)
      requires Valid()
      modifies nav
      ensures Valid()
      ensures carousel != null ==> unchanged(carousel, carousel.item)
      ensures currentIndex == old(currentIndex) && GalleryKept() && MountKept()
      ensures nav.isExpanded == (old(nav.isExpanded) && onCard)
      ensures nav.isHamburgerOpen == old(nav.isHamburgerOpen)
    {
      nav.OverlayClick(onCard);
    }

    /** A click on the gallery entry at position `pos`: its action reaches the page. */
    method GalleryEntryClick(pos: nat)
      requires Valid()
      modifies Repr
      ensures Valid() && Repr == old(Repr) && MountKept()
      ensures old(isProjectGalleryOpen) && pos < |projects| ==>
        && currentIndex == pos && !isGalleryOpen && !isProjectGalleryOpen
        && (carousel != null ==>
              && carousel.rounds == old(carousel.rounds) + (if pos == old(currentIndex) then [] else [{}]) + [{}]
              && carousel.FollowedIndex() && carousel.item.SwipeKept())
      ensures !(old(isProjectGalleryOpen) && pos < |projects|) ==>
        && currentIndex == old(currentIndex) && GalleryKept()
        && (carousel != null ==> unchanged(carousel, carousel.item))
      ensures NavMenuKept()
    {
      var view := Gallery();
      if view.Some? && pos < |view.value| {
        // every entry of the gallery selects its own project
        HandleProjectClick(view.value[pos].onClick.index);
      }
    }

    /** A window key press, seen once the carousel is mounted. */
    method KeyDown(key: Key)
      requires Valid()
      modifies Repr
      ensures Valid() && Repr == old(Repr) && GalleryKept() && MountKept()
      ensures currentIndex == if carousel == null then old(currentIndex)
        else match KeyTarget(key, old(currentIndex), |projects|)
          case Some(k) => k
          case None => old(currentIndex)
      ensures carousel != null ==> IndexFollowed() && carousel.item.SwipeKept()
      ensures NavMenuKept()
    {
      if carousel != null {
        var request := carousel.KeyDown(key);
        Apply(request);
      }
    }

    /** A click on the carousel's left or right zone. */
    method ZoneClick(zone: Side, insideButton: bool)
      requires Valid()
      modifies Repr
      ensures Valid() && Repr == old(Repr) && GalleryKept() && MountKept()
      ensures currentIndex == if carousel == null then old(currentIndex)
        else match ZoneClickTarget(zone, insideButton, old(currentIndex), |projects|)
          case Some(k) => k
          case None => old(currentIndex)
      ensures carousel != null ==> IndexFollowed() && carousel.item.SwipeKept()
      ensures NavMenuKept()
    {
      if carousel != null {
        var request := carousel.item.ZoneClick(zone, insideButton);
        Apply(request);
      }
    }

    /** Dot `k` is enabled: the carousel is mounted and the dot's image loaded or every preload done. */
    predicate DotEnabled(k: nat)
      reads this, carousel
    {
      carousel != null && k < |projects| &&
      (projects[k].image in carousel.imagesLoaded || carousel.allImagesPreloaded)
    }

    /** A click on navigation dot `k`: an enabled dot navigates to `k`, a disabled one does nothing. */
    method DotClick(k: nat)
      requires Valid()
      modifies Repr
      ensures Valid() && Repr == old(Repr) && GalleryKept() && MountKept()
      ensures old(DotEnabled(k)) ==> currentIndex == k
      ensures !old(DotEnabled(k)) ==> currentIndex == old(currentIndex)
      ensures carousel != null ==> IndexFollowed() && carousel.item.SwipeKept()
      ensures NavMenuKept()
    {
      if carousel != null && k < |projects| {
        var request := carousel.DotClick(k);
        Apply(request);
      }
    }

    /** A touch starts on the carousel. */
    method TouchStart(t: Point)
      requires Valid()
      modifies Repr
      ensures Valid() && Repr == old(Repr) && GalleryKept() && MountKept()
      ensures currentIndex == old(currentIndex)
      ensures carousel != null ==>
        var it := carousel.item;
        && it.touchStart == Some(t) && it.isSwipeActive && it.touchEnd == old(it.touchEnd)
        && it.swipeOffsetPositive == old(it.swipeOffsetPositive) && it.swipeDirection == old(it.swipeDirection)
        && it.TransitionKept() && it.LoadKept()
        && carousel.PreloadKept() && carousel.rounds == old(carousel.rounds)
      ensures NavMenuKept()
    {
      if carousel != null {
        carousel.item.TouchStart(t);
      }
    }

    /** A touch moves on the carousel; a qualifying move stores the end point and the direction. */
    method TouchMove(t: Point)
      requires Valid()
      modifies Repr
      ensures Valid() && Repr == old(Repr) && GalleryKept() && MountKept()
      ensures currentIndex == old(currentIndex)
      ensures carousel != null ==>
        var it := carousel.item;
        && it.touchStart == old(it.touchStart) && it.isSwipeActive == old(it.isSwipeActive)
        && (if old(it.touchStart).Some? && old(it.isSwipeActive) && MoveQualifies(old(it.touchStart).value, t)
            then it.touchEnd == Some(t) && it.swipeOffsetPositive
              && it.swipeDirection == Some(DirectionOf(old(it.touchStart).value, t))
            else it.SwipeKept())
        && it.TransitionKept() && it.LoadKept()
        && carousel.PreloadKept() && carousel.rounds == old(carousel.rounds)
      ensures NavMenuKept()
    {
      if carousel != null {
        carousel.item.TouchMove(t);
      }
    }

    /** A touch ends on the carousel; a committed swipe navigates. */
    method TouchEnd()
      requires Valid()
      modifies Repr
      ensures Valid() && Repr == old(Repr) && GalleryKept() && MountKept()
      ensures currentIndex == if carousel == null then old(currentIndex)
        else match ReleaseTarget(old(carousel.item.touchStart), old(carousel.item.touchEnd), old(currentIndex), |projects|)
          case Some(k) => k
          case None => old(currentIndex)
      ensures carousel != null ==>
        var it := carousel.item;
        && !it.isSwipeActive && !it.swipeOffsetPositive && it.swipeDirection == None
        && it.touchStart == old(it.touchStart) && it.touchEnd == old(it.touchEnd)
        && IndexFollowed()
      ensures NavMenuKept()
    {
      if carousel != null {
        var request := carousel.item.TouchEnd();
        Apply(request);
      }
    }

    /** The carousel is mounted and the attempt for project `k` in its round `r` has not resolved yet. */
    predicate AttemptPending(r: nat, k: nat)
      reads this, carousel
    {
      carousel != null && r < |carousel.rounds| && k < |projects| && k !in carousel.rounds[r]
    }

    /** The preload attempt for project `k` in round `r` resolves. */
    method AttemptResolved(r: nat, k: nat, outcome: LoadOutcome)
      requires Valid()
      modifies Repr
      ensures Valid() && Repr == old(Repr) && GalleryKept() && MountKept()
      ensures currentIndex == old(currentIndex)
      ensures old(AttemptPending(r, k)) ==>
        && carousel.rounds == old(carousel.rounds)[r := old(carousel.rounds)[r] + {k}]
        && carousel.imagesLoaded ==
             (if outcome == Loaded then old(carousel.imagesLoaded) + {projects[k].image} else old(carousel.imagesLoaded))
        && carousel.allImagesPreloaded == (old(carousel.allImagesPreloaded) || AllAttempted(carousel.rounds[r], |projects|))
        && carousel.cursorType == old(carousel.cursorType)
        && carousel.item.hasLoaded == old(carousel.item.hasLoaded) && carousel.ItemLoadFollows()
        && carousel.item.TransitionKept() && carousel.item.SwipeKept()
      ensures !old(AttemptPending(r, k)) && carousel != null ==> unchanged(carousel, carousel.item)
      ensures NavMenuKept()
    {
      if AttemptPending(r, k) {
        carousel.AttemptResolved(r, k, outcome);
      }
    }

    /** The carousel's text-swap timer fires. */
    method SwapTimerFired()
      requires Valid()
      modifies Repr
      ensures Valid() && Repr == old(Repr) && GalleryKept() && MountKept()
      ensures currentIndex == old(currentIndex)
      ensures carousel != null ==>
        var it := carousel.item;
        && it.displayProject.title == projects[currentIndex].title
        && !it.isTransitioning && it.pendingSwap == None
        && it.previousProject == old(it.previousProject) && it.imageKey == old(it.imageKey)
        && it.LoadKept() && it.SwipeKept()
        && carousel.PreloadKept() && carousel.rounds == old(carousel.rounds)
      ensures NavMenuKept()
    {
      if carousel != null {
        carousel.item.SwapTimerFired();
      }
    }

    /** The carousel item's load-animation timer fires. */
    method LoadTimerFired()
      requires Valid()
      modifies Repr
      ensures Valid() && Repr == old(Repr) && GalleryKept() && MountKept()
      ensures currentIndex == old(currentIndex)
      ensures carousel != null ==>
        var it := carousel.item;
        && it.hasLoaded == old(it.hasLoaded || it.loadTimerPending) && !it.loadTimerPending
        && it.seenImagePreloaded == old(it.seenImagePreloaded) && it.seenAllPreloaded == old(it.seenAllPreloaded)
        && it.TransitionKept() && it.SwipeKept()
        && carousel.PreloadKept() && carousel.rounds == old(carousel.rounds)
      ensures NavMenuKept()
    {
      if carousel != null {
        carousel.item.LoadTimerFired();
      }
    }
  }

  /** The page after its mount timer has fired: project 0 shown, gallery and contact menu closed. */
  method MountedHome() returns (home: Home)
    ensures home.Valid() && fresh(home.Repr) && home.projects == Projects()
    ensures home.carousel != null && home.currentIndex == 0
    ensures !home.isProjectGalleryOpen && !home.nav.isExpanded
    ensures home.carousel.rounds == [{}] && home.carousel.imagesLoaded == {} && home.carousel.item.Initial(0)
  {
    home := new Home();
    home.MountTimerFired();
  }

  /** With the gallery closed, the visitor opens it and picks entry `pos`, which closes it again. */
  method OpenAndPick(home: Home, pos: nat)
    requires home.Valid() && !home.isProjectGalleryOpen && pos < |home.projects|
    modifies home.Repr
    ensures home.Valid() && home.Repr == old(home.Repr) && home.MountKept()
    ensures home.currentIndex == pos && !home.isGalleryOpen && !home.isProjectGalleryOpen
  {
    home.GalleryButtonClick();
    home.GalleryEntryClick(pos);
  }

  /**
   * A visit to the page: the carousel mounts, the visitor presses the right arrow three times,
   * opens the gallery and picks the eighth project, opens it again, picks the first and presses
   * the left arrow, which wraps around to the last project.
   */
  method ElevenProjectWalkthrough() returns (afterThree: nat, afterPick: nat, pickClosed: bool, wrapped: nat)
    ensures afterThree == 3 && afterPick == 7 && pickClosed && wrapped == 10
  {
    var home := MountedHome();
    home.KeyDown(ArrowRight);
    assert home.currentIndex == 1;
    home.KeyDown(ArrowRight);
    assert home.currentIndex == 2;
    home.KeyDown(ArrowRight);
    afterThree := home.currentIndex;
    OpenAndPick(home, 7);
    afterPick := home.currentIndex;
    pickClosed := !home.isGalleryOpen && !home.isProjectGalleryOpen;
    OpenAndPick(home, 0);
    home.KeyDown(ArrowLeft);
    wrapped := home.currentIndex;
  }

  /**
   * A leftward swipe on the mounted page: the move stores the end point, and the release
   * navigates from the first project to the second. The release keeps the stored points, so a
   * plain tap afterwards replays the swipe and moves on to the third.
   */
  method PageSwipe() returns (index: nat, replayed: nat)
    ensures index == 1 && replayed == 2
  {
    var home := MountedHome();
    home.TouchStart(Point(200.0, 0.0));
    home.TouchMove(Point(100.0, 0.0));
    home.TouchEnd();
    index := home.currentIndex;
    home.TouchStart(Point(200.0, 0.0));
    home.TouchEnd();
    replayed := home.currentIndex;
  }

  /**
   * The contact menu and the gallery are independent: a menu opened before the gallery stays
   * open through opening the gallery, picking an entry and the carousel's own updates.
   */
  method MenuSurvivesGallery() returns (expanded: bool, index: nat)
    ensures expanded && index == 3
  {
    var home := MountedHome();
    home.MenuButtonClick();
    home.GalleryButtonClick();
    home.GalleryEntryClick(3);
    home.SwapTimerFired();
    home.AttemptResolved(0, 3, Loaded);
    expanded, index := home.nav.isExpanded, home.currentIndex;
  }

  /**
   * Preloading as the page sees it: the first project's image loads, the item's load timer
   * then sets `hasLoaded`, and neither the loaded image nor `hasLoaded` is lost when the visitor
   * opens the gallery and picks the fifth project, whose text swap then completes.
   */
  method PreloadSurvivesGallery() returns (loaded: bool, kept: bool, index: nat, settled: bool)
    ensures loaded && kept && index == 4 && settled
  {
    var home := MountedHome();
    var c := home.carousel;
    home.AttemptResolved(0, 0, Loaded);
    assert c.item.loadTimerPending;
    home.LoadTimerFired();
    loaded := c.item.hasLoaded;
    home.GalleryButtonClick();
    home.GalleryEntryClick(4);
    home.SwapTimerFired();
    kept := c.item.hasLoaded && home.projects[0].image in c.imagesLoaded;
    index, settled := home.currentIndex, !c.item.isTransitioning;
  }
}
