/**
 * The stateful part of the carousel (src/components/Carousel/Carousel.tsx): `CarouselItem`
 * holds the focal item's transition, load-animation and swipe state; `Carousel` holds the
 * preload bookkeeping and the pointer cursor and owns the item. The page owns `currentIndex`:
 * a handler that would call `setCurrentIndex(k)` returns `Some(k)` to its caller instead.
 * Timers are fields saying which callback is pending; a timer firing is a method call.
 */
module CarouselComponent {
  import opened Wrappers
  import opened Catalog
  import opened CarouselRules

  /** How one image preload attempt ended. */
  datatype LoadOutcome =
    | Loaded     // `img.onload`
    | Failed     // `img.onerror`: logged and resolved anyway
    | NoWindow   // no `window.Image`: resolved without loading

  class CarouselItem {
    /** The `projects` prop. */
    const projects: seq<ProjectRecord>
    /** The `currentIndex` prop; the `project` prop is `projects[currentIndex]`. */
    var currentIndex: nat

    // Transition state.
    var displayProject: ProjectRecord
    var previousProject: ProjectRecord
    var isTransitioning: bool
    var imageKey: nat
    /** The pending 300 ms text-swap timer, with the project its callback captured. */
    var pendingSwap: Option<ProjectRecord>

    // Load-animation state.
    var hasLoaded: bool
    /** The pending 100 ms timer that sets `hasLoaded`. */
    var loadTimerPending: bool
    /** The dependencies (`imagePreloaded`, `allImagesPreloaded`) the load effect last ran with. */
    var seenImagePreloaded: bool
    var seenAllPreloaded: bool

    // Swipe state. `touchStart` and `touchEnd` are the `_touchStart` and `_touchEnd` properties
    // the handlers store on the DOM element.
    var touchStart: Option<Point>
    var touchEnd: Option<Point>
    var isSwipeActive: bool
    /** `swipeOffset > 0`; the normalised offset itself is a rendering opacity. */
    var swipeOffsetPositive: bool
    var swipeDirection: Option<Side>

    /** The `project` prop. */
    function Project(): ProjectRecord
      reads this
      requires currentIndex < |projects|
    {
      projects[currentIndex]
    }

    ghost predicate Valid()
      reads this
    {
      && |projects| >= 1 && currentIndex < |projects|
      // a text swap is pending exactly while transitioning, and it swaps in the current project
      && (isTransitioning <==> pendingSwap.Some?)
      && (pendingSwap.Some? ==> pendingSwap.value.title == Project().title)
      && (!isTransitioning ==> displayProject.title == Project().title)
      // the load timer only runs when one of its dependencies held
      && (loadTimerPending ==> seenImagePreloaded || seenAllPreloaded)
      // the direction and the offset are set together, by a move during an active swipe
      && (swipeDirection.Some? <==> swipeOffsetPositive)
      && (swipeDirection.Some? ==> isSwipeActive && touchStart.Some? && touchEnd.Some?)
    }

    twostate predicate TransitionKept()
      reads this
    {
      && displayProject == old(displayProject) && previousProject == old(previousProject)
      && isTransitioning == old(isTransitioning) && imageKey == old(imageKey)
      && pendingSwap == old(pendingSwap)
    }

    twostate predicate LoadKept()
      reads this
    {
      && hasLoaded == old(hasLoaded) && loadTimerPending == old(loadTimerPending)
      && seenImagePreloaded == old(seenImagePreloaded) && seenAllPreloaded == old(seenAllPreloaded)
    }

    twostate predicate SwipeKept()
      reads this
    {
      && touchStart == old(touchStart) && touchEnd == old(touchEnd)
      && isSwipeActive == old(isSwipeActive) && swipeOffsetPositive == old(swipeOffsetPositive)
      && swipeDirection == old(swipeDirection)
    }

    /**
     * The transition effect has run for an index change: a new title keeps the project shown so
     * far, re-keys the overlay image and reschedules the text swap; the same title changes nothing.
     */
    twostate predicate TransitionFollowed()
      reads this
    {
      && currentIndex < |projects| && old(currentIndex) < |projects|
      && if projects[currentIndex].title != old(projects[currentIndex].title) then
           && previousProject == old(displayProject) && displayProject == old(displayProject)
           && isTransitioning && imageKey == old(imageKey) + 1 && pendingSwap == Some(projects[currentIndex])
         else TransitionKept()
    }

    /**
     * The state right after mounting at index `i`: a first transition to project `i` is under
     * way, nothing has loaded, the load effect has seen no preload, and no touch is stored.
     */
    predicate Initial(i: nat)
      reads this
    {
      && currentIndex == i && i < |projects|
      && displayProject == projects[i] && previousProject == projects[i]
      && isTransitioning && imageKey == 1 && pendingSwap == Some(projects[i])
      && !hasLoaded && !loadTimerPending && !seenImagePreloaded && !seenAllPreloaded
      && touchStart == None && touchEnd == None
      && !isSwipeActive && !swipeOffsetPositive && swipeDirection == None
    }

    /**
     * Mounting: the initial state, then the mount run of both effects. The transition effect
     * starts a (trivial) transition to the first project; the load effect runs with both of its
     * dependencies false, because nothing has been preloaded at mount, and arms no timer.
     */
    constructor (projects: seq<ProjectRecord>, i: nat)
      requires i < |projects|
      ensures Valid() && this.projects == projects && currentIndex == i
      ensures displayProject == projects[i] && previousProject == projects[i]
      ensures isTransitioning && imageKey == 1 && pendingSwap == Some(projects[i])
      ensures !hasLoaded && !loadTimerPending && !seenImagePreloaded && !seenAllPreloaded
      ensures touchStart == None && touchEnd == None
      ensures !isSwipeActive && !swipeOffsetPositive && swipeDirection == None
    {
      this.projects := projects;
      currentIndex := i;
      displayProject, previousProject := projects[i], projects[i];
      isTransitioning, imageKey := true, 1;
      pendingSwap := Some(projects[i]);
      hasLoaded, loadTimerPending := false, false;
      seenImagePreloaded, seenAllPreloaded := false, false;
      touchStart, touchEnd := None, None;
      isSwipeActive, swipeOffsetPositive, swipeDirection := false, false, None;
    }

    /**
     * The parent re-renders with a new `currentIndex`. The transition effect depends on the
     * project's title only: when it changes, the base layer keeps the project shown so far,
     * the overlay image is re-keyed, and the text swap is rescheduled, cancelling the pending one.
     */
    method SetIndex(i: nat)
      requires Valid() && i < |projects|
      modifies this
      ensures Valid() && currentIndex == i
      ensures projects[i].title != old(Project().title) ==>
        && previousProject == old(displayProject) && displayProject == old(displayProject)
        && isTransitioning && imageKey == old(imageKey) + 1 && pendingSwap == Some(projects[i])
      ensures projects[i].title == old(Project().title) ==> TransitionKept()
      ensures TransitionFollowed()
      ensures LoadKept() && SwipeKept()
    {
      var changed := projects[i].title != projects[currentIndex].title;
      currentIndex := i;
      if changed {
        previousProject := displayProject;
        isTransitioning := true;
        imageKey := imageKey + 1;
        pendingSwap := Some(projects[i]);
      }
    }

    /** The 300 ms text-swap timer fires: the captured project's text is shown, the transition ends. */
    method SwapTimerFired()
      requires Valid()
      modifies this
      ensures Valid() && currentIndex == old(currentIndex)
      ensures old(pendingSwap).Some? ==>
        && displayProject == old(pendingSwap).value && !isTransitioning && pendingSwap == None
        && previousProject == old(previousProject) && imageKey == old(imageKey)
      ensures old(pendingSwap).None? ==> TransitionKept()
      ensures displayProject.title == Project().title
      ensures LoadKept() && SwipeKept()
    {
      if pendingSwap.Some? {
        displayProject := pendingSwap.value;
        isTransitioning := false;
        pendingSwap := None;
      }
    }

    /**
     * The parent re-renders with load props `imagePreloaded` and `allPreloaded`. If either
     * differs from the last run, the effect's cleanup cancels the pending timer and the effect
     * arms a new one when either prop holds.
     */
    method LoadPropsChanged(imagePreloaded: bool, allPreloaded: bool)
      requires Valid()
      modifies this
      ensures Valid() && currentIndex == old(currentIndex)
      ensures seenImagePreloaded == imagePreloaded && seenAllPreloaded == allPreloaded
      ensures (imagePreloaded, allPreloaded) != (old(seenImagePreloaded), old(seenAllPreloaded)) ==>
        loadTimerPending == (imagePreloaded || allPreloaded)
      ensures (imagePreloaded, allPreloaded) == (old(seenImagePreloaded), old(seenAllPreloaded)) ==>
        loadTimerPending == old(loadTimerPending)
      ensures hasLoaded == old(hasLoaded)
      ensures TransitionKept() && SwipeKept()
    {
      if (imagePreloaded, allPreloaded) != (seenImagePreloaded, seenAllPreloaded) {
        loadTimerPending := imagePreloaded || allPreloaded;
        seenImagePreloaded, seenAllPreloaded := imagePreloaded, allPreloaded;
      }
    }

    /** The 100 ms load timer fires; `hasLoaded` never reverts. */
    method LoadTimerFired()
      requires Valid()
      modifies this
      ensures Valid() && currentIndex == old(currentIndex)
      ensures hasLoaded == (old(hasLoaded) || old(loadTimerPending)) && !loadTimerPending
      ensures seenImagePreloaded == old(seenImagePreloaded) && seenAllPreloaded == old(seenAllPreloaded)
      ensures TransitionKept() && SwipeKept()
    {
      if loadTimerPending {
        hasLoaded := true;
        loadTimerPending := false;
      }
    }

    /** `touchstart` at `t`: stores the start point and activates the swipe; `touchEnd` is kept. */
    method TouchStart(t: Point)
      requires Valid()
      modifies this
      ensures Valid() && currentIndex == old(currentIndex)
      ensures touchStart == Some(t) && isSwipeActive
      ensures touchEnd == old(touchEnd)
      ensures swipeOffsetPositive == old(swipeOffsetPositive) && swipeDirection == old(swipeDirection)
      ensures TransitionKept() && LoadKept()
    {
      touchStart := Some(t);
      isSwipeActive := true;
    }

    /**
     * `touchmove` at `t`. Ignored without a stored start or an active swipe; otherwise only a
     * horizontal-dominant move of more than 10 pixels updates the preview and the end point.
     */
    method TouchMove(t: Point)
      requires Valid()
      modifies this
      ensures Valid() && currentIndex == old(currentIndex)
      ensures touchStart == old(touchStart) && isSwipeActive == old(isSwipeActive)
      ensures if old(touchStart).Some? && old(isSwipeActive) && MoveQualifies(old(touchStart).value, t)
        then touchEnd == Some(t) && swipeOffsetPositive
          && swipeDirection == Some(DirectionOf(old(touchStart).value, t))
        else SwipeKept()
      ensures TransitionKept() && LoadKept()
    {
      if touchStart.Some? && isSwipeActive && MoveQualifies(touchStart.value, t) {
        swipeOffsetPositive := true;
        swipeDirection := Some(DirectionOf(touchStart.value, t));
        touchEnd := Some(t);
      }
    }

    /**
     * `touchend`: the swipe state is always reset, and the stored points (which are never
     * cleared, so a later gesture may reuse a stale end point) decide the navigation request.
     */
    method TouchEnd() returns (request: Option<nat>)
      requires Valid()
      modifies this
      ensures Valid() && currentIndex == old(currentIndex)
      ensures !isSwipeActive && !swipeOffsetPositive && swipeDirection == None
      ensures touchStart == old(touchStart) && touchEnd == old(touchEnd)
      ensures request == ReleaseTarget(touchStart, touchEnd, currentIndex, |projects|)
      ensures TransitionKept() && LoadKept()
    {
      isSwipeActive, swipeOffsetPositive, swipeDirection := false, false, None;
      request := ReleaseTarget(touchStart, touchEnd, currentIndex, |projects|);
    }

    /**
     * The request a click on a side zone makes; `insideButton` is
     * `target.closest("button") != null`. The click changes no state.
     */
    function ZoneClick(zone: Side, insideButton: bool): (request: Option<nat>)
      reads this
      requires Valid()
      ensures insideButton ==> request == None
      ensures !insideButton && zone == Left ==> request == Some(Prev(currentIndex, |projects|))
      ensures !insideButton && zone == Right ==> request == Some(Next(currentIndex, |projects|))
    {
      ZoneClickTarget(zone, insideButton, currentIndex, |projects|)
    }

    /** The swipe preview layer, drawn while a swipe is active with a direction and an offset. */
    function PreviewShown(): (r: Option<PreviewLayer>)
      reads this
      requires Valid()
      ensures r.Some? <==> isSwipeActive && swipeDirection.Some? && swipeOffsetPositive
      ensures r.Some? ==> r.value == Preview(projects, currentIndex, swipeDirection.value)
    {
      if isSwipeActive && swipeDirection.Some? && swipeOffsetPositive
      then Some(Preview(projects, currentIndex, swipeDirection.value))
      else None
    }
  }

  class Carousel {
    /** The `projects` prop. */
    const projects: seq<ProjectRecord>
    /** The rendered `CarouselItem`, mounted for the carousel's whole lifetime. */
    const item: CarouselItem

    var imagesLoaded: set<string>
    /**
     * One entry per run of the preload effect: the positions whose attempt has resolved.
     * The page rebuilds the projects array on every render, so the effect can run again.
     */
    var rounds: seq<set<nat>>
    var allImagesPreloaded: bool
    /** The cursor type (the follow position is not modelled). */
    var cursorType: Option<Side>

    ghost predicate Valid()
      reads this, item
    {
      && item.Valid() && item.projects == projects
      && imagesLoaded <= ImageKeys(projects)
      && (allImagesPreloaded <==> exists r :: 0 <= r < |rounds| && AllAttempted(rounds[r], |projects|))
      // the item's load effect has seen the current props
      && item.seenImagePreloaded == (projects[item.currentIndex].image in imagesLoaded)
      && item.seenAllPreloaded == allImagesPreloaded
    }

    /**
     * The item's load effect has run with the new load props: when either prop differs from the
     * last run the 100 ms timer is re-armed exactly when one of them holds, otherwise it is kept.
     */
    twostate predicate ItemLoadFollows()
      reads this, item
    {
      item.loadTimerPending ==
        if (item.seenImagePreloaded, item.seenAllPreloaded) != (old(item.seenImagePreloaded), old(item.seenAllPreloaded))
        then item.seenImagePreloaded || item.seenAllPreloaded
        else old(item.loadTimerPending)
    }

    /** The loaded images, the preload flag and the cursor, which only loading and the pointer change. */
    twostate predicate PreloadKept()
      reads this
    {
      && imagesLoaded == old(imagesLoaded) && allImagesPreloaded == old(allImagesPreloaded)
      && cursorType == old(cursorType)
    }

    /**
     * The item has re-rendered with the page's (possibly new) index: its transition effect and
     * its load effect have run, `hasLoaded` is kept, and nothing loaded or preloaded is lost.
     */
    twostate predicate FollowedIndex()
      reads this, item
    {
      && PreloadKept() && item.TransitionFollowed() && item.hasLoaded == old(item.hasLoaded)
      && ItemLoadFollows()
    }

    /** Mounting at index `i`: nothing is loaded yet and the first preload round starts. */
    constructor (projects: seq<ProjectRecord>, i: nat)
      requires i < |projects|
      ensures Valid() && fresh(item) && this.projects == projects && item.currentIndex == i
      ensures imagesLoaded == {} && rounds == [{}] && !allImagesPreloaded && cursorType == None
      ensures item.Initial(i)
    {
      this.projects := projects;
      item := new CarouselItem(projects, i);
      imagesLoaded := {};
      var none: set<nat> := {};
      rounds := [none];
      allImagesPreloaded := false;
      cursorType := None;
      assert !AllAttempted(none, |projects|) by { assert 0 !in none; }
    }

    /** The preload effect runs again (a new `projects` array): a fresh round of attempts starts. */
    method StartPreload()
      requires Valid()
      modifies this
      ensures Valid()
      ensures rounds == old(rounds) + [{}]
      ensures imagesLoaded == old(imagesLoaded) && allImagesPreloaded == old(allImagesPreloaded)
      ensures cursorType == old(cursorType)
    {
      var none: set<nat> := {};
      rounds := rounds + [none];
      assert forall r :: 0 <= r < |old(rounds)| ==> rounds[r] == old(rounds)[r];
      assert !AllAttempted(rounds[|rounds| - 1], |projects|) by { assert 0 !in none; }
    }

    /**
     * The attempt for project `k` in round `r` resolves with `outcome`. Only a successful load
     * adds the image key; once every attempt of a round has resolved, the round's `Promise.all`
     * sets the flag. The item then re-renders with the new load props. An `Image` fires
     * `onload` or `onerror` once, so each attempt resolves once.
     */
    method AttemptResolved(r: nat, k: nat, outcome: LoadOutcome)
      requires Valid() && r < |rounds| && k < |projects| && k !in rounds[r]
      modifies this, item
      ensures Valid()
      ensures rounds == old(rounds)[r := old(rounds)[r] + {k}]
      ensures imagesLoaded == if outcome == Loaded then old(imagesLoaded) + {projects[k].image} else old(imagesLoaded)
      ensures allImagesPreloaded == (old(allImagesPreloaded) || AllAttempted(rounds[r], |projects|))
      ensures cursorType == old(cursorType)
      ensures item.currentIndex == old(item.currentIndex) && item.hasLoaded == old(item.hasLoaded)
      ensures ItemLoadFollows()
      ensures item.TransitionKept() && item.SwipeKept()
    {
      rounds := rounds[r := rounds[r] + {k}];
      if outcome == Loaded {
        imagesLoaded := imagesLoaded + {projects[k].image};
      }
      if AllAttempted(rounds[r], |projects|) {
        allImagesPreloaded := true;
      }
      assert forall q :: 0 <= q < |rounds| && q != r ==> rounds[q] == old(rounds)[q];
      assert forall q :: 0 <= q < |rounds| ==> old(rounds)[q] <= rounds[q];
      item.LoadPropsChanged(projects[item.currentIndex].image in imagesLoaded, allImagesPreloaded);
    }

    /** The page passes a new `currentIndex`; the item re-renders with the new project and load props. */
    method IndexChanged(i: nat)
      requires Valid() && i < |projects|
      modifies item
      ensures Valid() && item.currentIndex == i
      ensures projects[i].title != old(item.Project().title) ==>
        && item.previousProject == old(item.displayProject) && item.displayProject == old(item.displayProject)
        && item.isTransitioning && item.imageKey == old(item.imageKey) + 1
        && item.pendingSwap == Some(projects[i])
      ensures projects[i].title == old(item.Project().title) ==> item.TransitionKept()
      ensures item.hasLoaded == old(item.hasLoaded) && item.SwipeKept()
      ensures ItemLoadFollows()
      ensures FollowedIndex()
    {
      item.SetIndex(i);
      item.LoadPropsChanged(projects[i].image in imagesLoaded, allImagesPreloaded);
    }

    /**
     * The page re-renders with a new `currentIndex`: the item follows the index, and the rebuilt
     * projects array starts another preload round.
     */
    method IndexRerender(i: nat)
      requires Valid() && i < |projects|
      modifies this, item
      ensures Valid() && item.currentIndex == i
      ensures rounds == old(rounds) + [{}]
      ensures FollowedIndex() && item.SwipeKept()
    {
      IndexChanged(i);
      StartPreload();
    }

    /** The navigation dots for the current state. */
    function CurrentDots(): (r: seq<Dot>)
      reads this, item
      requires Valid()
      ensures |r| == |projects|
    {
      Dots(projects, item.currentIndex, imagesLoaded, allImagesPreloaded)
    }

    /**
     * The request a window `keydown` makes; the listener is registered for as long as the
     * carousel is mounted. The key press changes no state.
     */
    function KeyDown(key: Key): (request: Option<nat>)
      reads this, item
      requires Valid()
      ensures key == ArrowLeft ==> request == Some(Prev(item.currentIndex, |projects|))
      ensures key == ArrowRight ==> request == Some(Next(item.currentIndex, |projects|))
      ensures key.OtherKey? ==> request == None
    {
      KeyTarget(key, item.currentIndex, |projects|)
    }

    /** The request a click on dot `k` makes; the click changes no state. */
    function DotClick(k: nat): (request: Option<nat>)
      reads this, item
      requires Valid() && k < |projects|
      ensures request.Some? <==> projects[k].image in imagesLoaded || allImagesPreloaded
      ensures request.Some? ==> request.value == k
    {
      DotClickTarget(CurrentDots(), k)
    }

    /** The pointer enters or moves over side zone `zone`. */
    method ZoneHover(zone: Side)
      requires Valid()
      modifies this
      ensures Valid() && cursorType == Some(zone)
      ensures imagesLoaded == old(imagesLoaded) && rounds == old(rounds)
      ensures allImagesPreloaded == old(allImagesPreloaded)
    {
      cursorType := Some(zone);
    }

    /** The pointer leaves a side zone. */
    method ZoneLeave()
      requires Valid()
      modifies this
      ensures Valid() && cursorType == None
      ensures imagesLoaded == old(imagesLoaded) && rounds == old(rounds)
      ensures allImagesPreloaded == old(allImagesPreloaded)
    {
      cursorType := None;
    }

    /** The follow-cursor arrow, drawn (and the system cursor hidden) while over a side zone. */
    function CursorArrow(): (r: Option<char>)
      reads this
      ensures r.Some? <==> cursorType.Some?
      ensures r == Some('‹') <==> cursorType == Some(Left)
      ensures r == Some('›') <==> cursorType == Some(Right)
    {
      match cursorType
      case None => None
      case Some(Left) => Some('‹')
      case Some(Right) => Some('›')
    }
  }

  /**
   * Because the stored end point survives a release, a plain tap after a swipe navigates again:
   * a leftward swipe on the first project requests the second, the page shows it, and a tap
   * with no qualifying move then requests the third.
   */
  method StaleEndReplay() returns (first: Option<nat>, second: Option<nat>)
    ensures first == Some(1) && second == Some(2)
  {
    CatalogShape();
    var item := new CarouselItem(Projects(), 0);
    item.TouchStart(Point(200.0, 0.0));
    item.TouchMove(Point(100.0, 0.0));
    first := item.TouchEnd();
    item.SetIndex(1);
    item.TouchStart(Point(200.0, 0.0));
    second := item.TouchEnd();
  }

  /**
   * The first successful preload of the shown project's image arms the item's 100 ms load
   * timer, which then sets `hasLoaded`.
   */
  method FirstLoadArmsTimer() returns (armed: bool, loaded: bool)
    ensures armed && loaded
  {
    CatalogShape();
    var carousel := new Carousel(Projects(), 0);
    carousel.AttemptResolved(0, 0, Loaded);
    armed := carousel.item.loadTimerPending;
    carousel.item.LoadTimerFired();
    loaded := carousel.item.hasLoaded;
  }
}
