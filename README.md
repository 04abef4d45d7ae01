# Romero Architects home page — a Dafny model

This project models the interactive core of the Romero Architects marketing site, a Next.js
application. The home page (`src/app/page.tsx`) shows a full-screen project carousel, a top
navigation bar with a gallery button and a contact menu (`CardNav`), and a gallery overlay that
lists every project (`ProjectGallery`). The model also covers the unmounted `Navbar` and the
sitemap builder.

The model works as follows.

- Every React component whose state changes becomes a Dafny `class`:
  - `Page.Home`
  - `CarouselComponent.Carousel`
  - `CarouselComponent.CarouselItem`
  - `CardNavComponent.CardNav`
  - `NavbarComponent.Navbar`
- Each `useState` becomes a field, and each event handler becomes a method.
- A `useEffect` with dependencies becomes a method that the parent calls when it re-renders the
  child with new props. The values of the dependencies at the last run are kept in fields
  (`seenExternal`, `seenImagePreloaded`, `seenAllPreloaded`), so the effect body runs only when
  a dependency changed.
- A `setTimeout` becomes a field holding the pending callback, and the timer firing is a method
  call. A cleanup that clears the timer overwrites or clears that field.
- A callback that a child calls on its parent is an out-parameter of the child's method, and
  the `Page.Home` method applies it. For `setCurrentIndex(k)` the out-parameter is an
  `Option<nat>` request. For `onGalleryOpen(v)` it is the reported `bool`.
- Image preloading becomes explicit events. A preload "round" starts each time the effect runs.
  Each project's attempt in a round later resolves with `Loaded`, `Failed` or `NoWindow`.
  `allImagesPreloaded` holds exactly when some round has resolved every attempt, which is when
  that round's `Promise.all` settles.
- The effect depends on `projects`, and the page builds a new catalog array on every render. So
  every page re-render with a changed state starts a new round.
- Touch and scroll coordinates are `real`, and the model compares exact differences. The
  source computes `end.x - start.x` in doubles, which rounds, so the model can differ from the
  source right at the `> 10` and `> 50` thresholds (see "## Left out").

Module layout, one module per source file:

| module | file | models |
|---|---|---|
| `Wrappers` | `wrappers.dfy` | `Option` |
| `Counting` | `counting.dfy` | the number of flagged positions of a sequence, shared by the dots and the gallery marker |
| `Decimal` | `decimal.dfy` | JavaScript's decimal rendering of a non-negative integer in template strings |
| `Catalog` | `catalog.dfy` | the 11 project records and the contact items declared in `page.tsx` |
| `CarouselRules` | `carousel_rules.dfy` | the pure rules of `Carousel.tsx`: cyclic next/previous, the swipe thresholds, the preview index, key, zone and dot targets |
| `CarouselComponent` | `carousel.dfy` | the `CarouselItem` and `Carousel` components as classes |
| `ProjectGallery` | `gallery.dfy` | the gallery overlay as a pure function of its props |
| `CardNavComponent` | `cardnav.dfy` | the `CardNav` component |
| `NavbarComponent` | `navbar.dfy` | the `Navbar` component |
| `Sitemap` | `sitemap.dfy` | the `sitemap()` builder |
| `Page` | `page.dfy` | the `Home` page, wiring the components together |

## Model

| member | source | states |
|---|---|---|
| Decimal.Dec | src/app/sitemap.ts:37 | the rendering of `n` in `${n}` is a non-empty string of decimal digits, one digit long exactly when `n < 10` |
| Decimal.DecInjective | src/app/sitemap.ts:37 | distinct numbers render to distinct strings |
| Decimal.DecOneToEleven | src/app/page.tsx:19-119 | the renderings of 1 to 11 are "1" … "11" |
| Catalog.Projects | src/app/page.tsx:19-119 | the page declares exactly 11 project records |
| Catalog.CatalogShape | src/app/page.tsx:19-119 | the catalog has 11 records; record `k` has link `/project-(k+1)` and image `/projects/(k+1).jpeg` |
| Catalog.CatalogTitlesDistinct | src/app/page.tsx:19-119 | no two catalog records share a title, so a title change is exactly a project change |
| Catalog.ContactItems | src/app/page.tsx:121-144 | one contact card with three links, ordered by label as the sort leaves them (Email, Facebook, Instagram) |
| CarouselRules.Next | src/components/Carousel/Carousel.tsx:476-478 | `goToNext`'s target `(i+1) % N` is below `N`; it is `i+1` unless `i` is the last index, where it wraps to 0 |
| CarouselRules.Prev | src/components/Carousel/Carousel.tsx:480-482 | `goToPrev`'s target `(i-1+N) % N` is below `N`; it is `i-1` for `i >= 1` and wraps to `N-1` from 0 |
| CarouselRules.PrevAfterNext | src/components/Carousel/Carousel.tsx:476-482 | going back after going forward returns to `i` |
| CarouselRules.NextAfterPrev | src/components/Carousel/Carousel.tsx:476-482 | going forward after going back returns to `i` |
| CarouselRules.SingleProjectIsFixed | src/components/Carousel/Carousel.tsx:476-482 | with one project both directions stay on it |
| CarouselRules.Advance | src/components/Carousel/Carousel.tsx:476-478 | `k` successive forward steps stay in range |
| CarouselRules.AdvanceShifts | src/components/Carousel/Carousel.tsx:476-478 | `k <= N` forward steps from `i` land on `i+k`, minus `N` when that passes the end |
| CarouselRules.AdvanceFullCycle | src/components/Carousel/Carousel.tsx:476-478 | `N` forward steps return to the start |
| CarouselRules.DirectionOf | src/components/Carousel/Carousel.tsx:142 | the swipe direction is left exactly when `dx < 0` |
| CarouselRules.ReleaseTarget | src/components/Carousel/Carousel.tsx:146-168 | a release navigates exactly when both stored points exist, `abs(dx) > abs(dy)` and `abs(dx) > 50`; a leftward swipe goes to the next project and any other to the previous one |
| CarouselRules.PreviewIndex | src/components/Carousel/Carousel.tsx:385-391 | the preview of a left swipe is the next project and that of a right swipe the previous one |
| CarouselRules.CommitImpliesMove | src/components/Carousel/Carousel.tsx:136 | a displacement that commits on release also qualifies as a tracked move; so the end point a committing release reads can be one that `touchmove` stored, and the preview was shown for that swipe |
| CarouselRules.PreviewMatchesCommit | src/components/Carousel/Carousel.tsx:385-391 | the preview shows the project that the release commits to |
| CarouselRules.ExactThresholdDoesNotCommit | src/components/Carousel/Carousel.tsx:159-161 | a displacement of exactly 50 does not navigate and one of 50.5 does, since the threshold is strict |
| CarouselRules.Preview | src/components/Carousel/Carousel.tsx:384-400 | the preview image and alt text are the neighbour's, falling back to the shown project's when they are empty |
| CarouselRules.KeyTarget | src/components/Carousel/Carousel.tsx:522-528 | ArrowLeft goes to the previous project, ArrowRight to the next, any other key nowhere |
| CarouselRules.ZoneClickTarget | src/components/Carousel/Carousel.tsx:295-322 | a zone click navigates exactly when its target is not inside a button: the left zone to the previous project, the right zone to the next |
| CarouselRules.Dots | src/components/Carousel/Carousel.tsx:550-566 | one dot per project; dot `k` is active iff `k == currentIndex`, shown as loaded iff its image is loaded, disabled iff not loaded and not all preloaded, labelled "Go to project k+1" |
| CarouselRules.OneActiveDot | src/components/Carousel/Carousel.tsx:554 | exactly one dot is active |
| Counting.CountIsOneAt | src/components/Carousel/Carousel.tsx:554 | a sequence flagged exactly at position `c` has one flagged position if `c` is in range and none otherwise |
| CarouselRules.NoDotDisabledAfterPreload | src/components/Carousel/Carousel.tsx:564-566 | once all images are preloaded no dot is disabled |
| CarouselRules.DotClickTarget | src/components/Carousel/Carousel.tsx:562-566 | a dot click navigates to `k` exactly when the dot is enabled |
| CarouselRules.ImageKeys | src/components/Carousel/Carousel.tsx:487-492 | the possible image keys are exactly the catalog's images |
| CarouselComponent.CarouselItem.constructor | src/components/Carousel/Carousel.tsx:66-107 | initial state after the mount effects: both projects are the focal one, a transition is running with image key 1 and a pending swap, nothing is loaded, no touch is stored |
| CarouselComponent.CarouselItem.SetIndex | src/components/Carousel/Carousel.tsx:88-107 | a new title starts a transition: the previous project becomes the displayed one, the image key grows by exactly 1, and the pending swap is replaced by one for the new project; the same title changes nothing (together, `TransitionFollowed`) |
| CarouselComponent.CarouselItem.SwapTimerFired | src/components/Carousel/Carousel.tsx:97-102 | the pending swap displays its project and ends the transition; the displayed title is then the current project's |
| CarouselComponent.CarouselItem.LoadPropsChanged | src/components/Carousel/Carousel.tsx:80-85 | when a load prop changes, the 100 ms timer is pending exactly when either prop holds; otherwise nothing changes |
| CarouselComponent.CarouselItem.LoadTimerFired | src/components/Carousel/Carousel.tsx:82 | a pending load timer sets `hasLoaded` |
| CarouselComponent.CarouselItem.TouchStart | src/components/Carousel/Carousel.tsx:120-124 | stores the start point and activates the swipe; the stored end point stays |
| CarouselComponent.CarouselItem.TouchMove | src/components/Carousel/Carousel.tsx:125-145 | during an active swipe, a move with `abs(dx) > abs(dy)` and `abs(dx) > 10` stores the end point, the direction and a positive offset; any other move changes nothing |
| CarouselComponent.CarouselItem.TouchEnd | src/components/Carousel/Carousel.tsx:146-168 | resets the swipe state, keeps both stored points, and requests `ReleaseTarget` of them |
| CarouselComponent.CarouselItem.ZoneClick | src/components/Carousel/Carousel.tsx:295-322 | changes no state; a click inside a button requests nothing, otherwise the left zone requests the previous project and the right zone the next |
| CarouselComponent.CarouselItem.PreviewShown | src/components/Carousel/Carousel.tsx:374-409 | the preview layer is drawn exactly while the swipe is active with a direction and a positive offset, and shows `Preview` of that direction |
| CarouselComponent.StaleEndReplay | src/components/Carousel/Carousel.tsx:143-154 | after a leftward swipe from the first project, a tap without a qualifying move navigates again, from the second project to the third |
| CarouselComponent.FirstLoadArmsTimer | src/components/Carousel/Carousel.tsx:80-85 | right after mounting, a successful preload of the shown image arms the load timer, and its firing sets `hasLoaded` |
| CarouselComponent.Carousel.constructor | src/components/Carousel/Carousel.tsx:467-518 | on mount nothing is loaded, one preload round has started, no cursor is shown, and the item is in its mount state (`Initial`: a first transition to the shown project, nothing loaded, no touch stored) |
| CarouselComponent.Carousel.StartPreload | src/components/Carousel/Carousel.tsx:485-518 | a re-run of the preload effect adds an empty round and keeps the loaded set and the flag |
| CarouselComponent.Carousel.AttemptResolved | src/components/Carousel/Carousel.tsx:489-513 | only a successful load adds the project's image key; the flag becomes true once every attempt of a round has resolved, failures included; each attempt resolves once; the item receives the new load props, and its 100 ms load timer is re-armed exactly when a load prop changed and one of them holds |
| CarouselComponent.Carousel.IndexChanged | src/components/Carousel/Carousel.tsx:536-546 | the item receives the new index and runs its transition exactly when the title changes; its load timer follows the new `imagePreloaded` as in `LoadPropsChanged`; the loaded set, the flag and the cursor stay (`FollowedIndex`) |
| CarouselComponent.Carousel.IndexRerender | src/components/Carousel/Carousel.tsx:485-546 | a page re-render with a new index: the item follows the index as in `IndexChanged`, one more preload round starts, and nothing loaded or preloaded is lost |
| CarouselComponent.Carousel.CurrentDots | src/components/Carousel/Carousel.tsx:550-568 | one dot per project |
| CarouselComponent.Carousel.KeyDown | src/components/Carousel/Carousel.tsx:521-532 | changes no state; ArrowLeft requests the previous project, ArrowRight the next, any other key nothing |
| CarouselComponent.Carousel.DotClick | src/components/Carousel/Carousel.tsx:562-566 | changes no state; requests index `k` exactly when its image is loaded or all images are preloaded, and no other index |
| CarouselComponent.Carousel.ZoneHover | src/components/Carousel/Carousel.tsx:290-294 | the cursor shows the zone's arrow; the invariant and the preload state stay |
| CarouselComponent.Carousel.ZoneLeave | src/components/Carousel/Carousel.tsx:291 | the cursor arrow disappears; the invariant and the preload state stay |
| CarouselComponent.Carousel.CursorArrow | src/components/Carousel/Carousel.tsx:327-342 | an arrow is drawn exactly while the cursor has a zone: ‹ exactly for the left zone and › exactly for the right zone |
| ProjectGallery.Render | src/components/ProjectGallery/ProjectGallery.tsx:30-115 | nothing is rendered unless the gallery is open; then there is one entry per project in catalog order, showing its image, title, category and subcategory, clicking entry `k` reports `k`, and entry `k` is marked iff `k == currentIndex` |
| ProjectGallery.OneMarker | src/components/ProjectGallery/ProjectGallery.tsx:104-106 | an open gallery marks exactly one entry when `0 <= currentIndex < N` and none otherwise |
| ProjectGallery.NeverCloses | src/components/ProjectGallery/ProjectGallery.tsx:26 | no rendered entry calls `onClose` |
| CardNavComponent.MenuAriaLabel | src/components/CardNav/CardNav.tsx:114 | the buttons' aria-label is "Close menu" iff the menu is expanded, "Open menu" otherwise |
| CardNavComponent.CardLinks | src/components/CardNav/CardNav.tsx:191-203 | the card lists the links in order, each with its href, aria-label and label |
| CardNavComponent.Overlay | src/components/CardNav/CardNav.tsx:158-211 | the overlay exists only while expanded, and its card only when `items[0]` exists, headed by its label and listing its links |
| CardNavComponent.CardNav.constructor | src/components/CardNav/CardNav.tsx:49-64 | both menu flags start false, and the local gallery flag has synced with the prop |
| CardNavComponent.CardNav.ToggleMenu | src/components/CardNav/CardNav.tsx:54-57 | flips both menu flags and leaves the gallery flag alone |
| CardNavComponent.CardNav.ToggleGallery | src/components/CardNav/CardNav.tsx:66-70 | flips the gallery flag, reports exactly the new value and leaves the menu flags alone |
| CardNavComponent.CardNav.ExternalGalleryProp | src/components/CardNav/CardNav.tsx:62-64 | when the prop changes, the local gallery flag becomes equal to it; otherwise nothing changes |
| CardNavComponent.CardNav.OverlayClick | src/components/CardNav/CardNav.tsx:167-177 | a backdrop click closes the overlay without touching the hamburger flag, and a click on the card keeps it open |
| CardNavComponent.CardNav.CurrentOverlay | src/components/CardNav/CardNav.tsx:159 | the overlay is shown exactly while expanded |
| CardNavComponent.MenuDesync | src/components/CardNav/CardNav.tsx:167 | opening the menu and clicking the backdrop leaves the hamburger open and the overlay closed |
| CardNavComponent.SiteContactCard | src/app/page.tsx:121-144 | the site's contact card is headed "Contact" and lists Email, Facebook and Instagram with their hrefs and aria-labels |
| NavbarComponent.NavItems | src/components/Navbar/Navbar.tsx:23-29 | five links with pairwise distinct anchors |
| NavbarComponent.NavItemsShape | src/components/Navbar/Navbar.tsx:23-29 | five items, each linking to `#` followed by its lower-cased name |
| NavbarComponent.Navbar.constructor | src/components/Navbar/Navbar.tsx:8-9 | starts closed and not scrolled |
| NavbarComponent.Navbar.MenuButtonClick | src/components/Navbar/Navbar.tsx:204 | flips `isOpen` |
| NavbarComponent.Navbar.MobileLinkClick | src/components/Navbar/Navbar.tsx:258 | closes the menu |
| NavbarComponent.Navbar.Scroll | src/components/Navbar/Navbar.tsx:13-16 | after a scroll event, `scrolled` holds iff `scrollY > 20` |
| NavbarComponent.Navbar.MobileMenu | src/components/Navbar/Navbar.tsx:240-270 | the mobile menu is rendered exactly while open and lists all nav items |
| Sitemap.SitemapShape | src/app/sitemap.ts:3-47 | 12 entries: the base URL with priority 1, then `/project-k` for k = 1..11 with priority 0.7, all monthly |
| Sitemap.UrlsDistinctUnderBase | src/app/sitemap.ts:36-41 | every URL starts with the base URL, and the project URLs are pairwise distinct |
| Sitemap.UrlsFollowCatalog | src/app/sitemap.ts:35-37 | the project URLs are the base URL followed by each catalog record's link |
| Sitemap.SitemapFor | src/app/sitemap.ts:3-47 | the sitemap for a base URL has 12 entries and starts with the home page: the base URL, monthly, priority 1 |
| Sitemap.Sitemap | src/app/sitemap.ts:3-47 | the published sitemap has 12 entries and starts with `https://romeroarchitects.com` at priority 1 |
| Page.Home.constructor | src/app/page.tsx:146-155 | initial state: gallery closed, index 0, carousel not shown and its mount timer pending, contact menu closed |
| Page.Home.CarouselOpacity | src/app/page.tsx:188-189 | the carousel layer's target opacity is 1 iff the carousel is shown and the gallery closed, 0 otherwise |
| Page.Home.Gallery | src/app/page.tsx:206-215 | the gallery overlay is rendered exactly while `isProjectGalleryOpen` |
| Page.Home.MountTimerFired | src/app/page.tsx:151-155 | the timer shows the carousel for good; a first firing mounts a fresh carousel at the current index with nothing loaded, the flag false, no cursor, one preload round and its item in the mount state; a later firing changes nothing; the contact-menu flags stay |
| Page.Home.SetCurrentIndex | src/app/page.tsx:196-201 | sets the index; a new value re-renders: the item follows the index (a new title starts its transition, the load timer follows the load props) and one preload round starts; the same value changes nothing; the loaded set, the flag and the cursor stay, as do the swipe state, the gallery flags and the contact-menu flags |
| Page.Home.Apply | src/app/page.tsx:200 | applies a carousel's navigation request, if any, with the effects of `SetCurrentIndex` (`IndexFollowed`); the loaded set, the flag and the cursor stay, as do the swipe state, the gallery flags and the contact-menu flags |
| Page.Home.HandleGalleryToggle | src/app/page.tsx:157-160 | both gallery flags take the value, the index stays, and the navigation bar's flag syncs; a change starts one preload round; the loaded set, the flag and the cursor stay and the item is unchanged |
| Page.Home.HandleProjectClick | src/app/page.tsx:162-166 | index `k` with both gallery flags false, whatever the prior state; the item follows the new index; one round starts for a new index and one for closing an open gallery; the loaded set, the flag and the cursor stay, as do the swipe state and the contact-menu flags |
| Page.Home.CloseGallery | src/app/page.tsx:209-212 | both gallery flags false, index and contact-menu flags unchanged; closing an open gallery starts one preload round; the loaded set, the flag and the cursor stay and the item is unchanged |
| Page.Home.GalleryButtonClick | src/app/page.tsx:182-183 | the gallery button flips both page flags together, through the value the bar reports, and starts one preload round; the loaded set, the flag and the cursor stay and the item is unchanged |
| Page.Home.MenuButtonClick | src/components/CardNav/CardNav.tsx:126 | the contact-menu button flips the bar's two menu flags; the page state, the gallery flags and the carousel stay unchanged |
| Page.Home.ContactOverlayClick | src/components/CardNav/CardNav.tsx:167-177 | a backdrop click closes the overlay and a card click keeps it; the hamburger flag, the page state, the gallery flags and the carousel stay unchanged |
| Page.Home.GalleryEntryClick | src/app/page.tsx:206-215 | in an open gallery, clicking entry `k` shows project `k` and closes the gallery, with the carousel following as in `HandleProjectClick`; with the gallery closed nothing of the page or the carousel changes; the contact-menu flags stay |
| Page.Home.KeyDown | src/components/Carousel/Carousel.tsx:521-532 | once mounted, a key press moves the index to `KeyTarget`, with the carousel following as in `Apply`; the loaded set, the flag and the cursor stay, as do the gallery and contact-menu flags |
| Page.Home.ZoneClick | src/components/Carousel/Carousel.tsx:295-322 | once mounted, a zone click moves the index to `ZoneClickTarget`, with the carousel following as in `Apply`; the loaded set, the flag and the cursor stay, as do the gallery and contact-menu flags |
| Page.Home.DotClick | src/components/Carousel/Carousel.tsx:562-566 | an enabled dot moves the index to `k`, with the carousel following as in `Apply`; a disabled one changes nothing; the loaded set, the flag and the cursor stay, as do the gallery and contact-menu flags |
| Page.Home.TouchStart | src/components/Carousel/Carousel.tsx:120-124 | once mounted, the touch start is stored and the swipe activated, and the stored end point, direction and offset stay; the transition, the load state, the preload rounds, the loaded set, the flag and the cursor stay; the index and all flags stay |
| Page.Home.TouchMove | src/components/Carousel/Carousel.tsx:125-145 | a move never changes the index or the flags; once mounted, a qualifying move during an active swipe stores the end point, the direction and a positive offset, and any other move keeps the swipe state; the transition, the load state, the preload rounds, the loaded set, the flag and the cursor stay |
| Page.Home.TouchEnd | src/components/Carousel/Carousel.tsx:146-168 | once mounted, a release resets the swipe, keeps both stored points, and moves the index to `ReleaseTarget` of the stored points, with the carousel following as in `Apply`; the loaded set, the flag and the cursor stay, as do the gallery and contact-menu flags |
| Page.Home.AttemptResolved | src/components/Carousel/Carousel.tsx:489-513 | an outcome for a pending attempt marks it resolved, adds the image to the loaded set exactly when it loaded, sets the flag when its round completes, and re-arms the item's load timer as in `LoadPropsChanged`; any other outcome changes nothing; the index, the gallery flags and the contact-menu flags never change |
| Page.Home.SwapTimerFired | src/components/Carousel/Carousel.tsx:97-102 | after the swap the carousel displays the current project's title and the transition has ended; the image key, the load and swipe state, the preload rounds, the loaded set, the flag and the cursor stay; the index and all flags stay |
| Page.Home.LoadTimerFired | src/components/Carousel/Carousel.tsx:82 | a pending load timer sets `hasLoaded`, which never reverts, and no timer is left pending; the transition, the swipe state, the preload rounds, the loaded set, the flag and the cursor stay; the index and all flags stay |
| Page.PageSwipe | src/components/Carousel/Carousel.tsx:120-168 | on the mounted page, a leftward swipe from the first project navigates to the second, and a plain tap afterwards replays the stale end point and navigates to the third |
| Page.MenuSurvivesGallery | src/components/CardNav/CardNav.tsx:54-70 | a contact menu opened before the gallery stays open through opening the gallery, picking entry 3, the text swap and a preload outcome |
| Page.PreloadSurvivesGallery | src/components/Carousel/Carousel.tsx:80-85 | on the mounted page, the first image's load arms the load timer, which sets `hasLoaded`; the loaded image and `hasLoaded` survive opening the gallery, picking project 4 and the text swap, which ends the transition |
| Page.ElevenProjectWalkthrough | src/app/page.tsx:146-215 | three right arrows reach index 3; picking entry 7 in the gallery shows project 7 and closes it; from project 0 the left arrow wraps to 10 |

Every method of `Page.Home` keeps the page invariant `Valid()`:

- the two gallery flags are equal;
- the navigation bar's gallery flag and its last seen prop match them;
- the carousel is mounted exactly when `showCarousel` holds, which is exactly when the mount
  timer has fired;
- the carousel's item shows `currentIndex`.

Every method except `MountTimerFired` also keeps `showCarousel` and the carousel itself. The
catalog is a constant that the constructor sets to `Projects()`.

## Left out

- Animation configuration is not modelled: framer-motion durations, easing curves, scale, blur, y-offsets and stagger delays are float rendering parameters.
- Floating-point rounding of the touch differences is not modelled. The source subtracts doubles (`t.clientX - start.x`, `end.x - start.x`), and the model subtracts reals. A true difference just above 50 (or 10) can round to exactly 50 (or 10) in the source, which then does not navigate (or track the move); the model does.
- Swipe offset normalisation and preview opacity are not modelled (`window.innerWidth * 0.3`, `Math.min(swipeOffset * 1.5, 1)`). Only the positive offset matters, so the model assumes the window is wider than zero.
- Timers and wall-clock time are events: a "fired" method and a pending-timer field. `new Date()` in the sitemap, `lastModified`, is dropped.
- Image loading and `Promise.all` are explicit resolution events. The caller chooses the order in which the attempts resolve, which stands in for concurrency. Each attempt resolves at most once, because an `Image` fires `onload` or `onerror` once; `CarouselComponent.Carousel.AttemptResolved` requires this.
- The cursor's x/y position is not modelled; only the zone it is over is.
- The `galleryHeight` measurement from `scrollHeight` in `CardNav` is not modelled: it is a DOM measurement.
- The `localeCompare` sort of the contact links is not modelled: it is a locale-dependent library call. The model takes its result, Email, Facebook, Instagram, as given.
- `console.log` and `console.warn` are not modelled.
- The commented-out Read More button is not part of the model.
- `src/app/layout.tsx` and `tailwind.config.ts` are not part of this model: they hold no logic. This is also why `Navbar` is modelled as a component on its own, not as part of the page, which does not render it.
- Hit-testing of stacked layers is not modelled. Each event is delivered to the component the method names, for example a gallery entry click while the gallery is open.
- Unmounting is not modelled: the page never unmounts, so cleanups that run only on unmount (window listeners, the mount timer) do not matter.
- The carousel's `isGalleryOpen` prop is not modelled: `Carousel` receives it but never reads it.
- The gallery receives `onClose` but never calls it; `Page.Home.CloseGallery` models the callback the page passes, and `ProjectGallery.NeverCloses` states that no entry reaches it.
- React batching is not modelled. `Page.Home.HandleProjectClick` updates the index and then the flags, starting one preload round for each change where React renders once. The extra empty round changes nothing observable, because the flag becomes true when any round completes.
- Page.Home.AttemptResolved: the model drops an outcome addressed to a round that never started, to a project index out of range, or to an attempt that has already resolved. The source cannot produce such an outcome.
