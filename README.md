# City portal front end: the interactive components, in Dafny

The city portal is a single-page site of static civic content. Its behaviour
lives in four small UI state machines, and this project models each one with
its rendering. Each state machine is a class whose methods are the events
(button clicks, interval ticks, transition ends, pointer enter/leave, image
load errors). Each rendering is a pure function of that state and the props.

- **Service-card carousel** (`moving_cards.dfy`, module `MovingCards`). It shows
  three cards of a list and slides the next or previous three in. It keeps
  `currentIndex`, `activeCards`, `transitioningCards` and `animationState`.
  `Window` is the wrap-around window of three cards. `HandleNext` and
  `HandlePrev` move the index by three and do nothing while a slide is in
  flight. `OnAnimationEnd` promotes the incoming cards and releases the lock.
  The invariant `Carousel.Valid` says the following:
  - a non-empty list keeps an integer index;
  - a list of three or more keeps the index in range;
  - when idle, the cards on show are exactly the window at the index;
  - for three or more cards, during a slide the cards on show are the window
    the slide started from (`SlideOrigin`).
  Integer behaviour follows JavaScript. `%` truncates toward zero
  (`JsValues.Rem`, proved against Dafny's Euclidean `%`). `% 0` is NaN
  (`JsValues.NumRem`). An out-of-range array read is `undefined` (`JsValues.At`).
  This exposes two edge cases the code does not guard:
  - An empty list turns the index into NaN on the first Next
    (`EmptyListIndexIsNaN`).
  - With one or two cards, Prev adds the length only once, so the index can
    go negative. With two cards a slot then reads `undefined`
    (`FewCardsPrevGoesNegative`).
  The in-range invariant and the Next/Prev round trip are therefore proved for
  lists of three or more cards.
  The carousel's card (`GuardedView`) replaces a falsy image with a placeholder
  and tolerates a missing `listItems`.
- **Hover-reveal service card** (`card_with_hover.dfy`, module
  `CardWithHover`). `HoverCard` holds `isHovered`, which mouse-enter sets and
  mouse-leave clears. `View` renders a summary (logo, two title lines) when not
  hovered. When hovered it renders a detail view: the joined title, the
  description, then one keyed bullet per list item. This variant maps
  `listItems` without a guard, so hovering a card without a list is a
  `TypeError`. The carousel's card has the same `isHovered` state machine
  (`src/movingCards.jsx:7-14`). Only that state machine is shared with
  `HoverCard`: `HoverCard.Render` renders this file's `View`, and the carousel's
  card renders through `MovingCards.GuardedView`.
- **Front-page slideshow** (`first_page.dfy`, module `FirstPage`). One index
  over the three background images also selects the visit card. The Next
  button and the interval tick both advance it by `(i + 1) % 3`. An image that
  fails to load switches its source to a placeholder.
- **Mobile menu** (`header.dfy`, module `SiteHeader`). One flag, flipped by
  `toggleMenu`, decides two things: whether the mobile panel is rendered and
  whether the hamburger icon carries the `hidden` class.

## Model

| member | source | states |
|---|---|---|
| `JsValues.Rem` | src/movingCards.jsx:67 | JavaScript's `%` differs from the Euclidean remainder by `n` exactly when the dividend is negative and not a multiple of `n`. The result lies in `[0, n)` for a non-negative dividend and in `(-n, 0]` for a negative one |
| `CardWithHover.Bullets` | src/cardWithHover.jsx:29-31 | the mapped list has one entry per item, in order, and entry `i` carries key `key + i` and text `items[i]` |
| `CardWithHover.DetailEntries` | src/cardWithHover.jsx:27-31 | the detail list is the description paragraph followed by bullet `i` with key `i` for every item `i` |
| `CardWithHover.View` | src/cardWithHover.jsx:12-35 | the render throws exactly when hovered with `listItems` undefined. Otherwise: summary iff not hovered; the summary shows `image`, `title1` and `title2` unchanged; the detail heading is `title1`, one space, then `title2`; the detail lists the description, then every list item in order; the background is `backImage` |
| `CardWithHover.HoverCard.constructor` | src/cardWithHover.jsx:3 | a card starts not hovered |
| `CardWithHover.HoverCard.MouseEnter` | src/cardWithHover.jsx:8 | after mouse-enter the card is hovered, whatever it was before, so entering twice equals entering once |
| `CardWithHover.HoverCard.MouseLeave` | src/cardWithHover.jsx:9 | after mouse-leave the card is not hovered, whatever it was before |
| `MovingCards.GuardedView` | src/movingCards.jsx:17-43 | summary iff not hovered. A truthy `image`/`backImage` is shown as is, and a falsy one is replaced by the logo or background placeholder URL, so an image source is always present and non-empty. The detail lists the description, then each item of `listItems`, or nothing when it is missing |
| `MovingCards.GuardedViewRefinesView` | src/movingCards.jsx:17-43 | when both images are present, the carousel's card renders exactly what the plain card renders. Where the plain card throws, the carousel's card renders the heading and the description alone |
| `MovingCards.Window` | src/movingCards.jsx:62-70 | an empty list gives no cards; otherwise exactly three. Slot `i` is defined iff `start + i >= 0` or that index is a multiple of the length, and a defined slot holds `allCards[(start + i) mod len]`. A NaN start gives only undefined slots |
| `MovingCards.WindowFromValidStart` | src/movingCards.jsx:65-69 | from a start inside the list, all three slots hold cards, consecutive modulo the length |
| `MovingCards.WindowRepeats` | src/movingCards.jsx:65-69 | with fewer than three cards, slot `i` and slot `i + len` hold the same card: from any start for one card, from a non-negative start for two (`FewCardsPrevGoesNegative` shows the negative two-card start where it fails) |
| `MovingCards.NextStart` | src/movingCards.jsx:82 | the result is NaN iff the list is empty or the index is NaN. From an index of at least -3 it lies in `[0, len)` and equals `(index + 3) mod len` |
| `MovingCards.PrevStart` | src/movingCards.jsx:91-94 | NaN stays NaN. For three or more cards and an index in range, the result is in range and equals `(index - 3) mod len` |
| `MovingCards.NextStartWrapsOnce` | src/movingCards.jsx:82 | from an index within one length, Next either adds 3 or adds 3 and subtracts the length |
| `MovingCards.PrevAfterNext` | src/movingCards.jsx:82-94 | for three or more cards and an index in range, Prev after Next returns the original index |
| `MovingCards.NextAfterPrev` | src/movingCards.jsx:82-94 | for three or more cards and an index in range, Next after Prev returns the original index |
| `MovingCards.EmptyListIndexIsNaN` | src/movingCards.jsx:82 | with no cards, Next makes the index NaN and Prev leaves NaN as NaN |
| `MovingCards.FewCardsPrevGoesNegative` | src/movingCards.jsx:91-94 | with one or two cards, Prev from index 0 leaves a negative index. With two cards, the first slot of the resulting window is undefined while the third holds the second card, so the window no longer repeats |
| `MovingCards.Carousel.constructor` | src/movingCards.jsx:56-76 | the carousel mounts at index 0 with no slide in flight and no incoming cards. Once the effect has run, it shows the window at 0 (none for an empty list), and `Valid` holds |
| `MovingCards.Carousel.GetThreeCards` | src/movingCards.jsx:62-70 | the push loop builds exactly `Window(allCards, startIdx)` |
| `MovingCards.Carousel.HandleNext` | src/movingCards.jsx:79-86 | while a slide is in flight nothing changes. Otherwise the index becomes `NextStart`, the incoming cards are the window there, the animation is `{next, true}`, and the cards on show stay. `Valid` is preserved |
| `MovingCards.Carousel.HandlePrev` | src/movingCards.jsx:88-98 | while a slide is in flight nothing changes. Otherwise the index becomes `PrevStart`, the incoming cards are the window there, the animation is `{prev, true}`, and the cards on show stay. `Valid` is preserved |
| `MovingCards.Carousel.OnAnimationEnd` | src/movingCards.jsx:101-107 | during a slide, the incoming cards go on show, the incoming list empties, the animation resets to `{null, false}` and the index stays. Outside a slide nothing changes. `Valid` is preserved |
| `MovingCards.Carousel.Slot` | src/movingCards.jsx:110-158 | slot `k` renders the `k`-th card on show and the `k`-th incoming card. Under `Valid` nothing is incoming when idle, and during a slide the incoming card is slot `k` of the window at the index. For three or more cards, the card values are stated by `SlotsShowWindow` |
| `MovingCards.SlotsShowWindow` | src/movingCards.jsx:110-112 | for three or more cards, slot `k` holds card `(index + k) mod len`: on show with nothing incoming when idle. During a slide that card is the incoming one, and the card on show is card `(origin + k) mod len` of the window the slide started from |
| `MovingCards.TwoCardsLockWithEmptySlotZero` | src/movingCards.jsx:88-135 | with two cards, Prev from index 0 and its transition end leave slot 0 with no card on show. The next Next then sets the lock while slot 0 still has no card |
| `MovingCards.NextThenPrev` | src/movingCards.jsx:79-107 | for three or more cards, an idle carousel goes through Next, transition end, Prev, transition end and returns to exactly its starting state |
| `MovingCards.PrevThenNext` | src/movingCards.jsx:79-107 | the same round trip in the opposite order also restores the starting state |
| `FirstPage.Advance` | src/App.jsx:113-115 | the index steps to the next image, the last image wraps to 0, and the result is always a valid image index |
| `FirstPage.AdvanceTimesIsShift` | src/App.jsx:106-115 | `k` advances from a valid index land on `(index + k) mod 3` |
| `FirstPage.FullRoundReturns` | src/App.jsx:106-115 | three advances return to the start, and every index is reached from every other within one round |
| `FirstPage.RenderPage` | src/App.jsx:122-145 | one image per source, each keeping its source, and the visit card `cardsData[currentIndex]` (the precondition is the in-bounds read) |
| `FirstPage.ExactlyOneVisible` | src/App.jsx:122-125 | the image at the index is visible, and no other image is |
| `FirstPage.Page.constructor` | src/App.jsx:103 | the page starts at index 0 with every image at its own URL |
| `FirstPage.Page.HandleNext` | src/App.jsx:113-115 | the button advances the index and leaves the images alone. `Valid` keeps the index inside both three-entry lists |
| `FirstPage.Page.Tick` | src/App.jsx:106-108 | an interval tick makes the same advance as the button |
| `FirstPage.Page.OnImageError` | src/App.jsx:128 | the failing image's source becomes the error placeholder, the other images and the index are unchanged, and `Valid` is preserved |
| `SiteHeader.RenderHeader` | src/Header.jsx:40-68 | the mobile panel is rendered iff the menu is open and then lists the nine links in order. The hamburger icon has the `hidden` class iff the menu is open and always keeps its size classes |
| `SiteHeader.Header.constructor` | src/Header.jsx:4 | the menu starts closed |
| `SiteHeader.Header.ToggleMenu` | src/Header.jsx:6-8 | toggling negates `isMenuOpen` |
| `SiteHeader.Header.SelectMenuItem` | src/Header.jsx:51-59 | clicking any link of the open panel closes the menu |
| `SiteHeader.Header.PressClose` | src/Header.jsx:61 | the close button of the open panel closes the menu |
| `SiteHeader.ToggleTwice` | src/Header.jsx:6-8 | two toggles restore the menu state and the rendered header |

## Left out

- Timing is not modelled. That covers the five-second interval, its
  re-subscription whenever the index changes, and its cleanup
  (`src/App.jsx:105-111`). Each firing is the explicit call `Page.Tick`.
- The slot-0 `onTransitionEnd` wiring is not modelled
  (`src/movingCards.jsx:135`). It is the explicit call
  `Carousel.OnAnimationEnd`. In the page, the transition end fires only when
  slot 0 has a card on show. With an empty list there is none, so the lock set
  by the first Next is never released. The same freezes a two-card carousel:
  after Prev from index 0 and its transition end, slot 0 shows no card, so the
  lock set by the next slide is never released
  (`TwoCardsLockWithEmptySlotZero`). The model's `OnAnimationEnd` still
  releases it when called.
- CSS classes of the carousel slots, fades, blur and scaling are left out.
  They are styling with no state.
- React batching is not modelled. Each event is modelled against the state
  left by the previous one, as after a re-render. Several clicks handled
  within one render are not modelled.
- The counters and visibility/media-query hooks are left out. They rely on
  animation frames, floating-point interpolation, IntersectionObserver and
  matchMedia. This covers `useCounter`, `useOnScreen` and `useMediaQuery`.
- The charts, news pages, footer, visit card and other static sections are
  markup over fixed data with no logic.
- `src/DropdownWithDescription.jsx` is never rendered and does not import
  `useState`, so it is left out. It would duplicate the hover toggle.
- `src/pure_functions.js` has no coherent behaviour to model, so it is left
  out.
- The service-card records are not modelled as constants
  (`src/movingCards.jsx:189-331`). The carousel is modelled for any card list.
- The hover card's markup classes and alt texts are not modelled. In
  `CardWithHover.View` an undefined `backImage` is rendered by React as an
  `<img>` with no source. An undefined `image` becomes the CSS string
  `url(undefined)`. The model keeps both as `None`.
- `MovingCards.SlotsShowWindow`: for one or two cards the slot contents are
  not stated. Prev and Next do not undo each other there, so the window on
  show during a slide is not determined by the index.
