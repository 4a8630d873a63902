# Portfolio page view controller, in Dafny

This project models the page-level view controller of a single-page personal
portfolio site (`src/components/portfolio.jsx`). The controller decides:

- which navigation item is highlighted as the page scrolls;
- when the navigation bar takes its elevated style;
- how the intro splash screen passes through its phases and hands over to the page;
- how the theme and the mobile menu toggle;
- how the page moves between the portfolio view and a project's demo view.

Files:

- `wrappers.dfy`: the `Option` type. A DOM lookup that finds no element is `None`.
- `section_tracking.dfy` (module `SectionTracking`): the five sections in document
  order, the viewport geometry and section offsets a scroll handler reads, and the
  pure classification of a scroll position (`ScrollTarget`). `LastQualifyingIndex`
  is its backward scan, specified by what "the last section whose top has been
  passed" means.
- `intro.dfy` (module `Intro`): the splash screen as a class. It holds a phase and
  a queue of the three one-shot timers it schedules on mount (1200, 2800 and
  3600 ms). The host fires them one at a time, in order.
- `portfolio.dfy` (module `PortfolioPage`): the `Portfolio` class. It has the six
  state fields of `Portfolio()`, plus two fields for the document effects the
  component keeps in step with them: the root element's `dark` class and the
  body's scroll lock. It has one method per listener and user intent, and a
  dispatcher (`Dispatch`, `DispatchAll`) for the events that leave the view mode
  alone. Client methods at the end state the round trips: theme twice, menu
  twice, demo and back, a full intro timeline with any such events in between,
  and a demo opened during the intro.

The splash screen is rendered only inside the portfolio view, so it is mounted
exactly while the intro is shown and no demo is selected. Opening a demo during
the intro unmounts it, and its cleanup clears the pending timers. The intro
stays shown and the scroll lock stays on. Going back mounts a new splash screen
at `enter`, with its timers counted from that moment.

The two scroll listeners are one method, `OnScroll`:

- The elevation listener is always registered.
- The section listener is registered only while no demo is shown.

A scroll the controller asks the host to perform (`scrollIntoView`,
`window.scrollTo(0, 0)`) is returned as a `ScrollRequest`. The scroll event that
follows it is a separate `OnScroll` call.

In four places the code behaves differently from what one might expect; the model follows the code:

- Scroll events in the demo view still update the navigation elevation. Only
  section tracking is suspended.
- When no section qualifies, the highlighted section stays as it was. It does
  not fall back to the first section.
- A navigation click closes the mobile menu only when the target section's
  element exists.
- Leaving the demo view reclassifies the current scroll position at once,
  because the section effect runs `handleScroll()` when it is re-registered.

## Model

| member | source | states |
|---|---|---|
| `SectionTracking.Index` | src/components/portfolio.jsx:217 | every section has a position in the fixed order home, about, skills, projects, contact, and that position holds it |
| `SectionTracking.LastQualifyingIndex` | src/components/portfolio.jsx:226-233 | the backward scan over the first n sections returns the one whose element exists with offsetTop at most the position, with no such section after it; None exactly when no section qualifies |
| `SectionTracking.ScrollTarget` | src/components/portfolio.jsx:216-234 | at the page bottom (innerHeight + scrollY >= scrollHeight - 50) the result is Contact; otherwise it is a section passed at scrollY + 150 with no passed section after it, and None exactly when no section is passed |
| `SectionTracking.ScrollTargetIsLastQualifying` | src/components/portfolio.jsx:226-233 | away from the bottom, a section is selected if and only if it is passed and no later section is passed |
| `SectionTracking.BottomOverridesOffsets` | src/components/portfolio.jsx:219-224 | at the page bottom the highlight becomes Contact whatever the section offsets and the previous highlight |
| `SectionTracking.NoQualifyingSectionKeepsCurrent` | src/components/portfolio.jsx:226-233 | away from the bottom, when no section is passed, the highlight is left unchanged |
| `SectionTracking.LastQualifyingMonotone` | src/components/portfolio.jsx:226-233 | a larger scan position never selects an earlier section |
| `SectionTracking.ScrollTargetMonotone` | src/components/portfolio.jsx:216-234 | on a page of fixed height, scrolling further down never moves the highlight to an earlier section |
| `SectionTracking.LoadSelectsHome` | src/components/portfolio.jsx:216-236 | at scroll position 0, with home at offset 0 and no other section passed, the classification run on mount selects home |
| `SectionTracking.MidPageSelectsProjects` | src/components/portfolio.jsx:216-234 | at scroll position 1600, with projects at 1500 and contact at 2200, projects is selected |
| `Intro.FiredBy` | src/components/portfolio.jsx:111-114 | t ms after mounting, exactly the timers whose delay is at most t have fired |
| `Intro.PhaseAfterSchedule` | src/components/portfolio.jsx:109-114 | after 0, 1, 2 and 3 timers the phase is enter, reveal, exit and exit |
| `Intro.PhaseTimeline` | src/components/portfolio.jsx:109-114 | the phase is enter before 1200 ms, reveal from 1200 to 2800 ms and exit from 2800 ms on; completion has fired if and only if t >= 3600 |
| `Intro.PhaseMonotone` | src/components/portfolio.jsx:109-114 | the phase never goes back, and completion once reached stays reached |
| `Intro.IntroScreen.constructor` | src/components/portfolio.jsx:108-116 | a mounted splash screen starts in phase enter with the three timers pending at clock 0 |
| `Intro.IntroScreen.Unmount` | src/components/portfolio.jsx:115 | the cleanup clears every pending timer and leaves the phase and clock alone |
| `Intro.IntroScreen.Fire` | src/components/portfolio.jsx:111-114 | firing the earliest pending timer removes it from the queue, moves the clock to its delay, sets the phase to the phase at that time without going back, and reports completion exactly for the last timer |
| `PortfolioPage.Portfolio.constructor` | src/components/portfolio.jsx:171-239 | mounting gives menu closed, no demo, intro shown, nav not elevated, dark theme, root `dark` class on, scroll lock on, a mounted splash screen at enter with all three timers pending, and the highlight from the mount-time classification starting at home |
| `PortfolioPage.Portfolio.HandleScroll` | src/components/portfolio.jsx:216-234 | the JavaScript loop (bottom override, then a backward scan with early break) sets the highlight to the classification's result, or leaves it unchanged when there is none; no other field changes |
| `PortfolioPage.Portfolio.OnScroll` | src/components/portfolio.jsx:202-239 | after any scroll event navScrolled equals scrollY > 20 in both views; the highlight is reclassified only in the portfolio view; no other field changes |
| `PortfolioPage.Portfolio.ScrollToSection` | src/components/portfolio.jsx:241-247 | with an existing element: a smooth-scroll request to it and the menu closed; with no element: no request and nothing changes; the highlight is never touched |
| `PortfolioPage.Portfolio.ToggleMobileMenu` | src/components/portfolio.jsx:416 | the menu flag flips and nothing else changes |
| `PortfolioPage.Portfolio.ToggleTheme` | src/components/portfolio.jsx:186-192 | the theme flips (the button at line 406) and the root `dark` class equals the new theme |
| `PortfolioPage.Portfolio.SelectDemo` | src/components/portfolio.jsx:210-214 | the project is selected and the view is the demo view (the card button at line 762); a changed selection requests a scroll to the top; a splash screen still mounted is unmounted with its timers cleared, while the intro flag and scroll lock stay as they were |
| `PortfolioPage.Portfolio.CloseDemo` | src/components/portfolio.jsx:210-239 | leaving the demo clears the selection, returns to the portfolio view and reclassifies the current scroll position at once; if the intro is still shown, a new splash screen mounts at enter with all three timers pending (line 368); pressing back with no demo changes nothing |
| `PortfolioPage.Portfolio.HandleIntroComplete` | src/components/portfolio.jsx:184-200 | called once the last timer has fired, the completion callback hides the intro and releases the scroll lock, and the controller's invariant holds again |
| `PortfolioPage.Portfolio.FireIntroTimer` | src/components/portfolio.jsx:109-116 | a timer of the mounted splash screen is removed from the queue and moves the phase forward to the phase at its delay; showIntro is false exactly once completion has fired, and the scroll lock equals showIntro |
| `PortfolioPage.Portfolio.Dispatch` | src/components/portfolio.jsx:202-247 | a scroll sets the elevation and, with no demo, reclassifies the highlight; a nav click to an existing element requests a scroll to it and closes the menu, to a missing one changes nothing; the menu and theme buttons flip their flags; each event leaves every other field as it was, and none touches the intro, the splash screen or the selection |
| `PortfolioPage.Portfolio.DispatchAll` | src/components/portfolio.jsx:202-247 | any sequence of scroll, nav, menu and theme events keeps the controller's invariant and leaves the intro flag, the selection and the splash screen exactly as they were |
| `PortfolioPage.ThemeToggleTwice` | src/components/portfolio.jsx:406 | toggling the theme twice restores the theme and the root class |
| `PortfolioPage.MobileMenuToggleTwice` | src/components/portfolio.jsx:416 | toggling the menu twice restores it |
| `PortfolioPage.DemoRoundTrip` | src/components/portfolio.jsx:302-308 | selecting a project and pressing back clears the selection and returns to the portfolio view; scrolling in the demo view moves only the elevation; the highlight on return is the classification of the viewport at that moment; menu, theme and intro flag are unchanged; a shown intro restarts with a new splash screen, otherwise the splash screen is untouched |
| `PortfolioPage.IntroTimeline` | src/components/portfolio.jsx:108-116 | from mount, with no demo opened, the phases reveal and exit arrive at 1200 and 2800 ms and completion at 3600 ms, for any sequences of scroll, navigation, menu and theme events before, between and after the timers; afterwards the intro is hidden and the scroll lock is off |
| `PortfolioPage.DemoDuringIntro` | src/components/portfolio.jsx:302-368 | opening a demo during the intro clears the splash screen's timers while the intro stays shown and the body stays locked; going back mounts a new splash screen at enter with all three timers pending |

## Left out

- Rendering: JSX, CSS classes and styles, icons, images and the demo iframe
  (lines 301-887). These are presentation only. Which intents a view offers
  (nav buttons only in the portfolio view, back button only in the demo view) is
  not enforced. Every user-intent and scroll method is total in every state
  satisfying the controller's invariant `Valid()`.
- framer-motion animation: `useInView`, `AnimatedSection`, `StaggerContainer`, the
  hero parallax `useTransform` (lines 59-105, 180-182). These are calls into a
  foreign library with floating-point interpolation.
- `Particles` (lines 26-56): it uses `Math.random` and floats and holds no state.
- Real DOM effects: `scrollIntoView`, `window.scrollTo`, `classList`,
  `body.style.overflow`, listener registration and removal. They are the
  `rootDark` and `bodyOverflowHidden` fields and the returned `ScrollRequest`.
- The static project, skill and link arrays (lines 249-299, 534-539, 802-808,
  866-870). They are configuration; only the `Project` record shape is modelled.
- React scheduling: render batching, effect ordering beyond "each handler runs
  to completion", and development-mode double effects.
- Real-time timers: the host fires the intro timers in order at their delays.
  A timer's actual lateness is not modelled.
- `SectionTracking.ScrollTarget`: `window.scrollY` is an integer here, the floor
  of the browser's possibly fractional offset. The comparisons with the integer
  offsets and heights at lines 219 and 229 are the same under that floor.
- `PortfolioPage.Portfolio.OnScroll`: under the same floor, the elevation test
  `window.scrollY > 20` (line 204) is not captured for fractional offsets
  strictly between 20 and 21, where the source elevates the bar and the model
  does not.
- `PortfolioPage.Portfolio.SelectDemo`: React compares effect dependencies by
  object identity. This model compares projects by value. The two differ only
  when the same project is selected again while its demo is shown, which the
  demo view offers no button for.
