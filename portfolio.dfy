/**
 * The page-level view controller of the portfolio: its six state fields,
 * the two document effects it keeps in step with them, its scroll listeners
 * and its user intents.
 */
module PortfolioPage {

  import opened Wrappers
  import opened SectionTracking
  import opened Intro

  /** The navigation bar gains its elevated style once scrolled past this many pixels. */
  const ElevationThreshold: int := 20

  /** A project card; the page's project list is static configuration. */
  datatype Project = Project(
    title: string,
    description: string,
    tech: seq<string>,
    image: string,
    demo: string,
    color: string)

  datatype ViewMode = PortfolioView | DemoView

  /** A viewport scroll the controller asks the host document to perform. */
  datatype ScrollRequest = NoScroll | ScrollToTop | ScrollIntoView(target: Section)

  /** The events that leave the view mode alone: scrolling, nav clicks, the menu and theme buttons. */
  datatype Event = Scroll(v: Viewport, dom: Dom) | NavClick(id: Section, dom: Dom) | MenuButton | ThemeButton

  class Portfolio {
    var mobileMenuOpen: bool
    var activeSection: Section
    var selectedDemo: Option<Project>
    var showIntro: bool
    var navScrolled: bool
    var darkMode: bool

    /** The `dark` class on the document root element. */
    var rootDark: bool
    /** The body's `overflow: hidden` scroll lock. */
    var bodyOverflowHidden: bool

    /** The current splash screen; a new one mounts whenever the portfolio view returns with the intro still shown. */
    var intro: IntroScreen

    /**
     * The splash screen is mounted: the intro is shown and the portfolio view,
     * which is the only view that renders it, is on screen.
     */
    predicate IntroMounted()
      reads this
    {
      showIntro && selectedDemo.None?
    }

    /**
     * A mounted splash screen has timers left and its state is consistent; an
     * unmounted one has none, either because they all fired or because its
     * cleanup cleared them.
     */
    ghost predicate Valid()
      reads this, intro
    {
      rootDark == darkMode &&
      bodyOverflowHidden == showIntro &&
      (IntroMounted() ==> intro.Valid() && intro.pending != []) &&
      (!IntroMounted() ==> intro.pending == [])
    }

    function View(): ViewMode
      reads this
    {
      if selectedDemo.Some? then DemoView else PortfolioView
    }

    /**
     * Mounting the page: the initial state, the theme and scroll-lock effects,
     * and the section classification that runs once on mount against the
     * initial viewport and document.
     */
    constructor (v: Viewport, dom: Dom)
      ensures Valid() && fresh(intro) && IntroMounted()
      ensures !mobileMenuOpen && selectedDemo == None && showIntro && !navScrolled && darkMode
      ensures activeSection == NextActive(v, dom, Home)
      ensures intro.phase == Enter && intro.pending == Schedule && intro.clock == 0
      ensures rootDark && bodyOverflowHidden
    {
      mobileMenuOpen := false;
      activeSection := Home;
      selectedDemo := None;
      showIntro := true;
      navScrolled := false;
      darkMode := true;
      rootDark := true;
      bodyOverflowHidden := true;
      intro := new IntroScreen();
      new;
      HandleScroll(v, dom);
    }

    /**
     * The section classification: the page-bottom override, then a backward
     * scan over the sections that stops at the first whose element exists and
     * whose top has been passed. Only the highlighted section can change.
     */
    method HandleScroll(v: Viewport, dom: Dom)
      requires Valid()
      modifies this`activeSection
      ensures Valid()
      ensures activeSection == NextActive(v, dom, old(activeSection))
    {
      var scrollPosition := v.scrollY + TrackingOffset;
      if IsAtBottom(v) {
        activeSection := Contact;
        return;
      }
      var i := |Sections| - 1;
      while i >= 0
        invariant -1 <= i < |Sections|
        invariant forall s :: i < Index(s) ==> !Passed(v, dom, s)
        invariant activeSection == old(activeSection)
      {
        var section := Sections[i];
        var element := OffsetTop(dom, section);
        if element.Some? && element.value <= scrollPosition {
          activeSection := section;
          ScrollTargetIsLastQualifying(v, dom, section);
          break;
        }
        i := i - 1;
      }
    }

    /**
     * A window scroll event. The elevation listener is always registered; the
     * section listener only while no project demo is shown.
     */
    method OnScroll(v: Viewport, dom: Dom)
      requires Valid()
      modifies this`navScrolled, this`activeSection
      ensures Valid()
      ensures navScrolled == (v.scrollY > ElevationThreshold)
      ensures activeSection ==
        if old(selectedDemo).None? then NextActive(v, dom, old(activeSection)) else old(activeSection)
    {
      navScrolled := v.scrollY > ElevationThreshold;
      if selectedDemo.None? {
        HandleScroll(v, dom);
      }
    }

    /**
     * A navigation click: when the section's element exists, request a smooth
     * scroll to it and close the mobile menu; otherwise do nothing.
     */
    method ScrollToSection(id: Section, dom: Dom) returns (request: ScrollRequest)
      requires Valid()
      modifies this`mobileMenuOpen
      ensures Valid()
      ensures OffsetTop(dom, id).Some? ==> request == ScrollIntoView(id) && !mobileMenuOpen
      ensures OffsetTop(dom, id).None? ==> request == NoScroll && mobileMenuOpen == old(mobileMenuOpen)
    {
      var element := OffsetTop(dom, id);
      if element.Some? {
        request := ScrollIntoView(id);
        mobileMenuOpen := false;
      } else {
        request := NoScroll;
      }
    }

    method ToggleMobileMenu()
      requires Valid()
      modifies this`mobileMenuOpen
      ensures Valid()
      ensures mobileMenuOpen == !old(mobileMenuOpen)
    {
      mobileMenuOpen := !mobileMenuOpen;
    }

    /** The theme button, followed by the effect that mirrors the theme on the root element. */
    method ToggleTheme()
      requires Valid()
      modifies this`darkMode, this`rootDark
      ensures Valid()
      ensures darkMode == !old(darkMode) && rootDark == darkMode
    {
      darkMode := !darkMode;
      if darkMode {
        rootDark := true;
      } else {
        rootDark := false;
      }
    }

    /**
     * A project's "Watch Demo" button. The demo view replaces the whole
     * portfolio tree, so a splash screen still mounted unmounts and its pending
     * timers are cleared; the intro stays shown and the scroll lock stays on.
     * When the selection changes, the demo effect asks for the viewport to
     * return to the top.
     */
    method SelectDemo(p: Project) returns (request: ScrollRequest)
      requires Valid()
      modifies this`selectedDemo, intro
      ensures Valid()
      ensures selectedDemo == Some(p) && View() == DemoView
      ensures request == if old(selectedDemo) == Some(p) then NoScroll else ScrollToTop
      ensures old(IntroMounted()) ==>
        intro.pending == [] && intro.phase == old(intro.phase) && intro.clock == old(intro.clock)
      ensures !old(IntroMounted()) ==> unchanged(intro)
    {
      if IntroMounted() {
        intro.Unmount();
      }
      var changed := selectedDemo != Some(p);
      selectedDemo := Some(p);
      request := if changed then ScrollToTop else NoScroll;
    }

    /**
     * The demo view's back button. When a demo was shown, the portfolio tree
     * mounts again: if the intro is still shown, so does a new splash screen
     * with fresh timers; section tracking resumes and the classification runs
     * at once on the current viewport. Pressing back with no demo changes nothing.
     */
    method CloseDemo(v: Viewport, dom: Dom)
      requires Valid()
      modifies this`selectedDemo, this`activeSection, this`intro
      ensures Valid()
      ensures selectedDemo == None && View() == PortfolioView
      ensures activeSection ==
        if old(selectedDemo).Some? then NextActive(v, dom, old(activeSection)) else old(activeSection)
      ensures old(selectedDemo).Some? && showIntro ==>
        fresh(intro) && intro.phase == Enter && intro.pending == Schedule && intro.clock == 0
      ensures !(old(selectedDemo).Some? && showIntro) ==> intro == old(intro)
    {
      if selectedDemo.Some? {
        selectedDemo := None;
        if showIntro {
          intro := new IntroScreen();
        }
        HandleScroll(v, dom);
      }
    }

    /**
     * The splash screen's completion callback, followed by the scroll-lock
     * effect. It is called only once the last timer has fired.
     */
    method HandleIntroComplete()
      requires intro.pending == [] && rootDark == darkMode
      modifies this`showIntro, this`bodyOverflowHidden
      ensures Valid()
      ensures !showIntro && !bodyOverflowHidden
    {
      showIntro := false;
      bodyOverflowHidden := false;
    }

    /** The host fires the mounted splash screen's next timer. */
    method FireIntroTimer()
      requires Valid() && IntroMounted()
      modifies this`showIntro, this`bodyOverflowHidden, intro
      ensures Valid()
      ensures intro == old(intro) && intro.pending == old(intro.pending)[1..]
      ensures intro.clock == old(intro.pending)[0].delay
      ensures intro.phase == PhaseAt(intro.clock)
      ensures PhaseRank(old(intro.phase)) <= PhaseRank(intro.phase)
      ensures showIntro == !CompletedBy(intro.clock)
      ensures bodyOverflowHidden == showIntro
    {
      var completed := intro.Fire();
      if completed {
        HandleIntroComplete();
      }
    }

    /**
     * One event that leaves the view mode alone, handed to its listener. Such
     * an event never touches the intro, the splash screen, or the selection.
     */
    method Dispatch(e: Event) returns (request: ScrollRequest)
      requires Valid()
      modifies this`navScrolled, this`activeSection, this`mobileMenuOpen, this`darkMode, this`rootDark
      ensures Valid()
      ensures e.Scroll? ==> navScrolled == (e.v.scrollY > ElevationThreshold) && request == NoScroll
      ensures e.Scroll? && old(selectedDemo).None? ==> activeSection == NextActive(e.v, e.dom, old(activeSection))
      ensures e.Scroll? && old(selectedDemo).Some? ==> activeSection == old(activeSection)
      ensures e.NavClick? && OffsetTop(e.dom, e.id).Some? ==> request == ScrollIntoView(e.id) && !mobileMenuOpen
      ensures e.NavClick? && OffsetTop(e.dom, e.id).None? ==> request == NoScroll && mobileMenuOpen == old(mobileMenuOpen)
      ensures e.MenuButton? ==> mobileMenuOpen == !old(mobileMenuOpen) && request == NoScroll
      ensures e.ThemeButton? ==> darkMode == !old(darkMode) && request == NoScroll
      ensures !e.Scroll? ==> navScrolled == old(navScrolled) && activeSection == old(activeSection)
      ensures e.Scroll? || e.ThemeButton? ==> mobileMenuOpen == old(mobileMenuOpen)
      ensures !e.ThemeButton? ==> darkMode == old(darkMode) && rootDark == old(rootDark)
    {
      match e {
        case Scroll(v, dom) =>
          OnScroll(v, dom);
          request := NoScroll;
        case NavClick(id, dom) =>
          request := ScrollToSection(id, dom);
        case MenuButton =>
          ToggleMobileMenu();
          request := NoScroll;
        case ThemeButton =>
          ToggleTheme();
          request := NoScroll;
      }
    }

    /** Any sequence of such events, in order, as the event loop delivers them. */
    method DispatchAll(events: seq<Event>)
      requires Valid()
      modifies this`navScrolled, this`activeSection, this`mobileMenuOpen, this`darkMode, this`rootDark
      ensures Valid()
      ensures showIntro == old(showIntro) && selectedDemo == old(selectedDemo)
      ensures intro == old(intro) && unchanged(intro)
    {
      var i := 0;
      while i < |events|
        invariant 0 <= i <= |events|
        invariant Valid()
      {
        var request := Dispatch(events[i]);
        i := i + 1;
      }
    }
  }

  /** Toggling the theme twice restores it, root class included. */
  method ThemeToggleTwice(page: Portfolio)
    requires page.Valid()
    modifies page
    ensures page.Valid()
    ensures page.darkMode == old(page.darkMode) && page.rootDark == old(page.rootDark)
  {
    page.ToggleTheme();
    page.ToggleTheme();
  }

  /** Toggling the mobile menu twice restores it. */
  method MobileMenuToggleTwice(page: Portfolio)
    requires page.Valid()
    modifies page
    ensures page.Valid()
    ensures page.mobileMenuOpen == old(page.mobileMenuOpen)
  {
    page.ToggleMobileMenu();
    page.ToggleMobileMenu();
  }

  /**
   * Selecting a project from the portfolio and going back: the view returns
   * to the portfolio, the selection is cleared, and the highlighted section is
   * recomputed from the viewport at the moment of return. Scroll events while
   * the demo is shown move only the navigation elevation. The menu, the theme
   * and the intro flag are as before; an intro still shown restarts with a new
   * splash screen, and otherwise the splash screen is the same one.
   */
  method DemoRoundTrip(page: Portfolio, p: Project, during: Viewport, back: Viewport, dom: Dom)
    requires page.Valid() && page.selectedDemo == None
    modifies page, page.intro
    ensures page.Valid()
    ensures page.selectedDemo == None && page.View() == PortfolioView
    ensures page.navScrolled == (during.scrollY > ElevationThreshold)
    ensures page.activeSection == NextActive(back, dom, old(page.activeSection))
    ensures page.mobileMenuOpen == old(page.mobileMenuOpen) && page.darkMode == old(page.darkMode)
    ensures page.showIntro == old(page.showIntro) && page.bodyOverflowHidden == old(page.bodyOverflowHidden)
    ensures old(page.showIntro) ==>
      fresh(page.intro) && page.intro.phase == Enter && page.intro.pending == Schedule && page.intro.clock == 0
    ensures !old(page.showIntro) ==> page.intro == old(page.intro) && unchanged(page.intro)
  {
    var request := page.SelectDemo(p);
    assert request == ScrollToTop;
    page.OnScroll(during, dom);
    assert page.activeSection == old(page.activeSection);
    page.CloseDemo(back, dom);
  }

  /**
   * A full page load with no demo opened: the splash screen passes Enter,
   * Reveal and Exit at 0, 1200 and 2800 ms and completes at 3600 ms, whatever
   * sequences of scroll, navigation, menu and theme events arrive before,
   * between and after the timers; afterwards the scroll lock is off.
   */
  method IntroTimeline(v: Viewport, dom: Dom, before: seq<Event>, early: seq<Event>, late: seq<Event>, after: seq<Event>)
    returns (page: Portfolio)
    ensures page.Valid() && !page.showIntro && !page.bodyOverflowHidden
    ensures page.intro.clock == 3600 && page.intro.phase == Exit
  {
    page := new Portfolio(v, dom);
    page.DispatchAll(before);
    page.FireIntroTimer();
    assert page.intro.clock == 1200 && page.intro.phase == Reveal && page.showIntro;
    page.DispatchAll(early);
    page.FireIntroTimer();
    assert page.intro.clock == 2800 && page.intro.phase == Exit && page.showIntro;
    page.DispatchAll(late);
    page.FireIntroTimer();
    page.DispatchAll(after);
  }

  /**
   * Opening a demo during the intro: the splash screen unmounts and its timers
   * are cleared, while the intro stays shown and the scroll lock stays on.
   * Going back mounts a new splash screen at Enter with all three timers
   * pending again.
   */
  method DemoDuringIntro(v: Viewport, dom: Dom, p: Project, back: Viewport) returns (page: Portfolio)
    ensures page.Valid() && page.IntroMounted() && page.bodyOverflowHidden
    ensures page.intro.phase == Enter && page.intro.pending == Schedule && page.intro.clock == 0
  {
    page := new Portfolio(v, dom);
    page.FireIntroTimer();
    assert page.intro.phase == Reveal;
    var request := page.SelectDemo(p);
    assert page.intro.pending == [] && page.showIntro && page.bodyOverflowHidden;
    page.CloseDemo(back, dom);
  }
}
