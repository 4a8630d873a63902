/**
 * Scroll-position classification of the portfolio page: which of the five
 * fixed sections the navigation bar highlights for a given scroll position,
 * viewport height, document height and set of section offsets.
 */
module SectionTracking {

  import opened Wrappers

  /** The five in-page sections, in document order. */
  datatype Section = Home | About | Skills | Projects | Contact

  const Sections: seq<Section> := [Home, About, Skills, Projects, Contact]

  /** A section counts as reached once its top is at most this far below the scroll position. */
  const TrackingOffset: int := 150

  /** The viewport bottom counts as the page bottom within this many pixels. */
  const BottomTolerance: int := 50

  /** The geometry a scroll handler reads from the window and the document root. */
  datatype Viewport = Viewport(scrollY: int, innerHeight: int, scrollHeight: int)

  /**
   * The offsetTop of the element with each section's id, or None when the
   * document has no element with that id.
   */
  datatype Dom = Dom(
    home: Option<int>,
    about: Option<int>,
    skills: Option<int>,
    projects: Option<int>,
    contact: Option<int>)

  /** The position of a section in the fixed order. */
  function Index(s: Section): (i: nat)
    ensures i < |Sections| && Sections[i] == s
  {
    match s
    case Home => 0
    case About => 1
    case Skills => 2
    case Projects => 3
    case Contact => 4
  }

  /** `document.getElementById(s)`, reduced to the element's offsetTop. */
  function OffsetTop(dom: Dom, s: Section): Option<int>
  {
    match s
    case Home => dom.home
    case About => dom.about
    case Skills => dom.skills
    case Projects => dom.projects
    case Contact => dom.contact
  }

  /** The section's element exists and its top is at or above `position`. */
  predicate Qualifies(dom: Dom, s: Section, position: int)
  {
    match OffsetTop(dom, s)
    case None => false
    case Some(top) => top <= position
  }

  /** The section's top has been passed at the viewport's scroll position. */
  predicate Passed(v: Viewport, dom: Dom, s: Section)
  {
    Qualifies(dom, s, v.scrollY + TrackingOffset)
  }

  /** The viewport bottom is within the tolerance of the document bottom. */
  predicate IsAtBottom(v: Viewport)
  {
    v.innerHeight + v.scrollY >= v.scrollHeight - BottomTolerance
  }

  /**
   * The index of the last section among the first `n` that qualifies at
   * `position`, or None when none of them does.
   */
  function LastQualifyingIndex(dom: Dom, position: int, n: nat): (r: Option<nat>)
    requires n <= |Sections|
    ensures r.Some? ==> r.value < n && Qualifies(dom, Sections[r.value], position)
    ensures r.Some? ==> forall s :: r.value < Index(s) < n ==> !Qualifies(dom, s, position)
    ensures r.None? ==> forall s :: Index(s) < n ==> !Qualifies(dom, s, position)
  {
    if n == 0 then None
    else if Qualifies(dom, Sections[n - 1], position) then Some(n - 1)
    else LastQualifyingIndex(dom, position, n - 1)
  }

  /**
   * The section a scroll event selects, or None when the event leaves the
   * highlighted section as it was. At the page bottom it is always Contact;
   * otherwise it is the last section, in document order, whose element exists
   * and whose top has been passed.
   */
  function ScrollTarget(v: Viewport, dom: Dom): (r: Option<Section>)
    ensures IsAtBottom(v) ==> r == Some(Contact)
    ensures !IsAtBottom(v) && r.Some? ==> Passed(v, dom, r.value)
    ensures !IsAtBottom(v) && r.Some? ==> forall s :: Index(r.value) < Index(s) ==> !Passed(v, dom, s)
    ensures !IsAtBottom(v) ==> (r.None? <==> forall s :: !Passed(v, dom, s))
  {
    if IsAtBottom(v) then Some(Contact)
    else
      match LastQualifyingIndex(dom, v.scrollY + TrackingOffset, |Sections|)
      case None => None
      case Some(i) => assert Passed(v, dom, Sections[i]); Some(Sections[i])
  }

  /** The highlighted section after a scroll event, given the one highlighted before. */
  function NextActive(v: Viewport, dom: Dom, current: Section): Section
  {
    match ScrollTarget(v, dom)
    case None => current
    case Some(s) => s
  }

  /**
   * Away from the page bottom, a scroll event selects exactly the section that
   * qualifies and has no qualifying section after it.
   */
  lemma ScrollTargetIsLastQualifying(v: Viewport, dom: Dom, s: Section)
    requires !IsAtBottom(v)
    ensures ScrollTarget(v, dom) == Some(s) <==>
      Passed(v, dom, s) && forall t :: Index(s) < Index(t) ==> !Passed(v, dom, t)
  {
  }

  /** The page-bottom override ignores every section offset. */
  lemma BottomOverridesOffsets(v: Viewport, dom1: Dom, dom2: Dom, current1: Section, current2: Section)
    requires IsAtBottom(v)
    ensures NextActive(v, dom1, current1) == NextActive(v, dom2, current2) == Contact
  {
  }

  /** When no section qualifies away from the bottom, the highlight stays where it was. */
  lemma NoQualifyingSectionKeepsCurrent(v: Viewport, dom: Dom, current: Section)
    requires !IsAtBottom(v)
    requires forall s :: !Passed(v, dom, s)
    ensures NextActive(v, dom, current) == current
  {
  }

  function IndexRank(r: Option<nat>): int
  {
    match r
    case None => -1
    case Some(i) => i
  }

  /** A larger position never selects an earlier section. */
  lemma LastQualifyingMonotone(dom: Dom, p1: int, p2: int, n: nat)
    requires p1 <= p2 && n <= |Sections|
    ensures IndexRank(LastQualifyingIndex(dom, p1, n)) <= IndexRank(LastQualifyingIndex(dom, p2, n))
  {
  }

  function TargetRank(r: Option<Section>): int
  {
    match r
    case None => -1
    case Some(s) => Index(s)
  }

  /**
   * On a fixed page, scrolling further down never moves the highlight to an
   * earlier section.
   */
  lemma ScrollTargetMonotone(v1: Viewport, v2: Viewport, dom: Dom)
    requires v1.innerHeight == v2.innerHeight && v1.scrollHeight == v2.scrollHeight
    requires v1.scrollY <= v2.scrollY
    ensures TargetRank(ScrollTarget(v1, dom)) <= TargetRank(ScrollTarget(v2, dom))
  {
  }

  /** At the top of a page whose first section starts at the top, Home is selected. */
  lemma LoadSelectsHome(v: Viewport, dom: Dom)
    requires v.scrollY == 0 && !IsAtBottom(v)
    requires dom.home == Some(0)
    requires forall s :: s != Home ==> !Passed(v, dom, s)
    ensures ScrollTarget(v, dom) == Some(Home)
  {
    ScrollTargetIsLastQualifying(v, dom, Home);
  }

  /**
   * At scroll position 1600, with Projects starting at 1500 and Contact at
   * 2200, Projects is selected whatever the earlier sections' offsets.
   */
  lemma MidPageSelectsProjects(v: Viewport, dom: Dom)
    requires v.scrollY == 1600 && !IsAtBottom(v)
    requires dom.projects == Some(1500) && dom.contact == Some(2200)
    ensures ScrollTarget(v, dom) == Some(Projects)
  {
    ScrollTargetIsLastQualifying(v, dom, Projects);
  }
}
