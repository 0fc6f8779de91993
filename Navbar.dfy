/**
 * The floating navigation bar: it highlights the section currently at the
 * top of the page, throttled to one update per animation frame, switches
 * at once on a click, and fades in once after a fixed delay.
 *
 * The section readings (`getElementById(..)?.getBoundingClientRect().top`)
 * are a parameter of the frame: `None` for a missing element.
 */
module Navbar {
  import opened Wrappers

  /** A navigation entry: its label and the in-page anchor it links to. */
  datatype NavItem = NavItem(name: string, url: string)

  /** The six entries, in page order. */
  const NavItems: seq<NavItem> := [
    NavItem("Home", "#home"),
    NavItem("About", "#about"),
    NavItem("Projects", "#projects"),
    NavItem("Skills", "#skills"),
    NavItem("Achievements", "#achievements"),
    NavItem("Contact", "#contact")
  ]

  /** A section is current once its top has scrolled to this many pixels from the viewport top. */
  const ActivationLine: real := 200.0

  /** `url.slice(1)`: the anchor without its leading character. */
  function SectionId(url: string): (id: string)
    ensures |url| > 0 ==> [url[0]] + id == url
    ensures |url| == 0 ==> id == ""
  {
    if |url| == 0 then "" else url[1..]
  }

  /** The element ids the scan looks up, one per nav entry, in the same order. */
  function SectionIds(items: seq<NavItem>): (ids: seq<string>)
    ensures |ids| == |items|
    ensures forall i :: 0 <= i < |items| ==> ids[i] == SectionId(items[i].url)
  {
    seq(|items|, i requires 0 <= i < |items| => SectionId(items[i].url))
  }

  /** Every nav url is `#` followed by the id of the section it scrolls to. */
  lemma NavSectionIds()
    ensures SectionIds(NavItems) == ["home", "about", "projects", "skills", "achievements", "contact"]
    ensures forall i :: 0 <= i < |NavItems| ==> NavItems[i].url == "#" + SectionIds(NavItems)[i]
  {
  }

  /** A section qualifies when its element exists and its top is at or above the activation line. */
  predicate Qualifies(top: Option<real>)
  {
    top.Some? && top.value <= ActivationLine
  }

  /** The highest-indexed qualifying section, if any. */
  function LastQualifying(tops: seq<Option<real>>): (r: Option<nat>)
    ensures r.Some? ==> r.value < |tops| && Qualifies(tops[r.value])
    ensures r.Some? ==> forall j :: r.value < j < |tops| ==> !Qualifies(tops[j])
    ensures r.None? ==> forall j :: 0 <= j < |tops| ==> !Qualifies(tops[j])
  {
    if |tops| == 0 then None
    else if Qualifies(tops[|tops| - 1]) then Some(|tops| - 1)
    else LastQualifying(tops[..|tops| - 1])
  }

  /** The frame's scan: from the last section down, stop at the first that qualifies. */
  method ScanSections(tops: seq<Option<real>>) returns (found: Option<nat>)
    ensures found == LastQualifying(tops)
  {
    var i := |tops|;
    while i > 0
      invariant 0 <= i <= |tops|
      invariant forall j :: i <= j < |tops| ==> !Qualifies(tops[j])
    {
      i := i - 1;
      if Qualifies(tops[i]) {
        return Some(i);
      }
    }
    return None;
  }

  /** The tab the scan selects, or the previous one when no section qualifies. */
  function TabAfterScan(tops: seq<Option<real>>, previous: string): (tab: string)
    requires |tops| == |NavItems|
    ensures LastQualifying(tops).None? ==> tab == previous
    ensures LastQualifying(tops).Some? ==> tab == NavItems[LastQualifying(tops).value].name
  {
    match LastQualifying(tops)
    case Some(i) => NavItems[i].name
    case None => previous
  }

  /** When every section has reached the line, the last section (Contact) is current. */
  lemma AllSectionsUpSelectsLast(tops: seq<Option<real>>, previous: string)
    requires |tops| == |NavItems|
    requires forall i :: 0 <= i < |tops| ==> Qualifies(tops[i])
    ensures TabAfterScan(tops, previous) == "Contact"
  {
  }

  /** The bar's state: the highlighted tab, its visibility, and the frame-throttle flag. */
  class NavbarState {
    var activeTab: string
    var visible: bool
    /** A frame is pending; further scroll events schedule nothing. */
    var ticking: bool

    /** Mount: "Home" highlighted, hidden, and the effect's first `handleScroll()` has scheduled a frame. */
    constructor ()
      ensures activeTab == "Home" && !visible && ticking
    {
      activeTab := "Home";
      visible := false;
      ticking := true;
    }

    /** A window `scroll` event: schedule a frame unless one is pending. */
    method OnScroll()
      modifies this
      ensures ticking
      ensures activeTab == old(activeTab) && visible == old(visible)
    {
      if ticking {
        return;
      }
      ticking := true;
    }

    /** The pending frame runs the scan and clears the throttle; with none pending nothing happens. */
    method RunFrame(tops: seq<Option<real>>)
      requires |tops| == |NavItems|
      modifies this
      ensures !ticking
      ensures old(ticking) ==> activeTab == TabAfterScan(tops, old(activeTab))
      ensures !old(ticking) ==> activeTab == old(activeTab)
      ensures visible == old(visible)
    {
      if !ticking {
        return;
      }
      var found := ScanSections(tops);
      if found.Some? {
        activeTab := NavItems[found.value].name;
      }
      ticking := false;
    }

    /**
     * `handleTabClick`: highlight the clicked tab at once. The smooth scroll
     * to the tab's anchor is DOM work, so the anchor is not a parameter.
     */
    method TabClick(name: string)
      modifies this
      ensures activeTab == name
      ensures visible == old(visible) && ticking == old(ticking)
    {
      activeTab := name;
    }

    /** The 3000 ms timer fires: show the bar. Nothing ever hides it again. */
    method FireShowTimer()
      modifies this
      ensures visible
      ensures activeTab == old(activeTab) && ticking == old(ticking)
    {
      visible := true;
    }
  }
}
