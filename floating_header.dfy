/** The floating navigation header: it highlights the section the reader has
    scrolled to, scrolls to a section when an item is chosen, and opens and
    closes the mobile menu. The document is reduced to the `offsetTop` of
    each element that has an id. */
module FloatingHeader {
  import opened JsValues

  datatype NavItem = NavItem(id: string, title: string, href: string)

  /** The navigation items, in page order. */
  const NavItems: seq<NavItem> := [
    NavItem("hero", "Home", "#"),
    NavItem("about", "About", "#about"),
    NavItem("education", "Education", "#education"),
    NavItem("experience", "Experience", "#experience"),
    NavItem("skills", "Skills", "#skills"),
    NavItem("certificates", "Certificates", "#certificates"),
    NavItem("contact", "Contact", "#contact")
  ]

  /** `navigationItems.map(item => item.id)`. */
  function Sections(): (ids: seq<string>)
    ensures |ids| == |NavItems|
    ensures forall i | 0 <= i < |ids| :: ids[i] == NavItems[i].id
  {
    seq(|NavItems|, i requires 0 <= i < |NavItems| => NavItems[i].id)
  }

  /** The document: element id to `offsetTop`, for the elements that exist. */
  type Dom = map<string, int>

  /** `document.getElementById(key)`, as far as the header uses it: the
      element's `offsetTop`, or nothing. No element is found under the empty
      id. */
  function ElementById(dom: Dom, key: string): (top: Option<int>)
    ensures top.Some? <==> key != "" && key in dom
    ensures top.Some? ==> top.value == dom[key]
  {
    if key != "" && key in dom then Some(dom[key]) else None
  }

  /** The id the scan looks up for a section: 'hero' under the empty id. */
  function LookupKey(id: string): (key: string)
    ensures key == "" <==> id == "hero" || id == ""
    ensures key != "" ==> key == id
  {
    if id == "hero" then "" else id
  }

  /** Section `i` exists and its top is at most 100 pixels below the
      scroll position. */
  predicate Reached(ids: seq<string>, dom: Dom, scrollY: int, i: int)
    requires 0 <= i < |ids|
  {
    var section := ElementById(dom, LookupKey(ids[i]));
    section.Some? && scrollY + 100 >= section.value
  }

  /** The scan of `handleScroll` over the first `n` sections, from the
      last down: the index of the first reached section it meets. */
  function Scan(ids: seq<string>, dom: Dom, scrollY: int, n: nat): (r: Option<nat>)
    requires n <= |ids|
    ensures r.Some? ==> r.value < n && Reached(ids, dom, scrollY, r.value)
    ensures r.Some? ==> ids[r.value] != "hero"
  {
    if n == 0 then None
    else if Reached(ids, dom, scrollY, n - 1) then Some(n - 1)
    else Scan(ids, dom, scrollY, n - 1)
  }

  /** The scan finds the reached section with the highest index, and finds
      nothing only when no section is reached. */
  lemma {:induction false} ScanFindsHighest(ids: seq<string>, dom: Dom, scrollY: int, n: nat)
    requires n <= |ids|
    ensures Scan(ids, dom, scrollY, n).Some? ==>
              forall j | Scan(ids, dom, scrollY, n).value < j < n :: !Reached(ids, dom, scrollY, j)
    ensures Scan(ids, dom, scrollY, n).None? <==>
              forall j | 0 <= j < n :: !Reached(ids, dom, scrollY, j)
  {
    if n > 0 && !Reached(ids, dom, scrollY, n - 1) {
      ScanFindsHighest(ids, dom, scrollY, n - 1);
    }
  }

  /** `activeSection` after one run of `handleScroll`: the id of the
      highest reached section, or the previous value when none is
      reached. */
  function ActiveAfter(current: string, dom: Dom, scrollY: int): (active: string)
    ensures (forall j | 0 <= j < |Sections()| :: !Reached(Sections(), dom, scrollY, j)) ==> active == current
    ensures (exists j | 0 <= j < |Sections()| :: Reached(Sections(), dom, scrollY, j)) ==>
              exists i | 0 <= i < |Sections()| ::
                && Reached(Sections(), dom, scrollY, i) && active == Sections()[i]
                && forall j | i < j < |Sections()| :: !Reached(Sections(), dom, scrollY, j)
    ensures active == current || exists i | 0 <= i < |NavItems| :: active == NavItems[i].id
    ensures active != "hero" || current == "hero"
  {
    var ids := Sections();
    ScanFindsHighest(ids, dom, scrollY, |ids|);
    match Scan(ids, dom, scrollY, |ids|)
    case Some(i) => ids[i]
    case None => current
  }

  /** A page whose sections start 800 pixels apart: scrolled to 850, the
      scan passes over the sections further down and highlights 'about';
      at the very top nothing is reached (the home section is never found)
      and the highlight stays as it was. */
  lemma ScrollExample(current: string)
    ensures var dom := map["about" := 800, "education" := 1600, "experience" := 2400,
                           "skills" := 3200, "certificates" := 4000, "contact" := 4800];
            ActiveAfter(current, dom, 850) == "about" && ActiveAfter(current, dom, 0) == current
  {
    var dom := map["about" := 800, "education" := 1600, "experience" := 2400,
                   "skills" := 3200, "certificates" := 4000, "contact" := 4800];
    var ids := Sections();
    assert ids == ["hero", "about", "education", "experience", "skills", "certificates", "contact"];
    assert Reached(ids, dom, 850, 1);
    assert forall j | 0 <= j < |ids| && j != 1 :: !Reached(ids, dom, 850, j);
    assert forall j | 0 <= j < |ids| :: !Reached(ids, dom, 0, j);
  }

  /** Where choosing an item scrolls the window. */
  datatype ScrollAction = ToTop | IntoView(id: string) | Stay

  /** The hrefs the header passes to `scrollToSection`. */
  predicate IsNavHref(href: string)
  {
    exists i | 0 <= i < |NavItems| :: NavItems[i].href == href
  }

  class Header {
    var isMenuOpen: bool
    var activeSection: string

    constructor ()
      ensures !isMenuOpen && activeSection == ""
    {
      isMenuOpen := false;
      activeSection := "";
    }

    /** `handleScroll`: scan the sections from the last down and make the
        first reached one active. */
    method HandleScroll(dom: Dom, scrollY: int)
      modifies this
      ensures activeSection == ActiveAfter(old(activeSection), dom, scrollY)
      ensures isMenuOpen == old(isMenuOpen)
    {
      var sections := Sections();
      var scrollPosition := scrollY + 100;
      var i := |sections| - 1;
      while i >= 0
        invariant -1 <= i < |sections|
        invariant Scan(sections, dom, scrollY, |sections|) == Scan(sections, dom, scrollY, i + 1)
        invariant activeSection == old(activeSection) && isMenuOpen == old(isMenuOpen)
      {
        var section := ElementById(dom, LookupKey(sections[i]));
        if section.Some? {
          var sectionTop := section.value;
          if scrollPosition >= sectionTop {
            activeSection := sections[i];
            break;
          }
        }
        i := i - 1;
      }
    }

    /** `scrollToSection`: '#' scrolls to the top, any other href to its
        element if the document has it; the menu closes either way. */
    method ScrollToSection(href: string, dom: Dom) returns (action: ScrollAction)
      requires IsNavHref(href)
      modifies this
      ensures !isMenuOpen
      ensures activeSection == old(activeSection)
      ensures href == "#" ==> action == ToTop
      ensures href != "#" ==>
                action == if ElementById(dom, href[1..]).Some? then IntoView(href[1..]) else Stay
    {
      if href == "#" {
        action := ToTop;
      } else {
        var id := href[1..];
        var element := ElementById(dom, id);
        action := if element.Some? then IntoView(id) else Stay;
      }
      isMenuOpen := false;
    }

    /** The mobile menu button. */
    method ToggleMenu()
      modifies this
      ensures isMenuOpen == !old(isMenuOpen)
      ensures activeSection == old(activeSection)
    {
      isMenuOpen := !isMenuOpen;
    }
  }

  /** The mobile bar: the first five items; Certificates and Contact are
      reached only through the expanded menu. */
  function MobileBarItems(): (items: seq<NavItem>)
    ensures |items| == 5
    ensures forall i | 0 <= i < 5 :: items[i] == NavItems[i]
    ensures forall i | 0 <= i < 5 :: items[i].id != "certificates" && items[i].id != "contact"
  {
    NavItems[..5]
  }
}
