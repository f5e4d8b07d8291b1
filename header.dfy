/**
 * The site header: route highlighting, the desktop and mobile navigation
 * order, and the three flags that open the mobile menu, the desktop Partners
 * dropdown and the mobile Partners accordion.
 */
module Header {
  import opened JsSemantics

  datatype Link = Link(name: string, path: string)

  const PartnerCountries: seq<Link> := [
    Link("Singapore", "/partners/singapore"),
    Link("United Kingdom", "/partners/uk"),
    Link("Australia", "/partners/australia"),
    Link("South Korea", "/partners/south-korea"),
    Link("USA", "/partners/usa"),
    Link("China", "/partners/china"),
    Link("Switzerland", "/partners/switzerland"),
    Link("Canada", "/partners/canada"),
    Link("Vietnam", "/partners/vietnam")
  ]

  const NavLinks: seq<Link> := [
    Link("Home", "/"),
    Link("Services", "/services"),
    Link("DS Foundation", "/foundation"),
    Link("Testimonials", "/testimonials")
  ]

  const PartnersPrefix := "/partners"
  const PartnerPathPrefix := "/partners/"

  /** `isActive(path)`: the current pathname is exactly `path`. */
  predicate IsActive(pathname: string, path: string)
  {
    pathname == path
  }

  /** `isPartnersActive()`: the current pathname starts with `/partners`. */
  predicate IsPartnersActive(pathname: string)
  {
    StartsWith(pathname, PartnersPrefix)
  }

  /** The slug of a `/partners/<slug>` path. */
  function PartnerSlug(path: string): (slug: string)
    requires StartsWith(path, PartnerPathPrefix)
    ensures PartnerPathPrefix + slug == path
  {
    assert path == path[..|PartnerPathPrefix|] + path[|PartnerPathPrefix|..];
    path[|PartnerPathPrefix|..]
  }

  /** A `/partners/<slug>` path highlights the Partners entry. */
  lemma PartnerPathActivatesPartners(slug: string)
    ensures IsPartnersActive(PartnerPathPrefix + slug)
  {
    assert (PartnerPathPrefix + slug)[..|PartnersPrefix|] == PartnersPrefix;
  }

  /** Every partner-country path is a `/partners/<slug>` path, so it highlights Partners. */
  lemma {:induction false} PartnerCountriesActivatePartners()
    ensures forall i :: 0 <= i < |PartnerCountries| ==>
              StartsWith(PartnerCountries[i].path, PartnerPathPrefix) && IsPartnersActive(PartnerCountries[i].path)
  {
    forall i | 0 <= i < |PartnerCountries|
      ensures StartsWith(PartnerCountries[i].path, PartnerPathPrefix) && IsPartnersActive(PartnerCountries[i].path)
    {
      var p := PartnerCountries[i].path;
      assert p[..|PartnerPathPrefix|] == PartnerPathPrefix;
      PartnerPathActivatesPartners(p[|PartnerPathPrefix|..]);
      assert PartnerPathPrefix + p[|PartnerPathPrefix|..] == p;
    }
  }

  /** The slugs the header links to, in menu order. */
  function PartnerSlugs(links: seq<Link>): (slugs: seq<string>)
    requires forall i :: 0 <= i < |links| ==> StartsWith(links[i].path, PartnerPathPrefix)
    ensures |slugs| == |links|
    ensures forall i :: 0 <= i < |links| ==> links[i].path == PartnerPathPrefix + slugs[i]
  {
    seq(|links|, i requires 0 <= i < |links| => PartnerSlug(links[i].path))
  }

  lemma SlugOf(path: string, slug: string)
    requires path == PartnerPathPrefix + slug
    ensures StartsWith(path, PartnerPathPrefix) && PartnerSlug(path) == slug
  {
    assert path[..|PartnerPathPrefix|] == PartnerPathPrefix;
  }

  /** The slugs of the header's partner links, in menu order. */
  lemma {:induction false} HeaderSlugs()
    ensures forall i :: 0 <= i < |PartnerCountries| ==> StartsWith(PartnerCountries[i].path, PartnerPathPrefix)
    ensures PartnerSlugs(PartnerCountries) ==
              ["singapore", "uk", "australia", "south-korea", "usa", "china", "switzerland", "canada", "vietnam"]
  {
    PartnerCountriesActivatePartners();
    SlugOf(PartnerCountries[0].path, "singapore");
    SlugOf(PartnerCountries[1].path, "uk");
    SlugOf(PartnerCountries[2].path, "australia");
    SlugOf(PartnerCountries[3].path, "south-korea");
    SlugOf(PartnerCountries[4].path, "usa");
    SlugOf(PartnerCountries[5].path, "china");
    SlugOf(PartnerCountries[6].path, "switzerland");
    SlugOf(PartnerCountries[7].path, "canada");
    SlugOf(PartnerCountries[8].path, "vietnam");
  }

  /** One entry of either navigation bar: a plain link or the Partners menu. */
  datatype NavItem = NavLink(link: Link) | PartnersMenu

  function AsItems(links: seq<Link>): (items: seq<NavItem>)
    ensures |items| == |links|
    ensures forall i :: 0 <= i < |links| ==> items[i] == NavLink(links[i])
  {
    if links == [] then [] else [NavLink(links[0])] + AsItems(links[1..])
  }

  /** Both bars: `links.slice(0, 2)`, then Partners, then `links.slice(2)`. */
  function NavItems(links: seq<Link>): seq<NavItem>
  {
    AsItems(Slice(links, 0, 2)) + [PartnersMenu] + AsItems(SliceFrom(links, 2))
  }

  /** The plain links of a bar, in order. */
  function LinksOf(items: seq<NavItem>): seq<Link>
  {
    if items == [] then []
    else (if items[0].NavLink? then [items[0].link] else []) + LinksOf(items[1..])
  }

  /** How many Partners menus a bar holds. */
  function PartnersCount(items: seq<NavItem>): nat
  {
    if items == [] then 0 else (if items[0].PartnersMenu? then 1 else 0) + PartnersCount(items[1..])
  }

  lemma {:induction false} LinksOfConcat(a: seq<NavItem>, b: seq<NavItem>)
    ensures LinksOf(a + b) == LinksOf(a) + LinksOf(b)
    ensures PartnersCount(a + b) == PartnersCount(a) + PartnersCount(b)
  {
    if a == [] {
      assert a + b == b;
    } else {
      assert (a + b)[0] == a[0] && (a + b)[1..] == a[1..] + b;
      LinksOfConcat(a[1..], b);
    }
  }

  lemma {:induction false} LinksOfAsItems(links: seq<Link>)
    ensures LinksOf(AsItems(links)) == links
    ensures PartnersCount(AsItems(links)) == 0
  {
    if links != [] {
      assert AsItems(links)[1..] == AsItems(links[1..]);
      LinksOfAsItems(links[1..]);
    }
  }

  /**
   * Every link appears exactly once, in the list's own order, and the
   * Partners menu appears once, after the first two links.
   */
  lemma {:induction false} NavOrder(links: seq<Link>)
    ensures LinksOf(NavItems(links)) == links
    ensures PartnersCount(NavItems(links)) == 1
    ensures var k := if |links| < 2 then |links| else 2;
            |NavItems(links)| == |links| + 1 && NavItems(links)[k] == PartnersMenu
  {
    var front, back := AsItems(Slice(links, 0, 2)), AsItems(SliceFrom(links, 2));
    LinksOfConcat(front, [PartnersMenu]);
    LinksOfConcat(front + [PartnersMenu], back);
    LinksOfAsItems(Slice(links, 0, 2));
    LinksOfAsItems(SliceFrom(links, 2));
    assert LinksOf([PartnersMenu]) == [] && PartnersCount([PartnersMenu]) == 1;
    SliceSplit(links, 2);
  }

  /** The header's own links render as Home, Services, Partners, DS Foundation, Testimonials. */
  lemma HeaderNavOrder()
    ensures NavItems(NavLinks) ==
              [NavLink(NavLinks[0]), NavLink(NavLinks[1]), PartnersMenu, NavLink(NavLinks[2]), NavLink(NavLinks[3])]
  {
    assert AsItems(Slice(NavLinks, 0, 2)) == [NavLink(NavLinks[0]), NavLink(NavLinks[1])];
    assert AsItems(SliceFrom(NavLinks, 2)) == [NavLink(NavLinks[2]), NavLink(NavLinks[3])];
  }

  /** At most one plain link is highlighted, and none on a partner-country page. */
  lemma NavHighlight(pathname: string)
    ensures forall i, j :: 0 <= i < j < |NavLinks| ==> !(IsActive(pathname, NavLinks[i].path) && IsActive(pathname, NavLinks[j].path))
    ensures IsPartnersActive(pathname) ==> forall i :: 0 <= i < |NavLinks| ==> !IsActive(pathname, NavLinks[i].path)
  {
    if IsPartnersActive(pathname) {
      assert pathname[1] == 'p';
    }
  }

  /** The header's open flags. */
  class HeaderState {
    var isMenuOpen: bool
    var isPartnersOpen: bool
    var isMobilePartnersOpen: bool

    /** All three start closed. */
    constructor ()
      ensures !isMenuOpen && !isPartnersOpen && !isMobilePartnersOpen
    {
      isMenuOpen, isPartnersOpen, isMobilePartnersOpen := false, false, false;
    }

    /** The mobile menu button flips the menu only. */
    method ToggleMenu()
      modifies this
      ensures isMenuOpen == !old(isMenuOpen)
      ensures isPartnersOpen == old(isPartnersOpen) && isMobilePartnersOpen == old(isMobilePartnersOpen)
    {
      isMenuOpen := !isMenuOpen;
    }

    /** Any link in the mobile menu (nav links, partner countries, Book Now) closes the menu only. */
    method MobileLinkClick()
      modifies this
      ensures !isMenuOpen
      ensures isPartnersOpen == old(isPartnersOpen) && isMobilePartnersOpen == old(isMobilePartnersOpen)
    {
      isMenuOpen := false;
    }

    /** The mobile Partners button flips the accordion only. */
    method ToggleMobilePartners()
      modifies this
      ensures isMobilePartnersOpen == !old(isMobilePartnersOpen)
      ensures isMenuOpen == old(isMenuOpen) && isPartnersOpen == old(isPartnersOpen)
    {
      isMobilePartnersOpen := !isMobilePartnersOpen;
    }

    /** Hovering the desktop Partners entry opens its dropdown. */
    method PartnersMouseEnter()
      modifies this
      ensures isPartnersOpen
      ensures isMenuOpen == old(isMenuOpen) && isMobilePartnersOpen == old(isMobilePartnersOpen)
    {
      isPartnersOpen := true;
    }

    /** Leaving the desktop Partners entry closes its dropdown. */
    method PartnersMouseLeave()
      modifies this
      ensures !isPartnersOpen
      ensures isMenuOpen == old(isMenuOpen) && isMobilePartnersOpen == old(isMobilePartnersOpen)
    {
      isPartnersOpen := false;
    }

    /** The partner links shown in the mobile menu: only while both the menu and the accordion are open. */
    function MobilePartnerLinks(): (links: seq<Link>)
      reads this
      ensures links == [] || links == PartnerCountries
      ensures links == PartnerCountries <==> isMenuOpen && isMobilePartnersOpen
    {
      if isMenuOpen && isMobilePartnersOpen then PartnerCountries else []
    }
  }
}
