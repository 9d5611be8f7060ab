/** The site header: navigation links and the mobile menu. */
module Header {

  const NavItems: seq<string> := ["Home", "Artists", "onboard", "dashboard"]

  predicate IsUpper(c: char) {
    'A' <= c <= 'Z'
  }

  function LowerChar(c: char): (r: char)
    ensures !IsUpper(r)
    ensures !IsUpper(c) ==> r == c
    ensures IsUpper(c) ==> r as int == c as int + 32
  {
    if IsUpper(c) then ((c as int) + 32) as char else c
  }

  /** `toLowerCase` on ASCII letters: every upper-case letter lowered, nothing else touched. */
  function ToLower(s: string): (r: string)
    ensures |r| == |s|
    ensures forall i :: 0 <= i < |r| ==> !IsUpper(r[i])
    ensures forall i :: 0 <= i < |s| && !IsUpper(s[i]) ==> r[i] == s[i]
    ensures forall i :: 0 <= i < |s| && IsUpper(s[i]) ==> r[i] as int == s[i] as int + 32
  {
    seq(|s|, i requires 0 <= i < |s| => LowerChar(s[i]))
  }

  /** The link target of a navigation item: the root for "Home", the lowered item name otherwise. */
  function Href(item: string): (h: string)
    ensures |h| > 0 && h[0] == '/'
    ensures item == "Home" ==> h == "/"
    ensures item != "Home" ==> h == "/" + ToLower(item) && |h| == |item| + 1
  {
    if item == "Home" then "/" else "/" + ToLower(item)
  }

  /** A string without upper-case letters is its own lower-case form. */
  lemma ToLowerWithoutUpper(s: string)
    requires forall i :: 0 <= i < |s| ==> !IsUpper(s[i])
    ensures ToLower(s) == s
  {
  }

  lemma HrefArtists()
    ensures Href("Artists") == "/artists"
  {
    var lowered := ToLower("Artists");
    assert lowered[0] == 'a';
    forall i | 1 <= i < 7 ensures lowered[i] == "artists"[i] {
      assert !IsUpper("Artists"[i]);
    }
  }

  lemma HrefOnboard()
    ensures Href("onboard") == "/onboard"
  {
    ToLowerWithoutUpper("onboard");
  }

  lemma HrefDashboard()
    ensures Href("dashboard") == "/dashboard"
  {
    ToLowerWithoutUpper("dashboard");
  }

  /** One navigation link: its text and target. */
  datatype Link = Link(text: string, href: string)

  function LinksOf(items: seq<string>): (r: seq<Link>)
    ensures |r| == |items|
    ensures forall i :: 0 <= i < |items| ==> r[i] == Link(items[i], Href(items[i]))
  {
    seq(|items|, i requires 0 <= i < |items| => Link(items[i], Href(items[i])))
  }

  /** The desktop navigation bar: one link per item, in order, each to an absolute path. */
  function DesktopNav(): (r: seq<Link>)
    ensures |r| == |NavItems|
    ensures forall i :: 0 <= i < |r| ==> r[i].text == NavItems[i] && |r[i].href| > 0 && r[i].href[0] == '/'
  {
    LinksOf(NavItems)
  }

  /** The mobile navigation: rendered only while the menu is open. */
  function MobileNav(isMenuOpen: bool): (r: seq<Link>)
    ensures !isMenuOpen ==> r == []
  {
    if isMenuOpen then LinksOf(NavItems) else []
  }

  /** The desktop bar links the four items, in order, to "/", "/artists", "/onboard" and "/dashboard". */
  lemma NavHrefs()
    ensures DesktopNav() == [Link("Home", "/"), Link("Artists", "/artists"),
                             Link("onboard", "/onboard"), Link("dashboard", "/dashboard")]
  {
    HrefArtists();
    HrefOnboard();
    HrefDashboard();
  }

  /** Both menus lead to the same places, in the same order. */
  lemma MenusAgree()
    ensures MobileNav(true) == DesktopNav()
    ensures |DesktopNav()| == |NavItems|
    ensures forall i :: 0 <= i < |NavItems| ==> DesktopNav()[i].href == Href(NavItems[i])
    ensures forall l :: l in DesktopNav() ==> |l.href| > 0 && l.href[0] == '/'
  {
  }

  /** The header component's menu state. */
  class HeaderState {
    var isMenuOpen: bool

    constructor ()
      ensures !isMenuOpen
    {
      isMenuOpen := false;
    }

    /** The menu button. */
    method ToggleMenu()
      modifies this
      ensures isMenuOpen == !old(isMenuOpen)
    {
      isMenuOpen := !isMenuOpen;
    }

    /** A click on a mobile link closes the menu. */
    method ClickMobileLink()
      modifies this
      ensures !isMenuOpen
      ensures MobileNav(isMenuOpen) == []
    {
      isMenuOpen := false;
    }
  }

  /** Pressing the menu button twice leaves the menu as it was. */
  method ToggleTwice(h: HeaderState)
    modifies h
    ensures h.isMenuOpen == old(h.isMenuOpen)
  {
    h.ToggleMenu();
    h.ToggleMenu();
  }
}
