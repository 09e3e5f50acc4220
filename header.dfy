/** The site header's mobile menu: a hamburger button opens a panel of
    navigation links; the panel's links and its close button shut it again. */
module SiteHeader {
  import opened JsValues

  /** The links of the mobile panel, in order. */
  const MenuItems: seq<string> :=
    ["Home", "Government", "News", "Service", "Programs", "Economy", "Gallery", "Resource", "Contact"]

  /** What the menu state decides: the class list of the hamburger icon, and
      the mobile panel's links when the panel is rendered at all. */
  datatype HeaderView = HeaderView(hamburgerClasses: seq<string>, mobilePanel: Option<seq<string>>)

  /** The header for a given menu state. */
  function RenderHeader(isMenuOpen: bool): (v: HeaderView)
    ensures v.mobilePanel.Some? <==> isMenuOpen
    ensures v.mobilePanel.Some? ==> v.mobilePanel.value == MenuItems
    ensures "hidden" in v.hamburgerClasses <==> isMenuOpen
    ensures "h-6" in v.hamburgerClasses && "w-6" in v.hamburgerClasses
  {
    HeaderView((if isMenuOpen then ["hidden"] else []) + ["h-6", "w-6"],
               if isMenuOpen then Some(MenuItems) else None)
  }

  class Header {
    var isMenuOpen: bool

    constructor ()
      ensures !isMenuOpen
    {
      isMenuOpen := false;
    }

    /** `toggleMenu`, wired to the hamburger button. */
    method ToggleMenu()
      modifies this
      ensures isMenuOpen == !old(isMenuOpen)
    {
      isMenuOpen := !isMenuOpen;
    }

    /** A click on link `item` of the mobile panel, which exists only while
        the menu is open; the link's handler is `toggleMenu`. */
    method SelectMenuItem(item: nat)
      requires isMenuOpen && item < |MenuItems|
      modifies this
      ensures !isMenuOpen
    {
      ToggleMenu();
    }

    /** The close button of the mobile panel, also `toggleMenu`. */
    method PressClose()
      requires isMenuOpen
      modifies this
      ensures !isMenuOpen
    {
      ToggleMenu();
    }

    /** What the header currently renders. */
    function View(): HeaderView
      reads this
    {
      RenderHeader(isMenuOpen)
    }
  }

  /** Two toggles restore the menu state and so the rendered header. */
  method ToggleTwice(h: Header)
    modifies h
    ensures h.isMenuOpen == old(h.isMenuOpen)
    ensures h.View() == old(h.View())
  {
    h.ToggleMenu();
    h.ToggleMenu();
  }
}
