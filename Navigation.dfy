/** The site header (app/components/Navigation.tsx): the `scrolled` flag, the mobile
    menu toggle, `closeMenu`, and the body scroll lock kept in
    `document.body.style.overflow`, including its release on teardown. */
module Navigation {

  /** `window.scrollY > window.innerHeight * 0.8`, in whole pixels and scaled by 5 so no
      fraction is needed; it agrees with the source's comparison on real numbers. */
  function IsScrolled(scrollY: int, innerHeight: int): (r: bool)
    ensures r <==> scrollY as real > innerHeight as real * 0.8
  {
    5 * scrollY > 4 * innerHeight
  }

  /** The flag only switches on further down the page: it is monotone in scrollY. */
  lemma IsScrolledMonotone(y1: int, y2: int, innerHeight: int)
    requires y1 <= y2 && IsScrolled(y1, innerHeight)
    ensures IsScrolled(y2, innerHeight)
  {
  }

  /** `document.body.style`: the one page-wide value this component writes. */
  class Body {
    var overflow: string

    constructor (overflow: string)
      ensures this.overflow == overflow
    {
      this.overflow := overflow;
    }
  }

  /** The overflow value the menu effect writes for a menu state. */
  function OverflowFor(menuOpen: bool): (s: string)
    ensures s == "hidden" <==> menuOpen
    ensures !menuOpen ==> s == ""
  {
    if menuOpen then "hidden" else ""
  }

  datatype Color = White | Black

  /** The logo (and the three bars of the menu button): white while the menu is open,
      otherwise black exactly when the page is scrolled. */
  function LogoColor(menuOpen: bool, scrolled: bool): (c: Color)
    ensures menuOpen ==> c == White
    ensures !menuOpen ==> (c == Black <==> scrolled)
  {
    if menuOpen then White else if scrolled then Black else White
  }

  /** The menu button's `aria-label` and `aria-expanded`. */
  datatype MenuButton = MenuButton(ariaLabel: string, ariaExpanded: bool)

  function MenuButtonFor(menuOpen: bool): (b: MenuButton)
    ensures b.ariaExpanded == menuOpen
    ensures b.ariaLabel == "Fermer le menu" <==> menuOpen
    ensures !menuOpen ==> b.ariaLabel == "Ouvrir le menu"
  {
    MenuButton(if menuOpen then "Fermer le menu" else "Ouvrir le menu", menuOpen)
  }

  class Navigation {
    var scrolled: bool
    var isMenuOpen: bool
    var mounted: bool
    const body: Body

    /** While mounted, the body is locked exactly when the menu is open. */
    ghost predicate Valid()
      reads this, body
    {
      mounted ==> body.overflow == OverflowFor(isMenuOpen)
    }

    /** The first render: not scrolled, menu closed. */
    constructor (body: Body)
      ensures !scrolled && !isMenuOpen && !mounted && this.body == body
      ensures Valid()
    {
      scrolled := false;
      isMenuOpen := false;
      mounted := false;
      this.body := body;
    }

    /** The mount effects: the scroll handler runs once, and the menu effect writes
        the overflow for the (closed) menu. */
    method Mount(scrollY: int, innerHeight: int)
      requires !mounted
      modifies this`scrolled, this`mounted, body
      ensures mounted && Valid()
      ensures scrolled == IsScrolled(scrollY, innerHeight)
    {
      body.overflow := OverflowFor(isMenuOpen);
      mounted := true;
      HandleScroll(scrollY, innerHeight);
    }

    /** `handleScroll`, run on every scroll event. */
    method HandleScroll(scrollY: int, innerHeight: int)
      requires Valid()
      modifies this`scrolled
      ensures Valid()
      ensures scrolled == IsScrolled(scrollY, innerHeight)
    {
      scrolled := IsScrolled(scrollY, innerHeight);
    }

    /** The menu effect after `isMenuOpen` changed: its cleanup clears the lock, then it
        sets the lock for the new state. */
    method MenuEffect()
      requires mounted
      modifies body
      ensures Valid()
    {
      body.overflow := "";
      body.overflow := OverflowFor(isMenuOpen);
    }

    /** The menu button's `onClick`. */
    method ToggleMenu()
      requires mounted && Valid()
      modifies this`isMenuOpen, body
      ensures Valid()
      ensures isMenuOpen == !old(isMenuOpen)
      ensures body.overflow == (if isMenuOpen then "hidden" else "")
    {
      isMenuOpen := !isMenuOpen;
      MenuEffect();
    }

    /** `closeMenu`, used by the logo and by every overlay link: always ends closed and
        unlocked; on a closed menu it changes nothing. */
    method CloseMenu()
      requires mounted && Valid()
      modifies this`isMenuOpen, body
      ensures Valid()
      ensures !isMenuOpen && body.overflow == ""
      ensures !old(isMenuOpen) ==> body.overflow == old(body.overflow)
    {
      if isMenuOpen {
        isMenuOpen := false;
        MenuEffect();
      }
    }

    /** Unmount: the listener goes and the lock is released, even with the menu open. */
    method Teardown()
      requires mounted
      modifies this`mounted, body
      ensures !mounted && body.overflow == ""
      ensures isMenuOpen == old(isMenuOpen)
    {
      body.overflow := "";
      mounted := false;
    }

    /** Toggling twice restores the menu state and the lock. */
    method ToggleTwice()
      requires mounted && Valid()
      modifies this`isMenuOpen, body
      ensures Valid()
      ensures isMenuOpen == old(isMenuOpen) && body.overflow == old(body.overflow)
    {
      ToggleMenu();
      ToggleMenu();
    }
  }
}
