/**
 * The hamburger menu of the front-end script: a click on the toggle button flips the
 * `is-open` class on the button and on the navigation together, and a click on any
 * navigation link removes it from both, so the two never disagree.
 */
module NavMenu {

  /** The `is-open` class on `.nav-toggle` and on `.main-nav`. */
  datatype MenuState = MenuState(toggleOpen: bool, navOpen: bool)

  predicate InSync(m: MenuState)
  {
    m.toggleOpen == m.navOpen
  }

  /** The toggle button's click handler. */
  function Toggle(m: MenuState): (r: MenuState)
    ensures r.toggleOpen == !m.toggleOpen && r.navOpen == !m.navOpen
    ensures InSync(m) ==> InSync(r)
  {
    MenuState(!m.toggleOpen, !m.navOpen)
  }

  /** A navigation link's click handler. */
  function CloseFromLink(m: MenuState): (r: MenuState)
    ensures !r.toggleOpen && !r.navOpen && InSync(r)
  {
    MenuState(false, false)
  }

  /** Apply a sequence of clicks: `true` for the toggle button, `false` for a link. */
  function Replay(m: MenuState, clicks: seq<bool>): MenuState
    decreases |clicks|
  {
    if clicks == [] then m
    else Replay(if clicks[0] then Toggle(m) else CloseFromLink(m), clicks[1..])
  }

  /** Clicks in any order keep the two classes equal, starting from a synchronised page. */
  lemma {:induction false} ClicksKeepSync(m: MenuState, clicks: seq<bool>)
    requires InSync(m)
    ensures InSync(Replay(m, clicks))
    decreases |clicks|
  {
    if clicks != [] {
      var m1 := if clicks[0] then Toggle(m) else CloseFromLink(m);
      ClicksKeepSync(m1, clicks[1..]);
    }
  }

  /** Toggling twice gets back where one started. */
  lemma ToggleTwice(m: MenuState)
    ensures Toggle(Toggle(m)) == m
  {
  }

  class Menu {
    var toggleOpen: bool
    var navOpen: bool

    function Current(): MenuState
      reads this
    {
      MenuState(toggleOpen, navOpen)
    }

    /** The page is served with the menu closed. */
    constructor ()
      ensures Current() == MenuState(false, false)
    {
      toggleOpen, navOpen := false, false;
    }

    method ToggleClicked()
      modifies this
      ensures Current() == Toggle(old(Current()))
    {
      toggleOpen := !toggleOpen;
      navOpen := !navOpen;
    }

    method LinkClicked()
      modifies this
      ensures Current() == CloseFromLink(old(Current()))
    {
      toggleOpen := false;
      navOpen := false;
    }
  }
}
