/**
 The mounted navigation bar component. Its fields are the component's state
 (the `useState` hooks and the window offset read through `useWindowScroll`)
 and the state of what it drives outside itself: the page-scroll lock, the
 nav element's "floating-nav" class, the audio element, the last tween target
 of the nav element, the popup timer and the count of popup entrance
 animations. Each event handler is a method; the effects that depend on what
 the handler changed run right after it, as helper methods.
 */
module Navbar {
  import S = NavbarSpec

  class NavbarState {
    // component state
    var openNavigation: bool
    var isAudioPlaying: bool
    var isIndicatorActive: bool
    var lastScrollY: int
    var isNavVisible: bool
    var showPopup: bool
    // the window offset, as `useWindowScroll` reports it
    var currentScrollY: int
    // what the component drives
    var scrollLocked: bool
    var floatingNav: bool
    var mediaPlaying: bool
    var navTween: S.Tween
    var popupTimer: S.Timer
    var popupEntrances: nat

    /** The state as a value, without the window offset. */
    function Snapshot(): S.Snapshot
      reads this
    {
      S.Snapshot(
        S.Menu(openNavigation, scrollLocked),
        S.Audio(isAudioPlaying, isIndicatorActive, mediaPlaying),
        S.ScrollView(lastScrollY, isNavVisible, floatingNav),
        navTween,
        S.Popup(showPopup, popupTimer, popupEntrances))
    }

    /** Every reachable state is consistent, and the scroll effect has caught
        up with the window offset. */
    ghost predicate Valid()
      reads this
    {
      S.Consistent(Snapshot()) && lastScrollY == currentScrollY
    }

    /** Mount, with the window at offset `initialScrollY`: the state hooks take
        their initial values and the effects run once. */
    constructor (initialScrollY: int)
      ensures Valid()
      ensures Snapshot() == S.Mount(initialScrollY) && currentScrollY == initialScrollY
    {
      openNavigation, isAudioPlaying, isIndicatorActive := false, false, false;
      lastScrollY, isNavVisible, showPopup := 0, true, false;
      currentScrollY := initialScrollY;
      scrollLocked, floatingNav, mediaPlaying := false, false, false;
      navTween := S.NavTween(true);
      popupTimer, popupEntrances := S.Pending, 0;  // the timer effect: setTimeout
      new;
      RunScrollEffect();
      if initialScrollY != 0 {
        RunScrollEffect();  // lastScrollY changed
        S.ScrollStepIdempotent(S.InitialScroll, initialScrollY);
      }
      RunNavTweenEffect();
      RunAudioEffect();   // pause()
      S.MountConsistent(initialScrollY);
    }

    /** The hamburger button. */
    method ToggleNavigation()
      requires Valid()
      modifies this
      ensures Valid() && currentScrollY == old(currentScrollY)
      ensures Snapshot() == S.Step(old(Snapshot()), S.MenuButtonClicked)
    {
      if openNavigation {
        openNavigation := false;
        scrollLocked := false;  // enablePageScroll()
      } else {
        openNavigation := true;
        scrollLocked := true;   // disablePageScroll()
      }
      RerenderNavClass();
      S.StepConsistent(old(Snapshot()), S.MenuButtonClicked);
    }

    /** A click on a menu link. */
    method HandleClick()
      requires Valid()
      modifies this
      ensures Valid() && currentScrollY == old(currentScrollY)
      ensures Snapshot() == S.Step(old(Snapshot()), S.NavItemClicked)
    {
      if !openNavigation {
        return;
      }
      scrollLocked := false;  // enablePageScroll()
      openNavigation := false;
      RerenderNavClass();
      S.StepConsistent(old(Snapshot()), S.NavItemClicked);
    }

    /** The re-render after `openNavigation` changed: the nav element's
        `className` (its `top-0`/`top-4` part) differs, so its `class`
        attribute is rewritten and "floating-nav" is gone. Called only by the
        menu handlers; on its own it does not keep `Valid()`. */
    method RerenderNavClass()
      modifies this
      ensures !floatingNav
      ensures Snapshot() == old(Snapshot()).(scroll := old(Snapshot()).scroll.(floatingNav := false))
      ensures currentScrollY == old(currentScrollY)
    {
      floatingNav := false;
    }

    /** The audio button: both flags flip, then the audio effect runs. */
    method ToggleAudioIndicator()
      requires Valid()
      modifies this
      ensures Valid() && currentScrollY == old(currentScrollY)
      ensures Snapshot() == S.Step(old(Snapshot()), S.AudioButtonClicked)
    {
      isAudioPlaying := !isAudioPlaying;
      isIndicatorActive := !isIndicatorActive;
      RunAudioEffect();
      S.StepConsistent(old(Snapshot()), S.AudioButtonClicked);
    }

    /** The effect on `isAudioPlaying`: play or pause the audio element.
        Called only by the constructor and `ToggleAudioIndicator`. */
    method RunAudioEffect()
      modifies this
      ensures mediaPlaying == isAudioPlaying
      ensures Snapshot() == old(Snapshot()).(audio := old(Snapshot()).audio.(mediaPlaying := isAudioPlaying))
      ensures currentScrollY == old(currentScrollY)
    {
      if isAudioPlaying {
        mediaPlaying := true;   // play()
      } else {
        mediaPlaying := false;  // pause()
      }
    }

    /** The window reports offset `y`: the scroll effect runs; since it stores
        the offset, it runs again if the stored offset changed; then the nav
        tween effect runs if the visibility decision changed. */
    method OnScroll(y: int)
      requires Valid()
      modifies this
      ensures Valid() && currentScrollY == y
      ensures Snapshot() == S.Step(old(Snapshot()), S.Scrolled(y))
    {
      var previousScrollY := lastScrollY;
      var wasVisible := isNavVisible;
      currentScrollY := y;
      RunScrollEffect();
      if lastScrollY != previousScrollY {
        RunScrollEffect();
        S.ScrollStepIdempotent(old(Snapshot()).scroll, y);
      }
      if isNavVisible != wasVisible {
        RunNavTweenEffect();
      }
      S.StepConsistent(old(Snapshot()), S.Scrolled(y));
    }

    /** The effect on `currentScrollY` and `lastScrollY`. Called only by the
        constructor and `OnScroll`; on its own it does not keep `Valid()`. */
    method RunScrollEffect()
      modifies this
      ensures currentScrollY == old(currentScrollY)
      ensures Snapshot() == old(Snapshot()).(scroll := S.ScrollStep(old(Snapshot()).scroll, currentScrollY))
    {
      if currentScrollY == 0 {
        isNavVisible := true;
        floatingNav := false;   // classList.remove("floating-nav")
      } else if currentScrollY > lastScrollY {
        isNavVisible := false;
        floatingNav := true;    // classList.add("floating-nav")
      } else if currentScrollY < lastScrollY {
        isNavVisible := true;
        floatingNav := true;    // classList.add("floating-nav")
      }
      lastScrollY := currentScrollY;
    }

    /** The effect on `isNavVisible`: start a tween of the nav element.
        Called only by the constructor and `OnScroll`, after a change of the
        decision. */
    method RunNavTweenEffect()
      modifies this
      ensures navTween == S.NavTween(isNavVisible)
      ensures Snapshot() == old(Snapshot()).(navTween := S.NavTween(isNavVisible))
      ensures currentScrollY == old(currentScrollY)
    {
      navTween := S.NavTween(isNavVisible);
    }

    /** The popup timer's callback. A cancelled or spent timer never calls it;
        calling it then changes nothing. */
    method FirePopupTimer()
      requires Valid()
      modifies this
      ensures Valid() && currentScrollY == old(currentScrollY)
      ensures Snapshot() == S.Step(old(Snapshot()), S.PopupTimerElapsed)
    {
      if popupTimer == S.Pending {
        popupTimer := S.Fired;
        if !showPopup {
          showPopup := true;
          RunPopupEntranceEffect();
        }
      }
      S.StepConsistent(old(Snapshot()), S.PopupTimerElapsed);
    }

    /** The effect on `showPopup`: when it is set, start the entrance tween.
        Called only by `FirePopupTimer` and `DismissPopup`, after `showPopup`
        changed; run on its own while the popup is up it would count a second
        entrance and break `Valid()`. */
    method RunPopupEntranceEffect()
      modifies this
      ensures popupEntrances == if showPopup then old(popupEntrances) + 1 else old(popupEntrances)
      ensures Snapshot() == old(Snapshot()).(popup := old(Snapshot()).popup.(entrances := popupEntrances))
      ensures currentScrollY == old(currentScrollY)
    {
      if showPopup {
        popupEntrances := popupEntrances + 1;
      }
    }

    /** The popup's X button. Clearing the flag sets off the entrance effect,
        which does nothing for a cleared flag. */
    method DismissPopup()
      requires Valid()
      modifies this
      ensures Valid() && currentScrollY == old(currentScrollY)
      ensures Snapshot() == S.Step(old(Snapshot()), S.PopupDismissed)
    {
      var wasShown := showPopup;
      showPopup := false;
      if wasShown {
        RunPopupEntranceEffect();
      }
      S.StepConsistent(old(Snapshot()), S.PopupDismissed);
    }

    /** Unmount: the timer effect's cleanup clears a pending timer. */
    method Unmount()
      requires Valid()
      modifies this
      ensures Valid() && currentScrollY == old(currentScrollY)
      ensures Snapshot() == S.Step(old(Snapshot()), S.Unmounted)
    {
      if popupTimer == S.Pending {
        popupTimer := S.Cancelled;  // clearTimeout(timer)
      }
      S.StepConsistent(old(Snapshot()), S.Unmounted);
    }

    /** Whether the popup is on screen, on a viewport that is or is not as
        wide as the `md` breakpoint, once the bar's last tween has finished. */
    function PopupVisible(wideViewport: bool): (r: bool)
      reads this
      ensures r <==> showPopup && !openNavigation && wideViewport && S.Reveals(navTween)
    {
      S.PopupVisible(showPopup, openNavigation, wideViewport, navTween)
    }
  }

  /** Open the menu before the popup timer fires: the popup comes up but is
      hidden while the menu is open; once the menu is closed it is on screen
      on a wide viewport, and never on a narrow one; scrolling down hides it
      with the bar, scrolling up brings both back. */
  method PopupUnderOpenMenu()
  {
    var nav := new NavbarState(0);
    nav.ToggleNavigation();
    assert nav.scrollLocked;
    nav.FirePopupTimer();
    assert nav.showPopup && !nav.PopupVisible(true) && !nav.PopupVisible(false);
    nav.HandleClick();
    assert !nav.scrollLocked && nav.PopupVisible(true) && !nav.PopupVisible(false);
    assert nav.popupEntrances == 1;
    nav.OnScroll(100);
    assert nav.showPopup && !nav.PopupVisible(true);
    nav.OnScroll(60);
    assert nav.PopupVisible(true);
  }

  /** Scroll down, then open the menu: the re-render drops "floating-nav";
      scrolling on brings it back. */
  method FloatingAcrossMenuToggle()
  {
    var nav := new NavbarState(0);
    nav.OnScroll(50);
    assert nav.floatingNav && !nav.isNavVisible;
    nav.ToggleNavigation();
    assert !nav.floatingNav && nav.lastScrollY == 50;
    nav.OnScroll(50);
    assert !nav.floatingNav;
    nav.OnScroll(40);
    assert nav.floatingNav && nav.isNavVisible;
  }

  /** Audio on, then off; unmount before the timer fires. */
  method AudioThenUnmount()
  {
    var nav := new NavbarState(0);
    nav.ToggleAudioIndicator();
    assert nav.mediaPlaying && nav.isIndicatorActive;
    nav.ToggleAudioIndicator();
    assert !nav.mediaPlaying && !nav.isIndicatorActive;
    nav.Unmount();
    nav.FirePopupTimer();
    assert !nav.showPopup && nav.popupEntrances == 0;
  }
}
