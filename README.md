# Navbar: a verified model of the navigation bar component

The component is a website navigation bar. It holds a few flags and drives a
few things outside itself:

- **Scroll tracker.** On every window offset it decides whether the bar is
  visible and whether the nav element has the `floating-nav` class. Then it
  stores the offset.
- **Visibility animator.** When that decision changes, it starts a tween of
  the bar to `y = 0, opacity = 1` (visible) or `y = -100, opacity = 0`
  (hidden).
- **Navigation toggle.** The hamburger button opens and closes the menu. It
  takes the page-scroll lock on opening and releases it on closing. A click
  on a menu link closes an open menu and releases the lock.
- **Audio control.** The audio button flips the playing flag and the
  indicator flag together. An effect then calls `play()` or `pause()` on the audio element.
- **Popup scheduler.** A one-shot timer set at mount shows a hint popup, and
  an entrance tween starts when the popup comes up. The X button hides it.
  Unmounting clears a timer that has not fired. While the menu is open the
  popup's own class is `hidden`, but the popup is not dismissed. The popup
  sits inside the menu overlay, which is displayed only while the menu is
  open or on a viewport at least as wide as the `md` breakpoint. Both sit
  inside the nav container, so when the bar is tweened away the popup goes
  with it.
- **Menu anchors.** Four fixed labels, each linked to `"#"` plus the label in
  lower case.

The project has three modules:

- `NavAnchors` (`anchors.dfy`) is the label-to-href mapping, as functions.
- `NavbarSpec` (`navbar_spec.dfy`) describes the component as a value.
  - `Snapshot` holds the menu and scroll lock, the audio flags and audio
    element, the scroll state, the nav's last tween target, and the popup.
  - There is one function per event. `Step` dispatches an `Event` to it, and
    `Run` applies a sequence of events.
  - `Mount(y)` is the state right after mount, where `y` is the window offset
    at that time.
  - `Consistent` is the invariant. `StepConsistent` and `RunConsistent`
    prove that every reachable state keeps it.
- `Navbar` (`navbar.dfy`) is the component as a class, `NavbarState`.
  - Its fields are the state hooks and the external state they drive.
  - There is one method per event handler. Each React effect is a helper
    method, run synchronously right after the state it depends on changes.
  - Every handler keeps `Valid()` and ensures
    `Snapshot() == Step(old(Snapshot()), e)`, so the lemmas of `NavbarSpec`
    apply to the class.

External collaborators become fields:

- the `scroll-lock` library becomes `scrollLocked`;
- whether the nav element's class list holds `floating-nav` becomes
  `floatingNav`. The scroll effect adds and removes that class by hand. The
  element's `className` also depends on the menu flag (`top-0` or `top-4`).
  So the re-render after the menu opens or closes rewrites the `class`
  attribute and drops `floating-nav`. `WithMenu` and the class's
  `RerenderNavClass` model this drop;
- the `<audio>` element becomes `mediaPlaying`, which records whether the
  last call on it was `play()` (rather than `pause()`);
- the GSAP nav tween becomes its target values, `navTween`;
- the GSAP popup tween becomes a count of entrance animations, `popupEntrances`;
- the `setTimeout` handle becomes `popupTimer`, which is `Pending`, `Fired` or `Cancelled`.

The offset that `useWindowScroll` reports is the field `currentScrollY`. It
is also a parameter of the constructor (the offset at mount) and of
`OnScroll` (each new offset).

The scroll effect depends on `lastScrollY`, and it writes `lastScrollY`
itself, so React runs it a second time after every offset change. The class
performs that second run literally. `ScrollStepIdempotent` is why it changes
nothing.

Unmounting clears the popup timer. It does not release the scroll lock. If
the component is unmounted while the menu is open, page scrolling stays
disabled. The model keeps this as the code has it, and
`UnmountKeepsScrollLock` states it.

Modelling choices:

- The zero test comes first (`Navbar.jsx:43`). So an offset of 0 shows the
  bar and removes `floating-nav`, even when the window moved up from a
  positive offset.
- Because the menu's re-render drops `floating-nav`, the class is not always
  set away from the top. The invariant therefore says only that it is never
  set at the top (`ScrollReachable`). For offsets alone, the stronger "set
  exactly away from the top" holds (`ScrollSettled`, `ScrollRunSettles`,
  `ScrollingFromMountSettles`).
- The popup's X button can only be reached while the popup is rendered. The
  model lets the dismiss event happen at any time. Dismissing a popup that is
  not up just leaves the flag false, and the timer can still bring it up
  later. `DismissIsFinal` covers the case the interface allows: dismissing a
  popup that is up.

## Model

| member | source | states |
|---|---|---|
| NavAnchors.LowerChar | src/components/Navbar.jsx:99 | the result is never an ASCII capital; capitals become the small letter at the same alphabet position; every other character is kept |
| NavAnchors.ToLowerCase | src/components/Navbar.jsx:99 | same length as the input, and each character is the lower-cased input character at the same place |
| NavAnchors.Href | src/components/Navbar.jsx:99 | an href is `#` followed by the label lower-cased character by character. So it is one character longer than the label and has no ASCII capital after the `#` |
| NavAnchors.Hrefs | src/components/Navbar.jsx:98-99 | the mapped list has one href per label, in the same order, each the href of the label at that position |
| NavAnchors.NavHrefs | src/components/Navbar.jsx:7 | the menu's anchors are exactly `#about`, `#features`, `#story`, `#contact`, in the order of the labels |
| NavAnchors.NavHrefsDistinct | src/components/Navbar.jsx:7 | no two menu links share an anchor |
| NavbarSpec.ScrollStep | src/components/Navbar.jsx:42-54 | the offset is always stored. At offset 0 the bar is visible and not floating, whatever came before. At a nonzero offset that moved, the bar floats and is visible exactly when the offset went down (scrolling up). At a nonzero offset equal to the stored one, visibility and class are unchanged |
| NavbarSpec.ScrollStepIdempotent | src/components/Navbar.jsx:42-54 | applying the same offset twice gives the same state as once, so the effect's re-run after it stores the offset is harmless |
| NavbarSpec.ScrollStepSettles | src/components/Navbar.jsx:42-54 | the step keeps "floating-nav set exactly when the stored offset is not 0, and visible at 0" |
| NavbarSpec.ScrollRunSettles | src/components/Navbar.jsx:42-54 | after any stream of offsets from a settled state the state is still settled, and the last offset is the stored one |
| NavbarSpec.NavTween | src/components/Navbar.jsx:56-62 | the target reveals the bar exactly when it is visible. The opacity is 0 or 1, and the bar is raised by exactly 100 when transparent and in place when opaque |
| NavbarSpec.ToggleNavigation | src/components/Navbar.jsx:26-34 | the menu flips, and afterwards the scroll lock is held exactly when the menu is open |
| NavbarSpec.HandleClick | src/components/Navbar.jsx:36-40 | on a closed menu nothing changes; on an open menu the menu ends closed and unlocked |
| NavbarSpec.HandleClickIdempotent | src/components/Navbar.jsx:36-40 | two menu-link clicks act as one |
| NavbarSpec.ToggleNavigationTwice | src/components/Navbar.jsx:26-34 | opening then closing (or the reverse) restores a state whose lock matches its menu |
| NavbarSpec.ToggleAudioIndicator | src/components/Navbar.jsx:21-24 | both flags flip, and after the audio effect the last call on the element was `play()` exactly when the playing flag is set |
| NavbarSpec.ToggleAudioIndicatorTwice | src/components/Navbar.jsx:21-24 | when the audio element follows the playing flag, two clicks of the audio button restore the audio state |
| NavbarSpec.FirePopupTimer | src/components/Navbar.jsx:73-75 | afterwards the timer is spent. A cancelled or spent timer changes nothing. The popup is up if it was up or the timer was pending, and the entrance animation starts exactly when the flag goes from false to true |
| NavbarSpec.PopupView | src/components/Navbar.jsx:116-117 | the popup's own class is `flex` iff `showPopup && !openNavigation`; the popup is absent from the markup iff `!showPopup` |
| NavbarSpec.OverlayShown | src/components/Navbar.jsx:95-96 | on a wide viewport the overlay is displayed whatever the menu (`md:flex`); on a narrow one exactly while the menu is open |
| NavbarSpec.PopupVisible | src/components/Navbar.jsx:56-117 | the popup is on screen exactly when `showPopup` holds, the menu is closed, the viewport is at least the `md` breakpoint wide (so the overlay is displayed), and the nav container around it was last tweened to be shown |
| NavbarSpec.PopupVisibleFollowsBar | src/components/Navbar.jsx:56-117 | in every reachable state the popup is on screen exactly when it is up, the menu is closed, the viewport is wide and the bar is visible; a hidden bar hides the popup |
| NavbarSpec.PopupNeverVisibleWhenNarrow | src/components/Navbar.jsx:95-117 | on a narrow viewport the popup is never on screen, whatever the state |
| NavbarSpec.Mount | src/components/Navbar.jsx:10-77 | right after mount the menu is closed and unlocked, the audio off and paused, the initial offset stored, the bar hidden only for an offset below the top and floating unless at the top, the tween matching that decision, the popup down with its timer pending and no entrance yet |
| NavbarSpec.Step | src/components/Navbar.jsx:21-89 | each event changes only its own part: the menu on the two menu clicks, which also drop `floating-nav` when the menu flag changes and otherwise leave the scroll state alone; the audio on the audio button; the scroll state on a new offset (with the tween catching up with the new decision); the popup on the timer, its X button and unmount. The audio button, the timer, the X button and unmount leave the scroll state unchanged, and no event but a new offset starts a tween |
| NavbarSpec.DismissPopup | src/components/Navbar.jsx:119 | the popup is down afterwards; the timer and the entrance count are unchanged |
| NavbarSpec.CancelPopupTimer | src/components/Navbar.jsx:76 | a pending timer becomes cancelled, a spent or cancelled one is kept, so no timer is pending afterwards; the popup flag and the entrance count are unchanged |
| NavbarSpec.ScrollEventsRunScrollEffect | src/components/Navbar.jsx:42-54 | on a sequence of offsets alone, the component's scroll state is the scroll effect run over those offsets |
| NavbarSpec.ScrollingFromMountSettles | src/components/Navbar.jsx:42-54 | scrolling alone after mount leaves `floating-nav` set exactly when the last offset is not the top, the bar visible at the top, and the last offset stored |
| NavbarSpec.MountConsistent | src/components/Navbar.jsx:10-19 | the state right after mount meets the invariant: menu closed and unlocked, audio off and paused, scroll settled, tween matching the decision, popup down with its timer pending |
| NavbarSpec.StepConsistent | src/components/Navbar.jsx:10-89 | every event preserves the invariant. The lock is held iff the menu is open. The audio flags are equal and the element follows them. `floating-nav` is never set at offset 0, and the bar is visible at 0. The tween target matches the decision. The popup is up only after the timer fired, and there is one entrance animation iff the timer fired |
| NavbarSpec.RunConsistent | src/components/Navbar.jsx:10-89 | any sequence of events preserves that invariant |
| NavbarSpec.ScrollLockMatchesMenu | src/components/Navbar.jsx:26-40 | after any events since mount the scroll lock is held exactly when the menu is open, so closing the menu never leaves scrolling disabled |
| NavbarSpec.AudioInLockStep | src/components/Navbar.jsx:21-24 | after any events since mount the indicator flag equals the playing flag, and the last call on the audio element was `play()` exactly when it is set |
| NavbarSpec.PopupEntranceAtMostOnce | src/components/Navbar.jsx:72-86 | after any events since mount the entrance animation has started at most once, and exactly once if the popup is up |
| NavbarSpec.ScrolledIdempotent | src/components/Navbar.jsx:42-62 | the same offset delivered twice in a row, together with the tween effect, acts as once |
| NavbarSpec.EventsTouchOnlyTheirPart | src/components/Navbar.jsx:21-40 | the audio button leaves menu, scroll, tween and popup unchanged. The hamburger, and a link click on an open menu, leave audio, tween and popup unchanged and change the scroll state only by dropping `floating-nav`. A link click on a closed menu leaves the scroll state unchanged |
| NavbarSpec.MovementRestoresFloating | src/components/Navbar.jsx:46-51 | a scroll movement to a nonzero offset sets `floating-nav` again, including after a menu change dropped it |
| NavbarSpec.WithMenu | src/components/Navbar.jsx:89 | a new menu state changes only the menu and `floating-nav`. `floating-nav` survives only if it was set and the menu flag did not change |
| NavbarSpec.PopupShownOnlyByTimer | src/components/Navbar.jsx:72-77 | the popup goes from down to up only when the timer fires while still pending |
| NavbarSpec.PopupStaysDown | src/components/Navbar.jsx:72-77 | once the timer has fired or been cancelled, a popup that is down stays down under any events |
| NavbarSpec.DismissIsFinal | src/components/Navbar.jsx:119 | dismissing a popup that is up is final: no later events bring it back |
| NavbarSpec.NoPopupAfterUnmount | src/components/Navbar.jsx:76 | after unmount no event, including a late timer, brings the popup up |
| NavbarSpec.UnmountKeepsScrollLock | src/components/Navbar.jsx:72-77 | unmount cancels a pending timer and leaves the menu and the scroll lock as they were |
| NavbarSpec.MenuSuppressesPopup | src/components/Navbar.jsx:116-117 | opening the menu sets the popup's class to `hidden` and takes it off screen, without dismissing it. Closing the menu again restores the whole state except `floating-nav`, which is dropped. The popup's class is `flex` again, and it is on screen again exactly on a wide viewport while the bar is visible |
| Navbar.NavbarState.constructor | src/components/Navbar.jsx:10-19 | mounting at a given offset gives `Mount(offset)` and the invariant holds |
| Navbar.NavbarState.ToggleNavigation | src/components/Navbar.jsx:26-34 | the new state is the menu-button step of the old one, including the re-render that drops `floating-nav`; the invariant is kept |
| Navbar.NavbarState.HandleClick | src/components/Navbar.jsx:36-40 | the new state is the menu-link step of the old one: no change when the menu is closed, otherwise closed, unlocked and without `floating-nav` after the re-render. The invariant is kept |
| Navbar.NavbarState.RerenderNavClass | src/components/Navbar.jsx:89 | the rewritten `class` attribute no longer holds `floating-nav`; nothing else changes |
| Navbar.NavbarState.ToggleAudioIndicator | src/components/Navbar.jsx:21-24 | the new state is the audio-button step of the old one, and the invariant is kept |
| Navbar.NavbarState.RunAudioEffect | src/components/Navbar.jsx:64-70 | the last call on the audio element is `play()` exactly when `isAudioPlaying` holds; nothing else changes |
| Navbar.NavbarState.OnScroll | src/components/Navbar.jsx:42-54 | running the scroll effect, its re-run and the tween effect gives the scroll step of the old state, and the invariant is kept |
| Navbar.NavbarState.RunScrollEffect | src/components/Navbar.jsx:42-54 | the scroll state becomes `ScrollStep` of the old one for the current offset; nothing else changes |
| Navbar.NavbarState.RunNavTweenEffect | src/components/Navbar.jsx:56-62 | the nav's tween target becomes the one for the current decision; nothing else changes |
| Navbar.NavbarState.FirePopupTimer | src/components/Navbar.jsx:73-75 | the new state is the timer step of the old one: a pending timer fires once, and a cancelled or spent one does nothing |
| Navbar.NavbarState.RunPopupEntranceEffect | src/components/Navbar.jsx:79-86 | the entrance count goes up by one exactly when the popup is up; nothing else changes |
| Navbar.NavbarState.DismissPopup | src/components/Navbar.jsx:119 | the new state is the dismiss step of the old one, and the invariant is kept |
| Navbar.NavbarState.Unmount | src/components/Navbar.jsx:76 | the new state is the unmount step of the old one (a pending timer is cancelled), and the invariant is kept |
| Navbar.NavbarState.PopupVisible | src/components/Navbar.jsx:56-117 | the popup is on screen exactly when `showPopup` holds, the menu is closed, the viewport is wide and the nav's last tween target shows the bar |

## Left out

- Tween execution is not modelled: easing, the durations 0.2 s and 0.5 s,
  and how GSAP combines overlapping tweens. The nav tween is its integer end
  values. The popup entrance tween is only counted; its from-values
  (`opacity 0, x 20`) and end values are not modelled.
- The 3000 ms delay is not modelled, because the model has no clock. The
  timer firing is an event, `PopupTimerElapsed`, and it can come at any
  point of an event sequence.
- The `<audio>` element is not modelled: `mediaPlaying` records whether
  `play()` or `pause()` was called last. `play()` is asynchronous, and a
  rejected `play()` (the file fails to load, or the browser refuses
  playback) leaves the element paused while `isAudioPlaying` is set; that
  is not modelled, nor is the `loop` attribute.
- The internals of `scroll-lock` are not modelled. The lock is one boolean,
  and repeated calls to `disablePageScroll` or `enablePageScroll` are not
  counted.
- How `useWindowScroll` samples or coalesces offsets is not modelled. Each
  reported offset is one `Scrolled` event.
- React's render, batching and effect scheduling are not modelled, apart
  from the one re-render with a visible effect: the rewritten `class`
  attribute of the nav element when the menu changes. Each
  handler's setters apply at once, then the effects whose dependencies
  changed run in order. A handler always reads the current state, never one
  captured by an earlier render.
- The model does not stop events from arriving after unmount, and so does not
  model React ignoring state updates on an unmounted component. The timer,
  the only event that could fire late, is shown harmless by
  `NoPopupAfterUnmount`.
- Scroll offsets are integers. `window.scrollY` is a double, but no branch of
  the scroll effect depends on an offset being a whole number.
- NavAnchors.ToLowerCase and NavAnchors.LowerChar: only ASCII capitals are lowered. JavaScript's
  `toLowerCase` also lowers other Unicode letters, but the four labels are
  ASCII.
- Markup and styling are not modelled beyond three things: the popup's own
  `hidden`/`flex` class, the overlay's display, and the effect of the
  `top-0`/`top-4` choice on `floating-nav`. The logo, `MenuSvg` and the
  indicator bars' `animationDelay` strings are not modelled.
- NavbarSpec.PopupView: gives the popup's own class only. Whether the popup
  is on screen also depends on the overlay of `Navbar.jsx:95`, which is `hidden`
  while the menu is closed unless the viewport is wide. `PopupVisible` adds
  the overlay, with the viewport width as a boolean, and the nav container's
  tween. The `md` breakpoint itself and resizing are not modelled.
- NavbarSpec.PopupVisible and Navbar.NavbarState.PopupVisible: judge the bar
  by its last tween target, that is, once the 0.2 s tween has finished. While
  the tween runs the popup fades with the bar; that is not modelled.
