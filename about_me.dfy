/**
 * The social icons of the About section (components/AboutMe.tsx): on a
 * desktop a tap opens the icon's link; on a phone the first tap only lights
 * the icon up, a second tap on the lit icon opens the link, and a timer
 * switches the light off again. Opening a link (`window.open`) is an output
 * of `Tap`; the browser's timers are the set `pending` of handles, and a
 * timer firing is the event `ResetTimerFires`.
 */
module AboutMe {
  import opened Wrappers

  /** `window.innerWidth < 640` is a phone. */
  const MobileBreakpoint: int := 640

  predicate IsMobile(innerWidth: int) {
    innerWidth < MobileBreakpoint
  }

  class IconTapper {
    /** `activeIcon`: the lit icon's name, if any. */
    var activeIcon: Option<string>
    /** `iconTimeoutRef.current`: the handle of the last timer scheduled, if any. */
    var timeoutRef: Option<nat>
    /** The timers the browser still holds, by handle. */
    var pending: set<nat>
    /** The handle the browser gives the next `setTimeout`; handles are positive. */
    var nextHandle: nat

    /** Only the timer in `iconTimeoutRef` can still be pending, and handles are never reused. */
    predicate Valid()
      reads this
    {
      nextHandle >= 1
      && (timeoutRef.Some? ==> 1 <= timeoutRef.value < nextHandle)
      && (forall h :: h in pending ==> timeoutRef == Some(h))
    }

    constructor ()
      ensures Valid()
      ensures activeIcon == None && timeoutRef == None && pending == {}
    {
      activeIcon := None;
      timeoutRef := None;
      pending := {};
      nextHandle := 1;
    }

    /** At most one reset timer is pending at any time. */
    lemma AtMostOnePending()
      requires Valid()
      ensures |pending| <= 1
      ensures pending != {} ==> pending == {timeoutRef.value}
    {
      if pending != {} {
        var h :| h in pending;
        assert pending == {h};
      }
    }

    /**
     * `handleIconTap(iconName, url)` at window width `innerWidth`; the result
     * is the URL opened in a new tab, if any.
     */
    method Tap(iconName: string, url: string, innerWidth: int) returns (link: Option<string>)
      requires Valid()
      modifies this
      ensures Valid()
      // Desktop: open the link, nothing else changes.
      ensures !IsMobile(innerWidth) ==>
        link == Some(url) && activeIcon == old(activeIcon)
        && timeoutRef == old(timeoutRef) && pending == old(pending) && nextHandle == old(nextHandle)
      // Phone, second tap on the lit icon: open the link and switch the light off; the timer is left alone.
      ensures IsMobile(innerWidth) && old(activeIcon) == Some(iconName) ==>
        link == Some(url) && activeIcon == None
        && timeoutRef == old(timeoutRef) && pending == old(pending) && nextHandle == old(nextHandle)
      // Phone, any other tap: light the icon, cancel the pending timer, schedule a fresh one.
      ensures IsMobile(innerWidth) && old(activeIcon) != Some(iconName) ==>
        link == None && activeIcon == Some(iconName)
        && timeoutRef == Some(old(nextHandle)) && pending == {old(nextHandle)}
        && nextHandle == old(nextHandle) + 1
    {
      if IsMobile(innerWidth) {
        if activeIcon == Some(iconName) {
          link := Some(url);
          activeIcon := None;
          return;
        }
        link := None;
        activeIcon := Some(iconName);
        if timeoutRef.Some? {
          // clearTimeout: a timer that already fired is simply gone.
          pending := pending - {timeoutRef.value};
        }
        timeoutRef := Some(nextHandle);
        pending := pending + {nextHandle};
        nextHandle := nextHandle + 1;
      } else {
        link := Some(url);
      }
    }

    /** The pending reset timer fires: the light goes off. The ref still names the spent handle. */
    method ResetTimerFires(handle: nat)
      requires Valid() && handle in pending
      modifies this
      ensures Valid()
      ensures activeIcon == None && pending == {}
      ensures timeoutRef == old(timeoutRef) && nextHandle == old(nextHandle)
    {
      activeIcon := None;
      pending := pending - {handle};
    }
  }

  // ---------------------------------------------------------------------
  // Scenarios, each on a freshly mounted section
  // ---------------------------------------------------------------------

  /** On a desktop every tap opens the link straight away. */
  method DesktopTapOpens(icon: string, url: string, width: int) returns (link: Option<string>)
    requires width >= MobileBreakpoint
    ensures link == Some(url)
  {
    var t := new IconTapper();
    link := t.Tap(icon, url, width);
  }

  /** On a phone the first tap opens nothing and the second on the same icon opens its link. */
  method MobileDoubleTap(icon: string, url: string, width: int) returns (first: Option<string>, second: Option<string>)
    requires width < MobileBreakpoint
    ensures first == None && second == Some(url)
  {
    var t := new IconTapper();
    first := t.Tap(icon, url, width);
    second := t.Tap(icon, url, width);
  }

  /** Tapping another icon moves the light instead of opening anything; a tap on the first icon then lights it again. */
  method MobileSwitchIcon(a: string, b: string, urlA: string, urlB: string, width: int)
    returns (first: Option<string>, second: Option<string>, litAfterSecond: Option<string>,
             third: Option<string>, litAfterThird: Option<string>)
    requires width < MobileBreakpoint && a != b
    ensures first == None && second == None && third == None
    ensures litAfterSecond == Some(b) && litAfterThird == Some(a)
  {
    var t := new IconTapper();
    first := t.Tap(a, urlA, width);
    second := t.Tap(b, urlB, width);
    litAfterSecond := t.activeIcon;
    third := t.Tap(a, urlA, width);
    litAfterThird := t.activeIcon;
  }

  /** When the reset timer fires between the taps, the second tap is a first tap again and opens nothing. */
  method MobileTapAfterReset(icon: string, url: string, width: int) returns (first: Option<string>, second: Option<string>)
    requires width < MobileBreakpoint
    ensures first == None && second == None
  {
    var t := new IconTapper();
    first := t.Tap(icon, url, width);
    t.AtMostOnePending();
    t.ResetTimerFires(t.timeoutRef.value);
    second := t.Tap(icon, url, width);
  }
}
