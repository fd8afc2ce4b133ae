/**
 * The application shell: the error boundary around every page, the
 * navigation sidebar (its open/closed state, the resize handler behind a
 * debounce, the click-outside rule and the active-link test) and the product
 * carousel on the landing page.
 */
module App {
  import opened JsValues

  // ---------------------------------------------------------------------
  // ErrorBoundary
  // ---------------------------------------------------------------------

  /** A thrown value as the boundary sees it; `message` may be undefined. */
  datatype JsError = JsError(message: Option<string>)

  const RESIZE_OBSERVER: string := "ResizeObserver"

  /** `error.message?.includes('ResizeObserver')` */
  predicate IsResizeObserverError(e: JsError)
  {
    e.message.Some? && Includes(e.message.value, RESIZE_OBSERVER)
  }

  /** The partial state `getDerivedStateFromError` returns; `error` is `None` when the key is absent. */
  datatype StatePatch = StatePatch(hasError: bool, error: Option<JsError>)

  /** `getDerivedStateFromError`: benign ResizeObserver noise leaves the page up, anything else replaces it. */
  function DerivedStateFromError(e: JsError): (p: StatePatch)
    ensures !p.hasError <==> e.message.Some? && exists i: nat :: OccursAt(e.message.value, RESIZE_OBSERVER, i)
    ensures p.hasError ==> p.error == Some(e)
    ensures !p.hasError ==> p.error == None
  {
    if e.message.None? then StatePatch(true, Some(e))
    else
      IncludesIffOccurs(e.message.value, RESIZE_OBSERVER);
      if Includes(e.message.value, RESIZE_OBSERVER) then StatePatch(false, None) else StatePatch(true, Some(e))
  }

  /** The boundary's state. */
  class ErrorBoundary {
    var hasError: bool
    var error: Option<JsError>

    constructor ()
      ensures !hasError && error == None
    {
      hasError, error := false, None;
    }

    /** What renders: the fallback panel exactly when an error is held. */
    predicate ShowsFallback()
      reads this
    {
      hasError
    }

    /**
     * A render error reaches the boundary: React merges the derived patch into the state,
     * so a ResizeObserver error clears `hasError` and keeps whatever `error` was held.
     */
    method Catch(e: JsError)
      modifies this
      ensures hasError == !IsResizeObserverError(e)
      ensures IsResizeObserverError(e) ==> error == old(error)
      ensures !IsResizeObserverError(e) ==> error == Some(e)
    {
      var patch := DerivedStateFromError(e);
      hasError := patch.hasError;
      if patch.error.Some? {
        error := patch.error;
      }
    }

    /** "Try Again": back to the children with no error held. */
    method TryAgain()
      modifies this
      ensures !hasError && error == None
    {
      hasError, error := false, None;
    }
  }

  // ---------------------------------------------------------------------
  // debounce
  // ---------------------------------------------------------------------

  /**
   * The closure `debounce(func, wait, immediate)` returns. `pending` is whether `timeout`
   * holds a live timer, `pendingArgs` the arguments its callback will pass, and `calls`
   * the arguments of every invocation of `func` so far.
   */
  class Debouncer<A> {
    const immediate: bool
    var pending: bool
    var pendingArgs: Option<A>
    var calls: seq<A>

    ghost predicate Valid()
      reads this
    {
      pending <==> pendingArgs.Some?
    }

    constructor (immediate: bool)
      ensures Valid() && this.immediate == immediate
      ensures !pending && calls == []
    {
      this.immediate := immediate;
      pending, pendingArgs, calls := false, None, [];
    }

    /**
     * One call of the debounced function: the pending timer is replaced by one for these
     * arguments, and in immediate mode `func` runs now only if no timer was pending.
     */
    method Call(args: A)
      requires Valid()
      modifies this`pending, this`pendingArgs, this`calls
      ensures Valid() && pending && pendingArgs == Some(args)
      ensures calls == old(calls) + (if immediate && !old(pending) then [args] else [])
    {
      var callNow := immediate && !pending;
      pending := true;
      pendingArgs := Some(args);
      if callNow {
        calls := calls + [args];
      }
    }

    /** The timer's callback `later`: the timer is gone, and outside immediate mode `func` runs. */
    method Fire()
      requires Valid() && pending
      modifies this`pending, this`pendingArgs, this`calls
      ensures Valid() && !pending
      ensures calls == old(calls) + (if immediate then [] else [old(pendingArgs).value])
    {
      if !immediate {
        calls := calls + [pendingArgs.value];
      }
      pending := false;
      pendingArgs := None;
    }

    /** `debounced.cancel`: nothing is pending any more. */
    method Cancel()
      requires Valid()
      modifies this`pending, this`pendingArgs
      ensures Valid() && !pending
    {
      pending := false;
      pendingArgs := None;
    }

    /**
     * A burst of calls within the wait, then the timer elapsing: outside immediate mode
     * `func` runs once, with the last call's arguments; in immediate mode it runs once,
     * with the first call's, unless a timer was already pending when the burst began.
     */
    method Burst(xs: seq<A>)
      requires Valid() && |xs| > 0
      modifies this`pending, this`pendingArgs, this`calls
      ensures Valid() && !pending
      ensures !immediate ==> calls == old(calls) + [xs[|xs| - 1]]
      ensures immediate ==> calls == old(calls) + (if old(pending) then [] else [xs[0]])
    {
      var wasPending := pending;
      var k := 0;
      while k < |xs|
        invariant 0 <= k <= |xs|
        invariant Valid()
        invariant k > 0 ==> pending && pendingArgs == Some(xs[k - 1])
        invariant k == 0 ==> pending == wasPending && calls == old(calls)
        invariant k > 0 && !immediate ==> calls == old(calls)
        invariant k > 0 && immediate ==> calls == old(calls) + (if wasPending then [] else [xs[0]])
      {
        Call(xs[k]);
        k := k + 1;
      }
      Fire();
    }
  }

  // ---------------------------------------------------------------------
  // Navigation sidebar
  // ---------------------------------------------------------------------

  /** The width below which the layout is mobile. */
  const MOBILE_BREAKPOINT: real := 1024.0

  /** `navItems`, by path. */
  const NAV_PATHS: seq<string> := [
    "/", "/temperature", "/energy", "/vibration", "/digital-io",
    "/etop-io", "/sensors", "/oee", "/reports"
  ]

  /** `location.pathname === item.path` */
  predicate IsActive(pathname: string, j: nat)
    requires j < |NAV_PATHS|
    ensures IsActive(pathname, j) ==> pathname in NAV_PATHS
  {
    pathname == NAV_PATHS[j]
  }

  /** No path is listed twice, so at most one link is highlighted, and one is exactly when the page is listed. */
  lemma OneActiveLink(pathname: string)
    ensures forall i, j :: 0 <= i < |NAV_PATHS| && 0 <= j < |NAV_PATHS| && IsActive(pathname, i) && IsActive(pathname, j) ==> i == j
    ensures (exists j :: 0 <= j < |NAV_PATHS| && IsActive(pathname, j)) <==> pathname in NAV_PATHS
  {
    if pathname in NAV_PATHS {
      var j :| 0 <= j < |NAV_PATHS| && NAV_PATHS[j] == pathname;
      assert IsActive(pathname, j);
    }
  }

  /** The sidebar's state: `isOpen` belongs to the app shell, `isMobile` to the sidebar. */
  class Sidebar {
    var isMobile: bool
    var isOpen: bool

    /** On the desktop layout the sidebar is never left open. */
    ghost predicate Valid()
      reads this
    {
      !isMobile ==> !isOpen
    }

    constructor (width: real)
      ensures Valid() && isMobile == (width < MOBILE_BREAKPOINT) && !isOpen
    {
      isMobile := width < MOBILE_BREAKPOINT;
      isOpen := false;
    }

    /** The backdrop behind the open sidebar, shown only on the mobile layout. */
    predicate OverlayShown()
      reads this
    {
      isMobile && isOpen
    }

    /** The sidebar itself: always on the desktop layout, on mobile only when open. */
    predicate SidebarShown()
      reads this
    {
      !isMobile || isOpen
    }

    /** The debounced resize handler: the layout follows the width and a desktop width closes the sidebar. */
    method Resize(width: real)
      modifies this
      ensures Valid()
      ensures isMobile == (width < MOBILE_BREAKPOINT)
      ensures isOpen == (old(isOpen) && width < MOBILE_BREAKPOINT)
    {
      isMobile := width < MOBILE_BREAKPOINT;
      if !isMobile {
        isOpen := false;
      }
    }

    /** A click anywhere: it closes the sidebar only on mobile, when open, outside both the sidebar and the menu button. */
    method ClickOutside(inSidebar: bool, inMenuButton: bool)
      requires Valid()
      modifies this`isOpen
      ensures Valid()
      ensures isOpen == (old(isOpen) && !(isMobile && !inSidebar && !inMenuButton))
    {
      if isMobile && isOpen && !inSidebar && !inMenuButton {
        isOpen := false;
      }
    }

    /** The menu button, which the stylesheet hides from 1024 px up, flips the sidebar. */
    method ToggleMenu()
      requires Valid() && isMobile
      modifies this`isOpen
      ensures Valid() && isOpen == !old(isOpen)
    {
      isOpen := !isOpen;
    }

    /** A click on the backdrop closes the sidebar. */
    method OverlayClick()
      requires Valid()
      modifies this`isOpen
      ensures Valid() && !isOpen
    {
      isOpen := false;
    }

    /** Following a link closes the sidebar on mobile and leaves it alone on the desktop layout. */
    method NavClick()
      requires Valid()
      modifies this`isOpen
      ensures Valid() && !isOpen
    {
      if isMobile {
        isOpen := false;
      }
    }
  }

  /** Whenever the backdrop shows, the sidebar shows too, and on the desktop layout the sidebar always shows. */
  lemma OverlayOnlyOverSidebar(s: Sidebar)
    ensures s.OverlayShown() ==> s.SidebarShown()
    ensures !s.isMobile ==> s.SidebarShown() && !s.OverlayShown()
  {
  }

  // ---------------------------------------------------------------------
  // ProductCarousel
  // ---------------------------------------------------------------------

  /** The number of product images. */
  const IMAGE_COUNT: nat := 6

  /** `(prev + 1) % n` */
  function NextIndex(i: nat, n: nat): (r: nat)
    requires i < n
    ensures r < n
    ensures r == if i == n - 1 then 0 else i + 1
  {
    (i + 1) % n
  }

  /** `(prev - 1 + n) % n` */
  function PrevIndex(i: nat, n: nat): (r: nat)
    requires i < n
    ensures r < n
    ensures r == if i == 0 then n - 1 else i - 1
  {
    (i - 1 + n) % n
  }

  /** The two arrows undo each other. */
  lemma NextPrevInverse(i: nat, n: nat)
    requires i < n
    ensures PrevIndex(NextIndex(i, n), n) == i
    ensures NextIndex(PrevIndex(i, n), n) == i
  {
  }

  /** `k` presses of the right arrow (or `k` ticks of the timer). */
  function Advance(i: nat, n: nat, k: nat): (r: nat)
    requires i < n
    ensures r < n
  {
    if k == 0 then i else NextIndex(Advance(i, n, k - 1), n)
  }

  /** Advancing `k` slides lands on `(i + k) mod n`, so `n` slides come full circle. */
  lemma {:induction false} AdvanceIsModular(i: nat, n: nat, k: nat)
    requires i < n
    ensures Advance(i, n, k) == (i + k) % n
  {
    if k > 0 {
      AdvanceIsModular(i, n, k - 1);
      var j := (i + k - 1) % n;
      assert Advance(i, n, k) == (j + 1) % n;
      ModSucc(i + k - 1, n);
    }
  }

  lemma ModSucc(m: nat, n: nat)
    requires n > 0
    ensures (m % n + 1) % n == (m + 1) % n
  {
    var q, r := m / n, m % n;
    if r + 1 < n {
      ModUnique(m + 1, q, n, r + 1);
    } else {
      ModUnique(m + 1, q + 1, n, 0);
    }
  }

  /** The remainder is the only one in `[0, n)`. */
  lemma ModUnique(a: int, q: int, n: int, r: int)
    requires n > 0 && 0 <= r < n && a == q * n + r
    ensures a % n == r
  {
    var q', r' := a / n, a % n;
    assert (q - q') * n == r' - r;
    MultipleOutsideBand(q - q', n);
  }

  /** A non-zero multiple of `n` is at least `n` away from 0. */
  lemma MultipleOutsideBand(d: int, n: int)
    requires n > 0
    ensures d >= 1 ==> d * n >= n
    ensures d <= -1 ==> d * n <= -n
  {
    if d >= 1 {
      assert d * n == (d - 1) * n + n;
    }
    if d <= -1 {
      assert d * n == (d + 1) * n - n;
    }
  }

  /** The carousel's state. */
  class Carousel {
    var currentIndex: nat

    ghost predicate Valid()
      reads this
    {
      currentIndex < IMAGE_COUNT
    }

    constructor ()
      ensures Valid() && currentIndex == 0
    {
      currentIndex := 0;
    }

    /** `nextSlide`, and each five-second tick of the timer. */
    method NextSlide()
      requires Valid()
      modifies this
      ensures Valid() && currentIndex == NextIndex(old(currentIndex), IMAGE_COUNT)
    {
      currentIndex := (currentIndex + 1) % IMAGE_COUNT;
    }

    /** `prevSlide` */
    method PrevSlide()
      requires Valid()
      modifies this
      ensures Valid() && currentIndex == PrevIndex(old(currentIndex), IMAGE_COUNT)
    {
      currentIndex := (currentIndex - 1 + IMAGE_COUNT) % IMAGE_COUNT;
    }

    /** A click on dot `k`, one of the six drawn. */
    method SelectDot(k: nat)
      requires k < IMAGE_COUNT
      modifies this
      ensures Valid() && currentIndex == k
    {
      currentIndex := k;
    }
  }
}
