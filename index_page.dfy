/**
 * The page-level screen navigator of the attendance kiosk. Three state cells
 * (the active screen, the success-overlay flag and the theme flag) are changed
 * only by the page's event handlers, and each handler can only fire while the
 * screen that exposes it is rendered.
 */
module IndexPage {
  import opened Optional

  /** The closed set of top-level screens. */
  datatype Screen = Home | ClockIn | ClockOut | Register

  /** A snapshot of the page's three state cells. */
  datatype PageState = PageState(currentScreen: Screen, showSuccess: bool, isDark: bool)

  /** The state the page starts in: home screen, no overlay, light theme. */
  const Initial := PageState(Home, false, false)

  /** Every user or timer event the page reacts to. */
  datatype Event =
    | ToggleTheme
    | NavigateClockIn
    | NavigateClockOut
    | NavigateRegister
    | ClockInCapture
    | ClockOutCapture
    | RegistrationSubmit
    | Close
    | SuccessComplete

  /**
   * Whether the component that raises `e` is rendered in state `s`. The home
   * screen offers navigation and the theme toggle, each capture screen offers
   * its capture and close, the registration screen offers submit and cancel
   * (which is the same close handler), and the overlay, while shown, offers
   * its completion.
   */
  predicate Offered(s: PageState, e: Event) {
    match e
    case ToggleTheme | NavigateClockIn | NavigateClockOut | NavigateRegister => s.currentScreen == Home
    case ClockInCapture => s.currentScreen == ClockIn
    case ClockOutCapture => s.currentScreen == ClockOut
    case RegistrationSubmit => s.currentScreen == Register
    case Close => s.currentScreen != Home
    case SuccessComplete => s.showSuccess
  }

  /** The effect of one handler on the state. */
  function Step(s: PageState, e: Event): PageState
    requires Offered(s, e)
  {
    match e
    case ToggleTheme => s.(isDark := !s.isDark)
    case NavigateClockIn => s.(currentScreen := ClockIn)
    case NavigateClockOut => s.(currentScreen := ClockOut)
    case NavigateRegister => s.(currentScreen := Register)
    case ClockInCapture | ClockOutCapture | RegistrationSubmit => s.(showSuccess := true)
    case Close => s.(currentScreen := Home)
    case SuccessComplete => s.(showSuccess := false, currentScreen := Home)
  }

  /**
   * The state after the events `es`, in order, starting from `s`; `None` when
   * some event is raised while its component is not rendered.
   */
  function Run(s: PageState, es: seq<Event>): Option<PageState>
    decreases |es|
  {
    if es == [] then Some(s)
    else
      match Run(s, es[..|es| - 1])
      case None => None
      case Some(t) => if Offered(t, es[|es| - 1]) then Some(Step(t, es[|es| - 1])) else None
  }

  /** What an event does to the screen, if it changes it at all. */
  function ScreenEffect(e: Event): Option<Screen> {
    match e
    case NavigateClockIn => Some(ClockIn)
    case NavigateClockOut => Some(ClockOut)
    case NavigateRegister => Some(Register)
    case Close | SuccessComplete => Some(Home)
    case _ => None
  }

  /** What an event does to the overlay flag, if it changes it at all. */
  function OverlayEffect(e: Event): Option<bool> {
    match e
    case ClockInCapture | ClockOutCapture | RegistrationSubmit => Some(true)
    case SuccessComplete => Some(false)
    case _ => None
  }

  /** The effect of the last event in `es` that has one under `effect`. */
  function LastEffect<T>(es: seq<Event>, effect: Event -> Option<T>): Option<T>
    decreases |es|
  {
    if es == [] then None
    else if effect(es[|es| - 1]).Some? then effect(es[|es| - 1])
    else LastEffect(es[..|es| - 1], effect)
  }

  /** The screen after a feasible run is the one set by its last navigating event. */
  lemma {:induction false} ScreenIsLastNavigation(s: PageState, es: seq<Event>)
    requires Run(s, es).Some?
    ensures Run(s, es).value.currentScreen == LastEffect(es, ScreenEffect).GetOr(s.currentScreen)
    decreases |es|
  {
    if es != [] {
      ScreenIsLastNavigation(s, es[..|es| - 1]);
    }
  }

  /**
   * The overlay is shown after a feasible run exactly when a capture or submit
   * happened after the last overlay completion (or, with neither, when it was
   * shown at the start).
   */
  lemma {:induction false} OverlayIsLastSuccess(s: PageState, es: seq<Event>)
    requires Run(s, es).Some?
    ensures Run(s, es).value.showSuccess == LastEffect(es, OverlayEffect).GetOr(s.showSuccess)
    decreases |es|
  {
    if es != [] {
      OverlayIsLastSuccess(s, es[..|es| - 1]);
    }
  }

  /** Only the theme toggle changes the theme: its final value flips once per toggle. */
  lemma {:induction false} ThemeParity(s: PageState, es: seq<Event>)
    requires Run(s, es).Some?
    ensures Run(s, es).value.isDark == (s.isDark != (multiset(es)[ToggleTheme] % 2 == 1))
    decreases |es|
  {
    if es != [] {
      var prefix, e := es[..|es| - 1], es[|es| - 1];
      assert es == prefix + [e];
      ThemeParity(s, prefix);
    }
  }

  /** A feasible run that ends with the overlay completing is back home with no overlay. */
  lemma EndsHomeAfterSuccessComplete(s: PageState, es: seq<Event>)
    requires Run(s, es).Some? && |es| > 0 && es[|es| - 1] == SuccessComplete
    ensures Run(s, es).value.currentScreen == Home && !Run(s, es).value.showSuccess
  {
  }

  /** Toggling the theme twice from home restores the state. */
  lemma ToggleThemeTwice(s: PageState)
    requires s.currentScreen == Home
    ensures Run(s, [ToggleTheme, ToggleTheme]) == Some(s)
  {
  }

  /**
   * Each handler changes the screen and the overlay only as the effect tables
   * say, and the theme only when it is the toggle.
   */
  lemma StepEffects(s: PageState, e: Event)
    requires Offered(s, e)
    ensures Step(s, e).currentScreen == ScreenEffect(e).GetOr(s.currentScreen)
    ensures Step(s, e).showSuccess == OverlayEffect(e).GetOr(s.showSuccess)
    ensures Step(s, e).isDark == (s.isDark != (e == ToggleTheme))
  {
  }

  /** Navigating from home and closing again restores the state, for each of the three screens. */
  lemma NavigateThenCloseReturns(s: PageState)
    requires s.currentScreen == Home
    ensures Run(s, [NavigateClockIn, Close]) == Some(s)
    ensures Run(s, [NavigateClockOut, Close]) == Some(s)
    ensures Run(s, [NavigateRegister, Close]) == Some(s)
  {
  }

  /** The page component, holding the three state cells. */
  class Index {
    var currentScreen: Screen
    var showSuccess: bool
    var isDark: bool

    /** The current snapshot of the three cells. */
    function State(): PageState
      reads this
    {
      PageState(currentScreen, showSuccess, isDark)
    }

    constructor ()
      ensures currentScreen == Home && !showSuccess && !isDark
      ensures State() == Initial
    {
      currentScreen := Home;
      showSuccess := false;
      isDark := false;
    }

    /** The header's theme button, on the home screen: flips the theme only. */
    method HandleToggleTheme()
      requires currentScreen == Home
      modifies this
      ensures isDark == !old(isDark)
      ensures currentScreen == old(currentScreen) && showSuccess == old(showSuccess)
      ensures State() == Step(old(State()), ToggleTheme)
    {
      isDark := !isDark;
    }

    /** The home screen's clock-in button. */
    method OnClockIn()
      requires currentScreen == Home
      modifies this
      ensures currentScreen == ClockIn
      ensures showSuccess == old(showSuccess) && isDark == old(isDark)
      ensures State() == Step(old(State()), NavigateClockIn)
    {
      currentScreen := ClockIn;
    }

    /** The home screen's clock-out button. */
    method OnClockOut()
      requires currentScreen == Home
      modifies this
      ensures currentScreen == ClockOut
      ensures showSuccess == old(showSuccess) && isDark == old(isDark)
      ensures State() == Step(old(State()), NavigateClockOut)
    {
      currentScreen := ClockOut;
    }

    /** The home screen's register link. */
    method OnRegister()
      requires currentScreen == Home
      modifies this
      ensures currentScreen == Register
      ensures showSuccess == old(showSuccess) && isDark == old(isDark)
      ensures State() == Step(old(State()), NavigateRegister)
    {
      currentScreen := Register;
    }

    /** The clock-in screen's capture button: shows the overlay, stays on the screen. */
    method HandleClockInCapture()
      requires currentScreen == ClockIn
      modifies this
      ensures showSuccess
      ensures currentScreen == old(currentScreen) && isDark == old(isDark)
      ensures State() == Step(old(State()), ClockInCapture)
    {
      showSuccess := true;
    }

    /** The clock-out screen's capture button: shows the overlay, stays on the screen. */
    method HandleClockOutCapture()
      requires currentScreen == ClockOut
      modifies this
      ensures showSuccess
      ensures currentScreen == old(currentScreen) && isDark == old(isDark)
      ensures State() == Step(old(State()), ClockOutCapture)
    {
      showSuccess := true;
    }

    /** The registration screen's submit: shows the overlay, stays on the screen. */
    method HandleRegistrationSubmit()
      requires currentScreen == Register
      modifies this
      ensures showSuccess
      ensures currentScreen == old(currentScreen) && isDark == old(isDark)
      ensures State() == Step(old(State()), RegistrationSubmit)
    {
      showSuccess := true;
    }

    /** The overlay's completion: hides it and returns home, from any screen. */
    method HandleSuccessComplete()
      requires showSuccess
      modifies this
      ensures !showSuccess && currentScreen == Home
      ensures isDark == old(isDark)
      ensures State() == Step(old(State()), SuccessComplete)
    {
      showSuccess := false;
      currentScreen := Home;
    }

    /**
     * Close on a capture screen, or cancel on the registration screen: returns
     * home and leaves the overlay flag as it was.
     */
    method HandleClose()
      requires currentScreen != Home
      modifies this
      ensures currentScreen == Home
      ensures showSuccess == old(showSuccess) && isDark == old(isDark)
      ensures State() == Step(old(State()), Close)
    {
      currentScreen := Home;
    }
  }
}
