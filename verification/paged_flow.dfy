/**
 * `PagedOnboardingView`'s navigation logic without the SwiftUI layer.
 *
 * The view's `@State` fields (`currentPage`, `previousPage`, `showButtons`,
 * `indicatorPulse`) and the effects it has on its collaborators (page actions
 * invoked, `onFinish` calls, `onFinish` tasks scheduled after the exit delay,
 * the haptic impacts of `advance(to:)`) make up a `FlowState`. Pure functions below state each
 * transition; the class `PagedOnboardingView` performs the same transitions by
 * assigning its fields. Its methods that have a transition function are proved to
 * match it; `OnAppear`, `OnCurrentPageChange` and `SetReduceMotion` state their
 * single-field updates directly.
 */
module PagedFlow {
  import opened Wrappers
  import opened PageModel
  import opened Animation

  /**
   * What the view's behaviour depends on besides its state: its pages, its animation
   * configuration, the platform it is compiled for and the current reduce-motion setting.
   */
  datatype Presentation = Presentation(pages: seq<OnboardingPage>, configuration: Configuration,
                                       platform: Platform, reduceMotion: bool)

  /**
   * The view's state together with what it has done to its collaborators so far:
   * the page actions it invoked in order, how often it called `onFinish`, the delays
   * of the `onFinish` tasks it scheduled that have not yet run, and the haptic impacts
   * `advance(to:)` emitted (the primary button style's own press haptic is not counted).
   */
  datatype FlowState = FlowState(
    currentPage: int,
    previousPage: int,
    showButtons: bool,
    indicatorPulse: bool,
    actionsInvoked: seq<Callback>,
    finishCalls: nat,
    scheduledFinishes: seq<real>,
    haptics: nat)

  /** The state a new view starts in. */
  const Initial: FlowState := FlowState(0, 0, false, false, [], 0, [], 0)

  /** Both page indices address a page (an empty page array would trap on the first read). */
  predicate ValidState(pages: seq<OnboardingPage>, s: FlowState) {
    |pages| > 0 && 0 <= s.currentPage < |pages| && 0 <= s.previousPage < |pages|
  }

  /** How many times `onFinish` has been called or is scheduled to be called. */
  function FinishRequests(s: FlowState): nat {
    s.finishCalls + |s.scheduledFinishes|
  }

  /** The page actions a sequence of pages invokes when each page's primary button is pressed once, in order. */
  function ActionsOf(pages: seq<OnboardingPage>): seq<Callback> {
    if pages == [] then [] else ActionsOf(pages[..|pages| - 1]) + ActionOf(pages[|pages| - 1])
  }

  function ActionOf(page: OnboardingPage): seq<Callback> {
    if page.action.Some? then [page.action.value] else []
  }

  // ---------------------------------------------------------------------------
  // Read-only views of the state

  /** `shouldShowSkip`: Skip is offered exactly when the primary button would move on rather than finish. */
  function ShouldShowSkip(pages: seq<OnboardingPage>, s: FlowState): (show: bool)
    ensures show ==> s.currentPage + 1 < |pages|
    ensures ValidState(pages, s) ==> (show <==> s.currentPage != |pages| - 1)
  {
    |pages| > 1 && s.currentPage < |pages| - 1
  }

  /** `buttonTitle`: the page's own title if it has one, otherwise "Next" exactly when Skip is offered and "Get Started" on the last page. */
  function ButtonTitle(pages: seq<OnboardingPage>, s: FlowState): (title: string)
    requires ValidState(pages, s)
    ensures pages[s.currentPage].actionButtonTitle.Some? ==> title == pages[s.currentPage].actionButtonTitle.value
    ensures pages[s.currentPage].actionButtonTitle.None? ==>
              && (title == "Next" <==> ShouldShowSkip(pages, s))
              && (title == "Get Started" <==> s.currentPage == |pages| - 1)
  {
    var page := pages[s.currentPage];
    if page.actionButtonTitle.Some? then page.actionButtonTitle.value
    else if s.currentPage == |pages| - 1 then "Get Started" else "Next"
  }

  /** `direction(for:)`: the direction a page at `index` is shown with; an index equal to `previousPage` counts as forward. */
  function DirectionFor(s: FlowState, index: int): (d: Direction)
    ensures d == Forward <==> index >= s.previousPage
  {
    if index >= s.previousPage then Forward else Backward
  }

  /** The direction `advance(to:)` computes before it moves: forward exactly to a larger index. */
  function AdvanceDirection(s: FlowState, newPage: int): (d: Direction)
    ensures d == Forward <==> newPage > s.currentPage
  {
    if newPage > s.currentPage then Forward else Backward
  }

  /**
   * The page containers are compiled per platform: iOS, tvOS and watchOS show a paged
   * `TabView` the user can swipe, macOS a `ZStack` without swiping.
   */
  predicate UsesTabView(platform: Platform) {
    platform != MacOS
  }

  /**
   * The transition attached to page `index`: only the macOS container attaches one,
   * built for the direction `direction(for:)` gives that page.
   */
  function PageTransition(p: Presentation, s: FlowState, index: int): (t: Option<Transition>)
    ensures t.Some? <==> !UsesTabView(p.platform)
    ensures t.Some? ==> t.value == TransitionFor(p.configuration, DirectionFor(s, index), p.reduceMotion)
  {
    if UsesTabView(p.platform) then None
    else Some(TransitionFor(p.configuration, DirectionFor(s, index), p.reduceMotion))
  }

  /** The delay after which the exit task calls `onFinish`: nine tenths of the configured duration, never clamped. */
  function ExitDelay(c: Configuration): (delay: real)
    ensures c.duration > 0.0 ==> 0.0 < delay < c.duration
    ensures c.duration <= 0.0 ==> c.duration <= delay <= 0.0
    ensures delay / 9.0 == c.duration / 10.0
  {
    c.duration * 0.9
  }

  /** `PageView.updateParallax()`: the offset a page starts from before it springs back to 0; none under reduce motion. */
  function ParallaxStartOffset(direction: Direction, reduceMotion: bool): (offset: Option<int>)
    ensures offset.None? <==> reduceMotion
    ensures offset.Some? ==> (offset.value == 10 || offset.value == -10)
    ensures offset.Some? ==> (offset.value > 0 <==> direction == Forward)
  {
    if reduceMotion then None else Some(if direction == Forward then 10 else -10)
  }

  // ---------------------------------------------------------------------------
  // Transitions

  /** `triggerMicroIndicatorFeedback(direction:)`: toggles the indicator pulse unless reduce motion is on. */
  function AfterFeedback(p: Presentation, s: FlowState): (r: FlowState)
    ensures r.indicatorPulse == (if p.reduceMotion then s.indicatorPulse else !s.indicatorPulse)
    ensures r == s.(indicatorPulse := r.indicatorPulse)
  {
    if p.reduceMotion then s else s.(indicatorPulse := !s.indicatorPulse)
  }

  /**
   * `advance(to:)`: nothing happens when the target is the current page. Otherwise the
   * old page becomes `previousPage`, the target becomes current (so the new page is
   * shown in the direction `advance` computed), one haptic fires if enabled and the
   * platform has impact haptics, even under reduce motion, and the indicator pulse
   * toggles only when motion is allowed.
   * Buttons, actions and finish requests are untouched.
   */
  function AfterAdvance(p: Presentation, s: FlowState, newPage: int): (r: FlowState)
    ensures newPage == s.currentPage ==> r == s
    ensures newPage != s.currentPage ==>
              && r.previousPage == s.currentPage
              && r.currentPage == newPage
              && DirectionFor(r, newPage) == AdvanceDirection(s, newPage)
              && r.haptics == s.haptics + (if p.configuration.enableHaptics && HasImpactHaptics(p.platform) then 1 else 0)
              && r.indicatorPulse == (s.indicatorPulse != !p.reduceMotion)
    ensures r.showButtons == s.showButtons && r.actionsInvoked == s.actionsInvoked
    ensures r.finishCalls == s.finishCalls && r.scheduledFinishes == s.scheduledFinishes
  {
    if newPage == s.currentPage then s
    else
      var moved := s.(previousPage := s.currentPage, currentPage := newPage,
                      haptics := s.haptics + PrimaryHapticImpacts(p.configuration, p.platform));
      AfterFeedback(p, moved)
  }

  /**
   * `finishFlow()`: under reduce motion `onFinish` is called at once; otherwise the
   * buttons are dimmed and a call of `onFinish` is scheduled after the exit delay.
   * Either way exactly one more finish is requested; there is no "already finished" guard.
   */
  function AfterFinish(p: Presentation, s: FlowState): (r: FlowState)
    ensures FinishRequests(r) == FinishRequests(s) + 1
    ensures p.reduceMotion ==> r == s.(finishCalls := s.finishCalls + 1)
    ensures !p.reduceMotion ==>
              r == s.(showButtons := false, scheduledFinishes := s.scheduledFinishes + [ExitDelay(p.configuration)])
  {
    if p.reduceMotion then s.(finishCalls := s.finishCalls + 1)
    else s.(showButtons := false, scheduledFinishes := s.scheduledFinishes + [ExitDelay(p.configuration)])
  }

  /** The exit task wakes up: the oldest scheduled `onFinish` runs. */
  function AfterFire(s: FlowState): (r: FlowState)
    requires |s.scheduledFinishes| > 0
    ensures FinishRequests(r) == FinishRequests(s)
    ensures r.finishCalls == s.finishCalls + 1
    ensures r.scheduledFinishes == s.scheduledFinishes[1..]
    ensures r == s.(finishCalls := r.finishCalls, scheduledFinishes := r.scheduledFinishes)
  {
    s.(finishCalls := s.finishCalls + 1, scheduledFinishes := s.scheduledFinishes[1..])
  }

  /**
   * `handleNextButton()`: the current page's action runs first, if it has one; then the
   * flow moves to the next page, or, on the last page, finishes.
   */
  function AfterNext(p: Presentation, s: FlowState): (r: FlowState)
    requires ValidState(p.pages, s)
    ensures ValidState(p.pages, r)
    ensures r.actionsInvoked == s.actionsInvoked + ActionOf(p.pages[s.currentPage])
    ensures s.currentPage < |p.pages| - 1 ==>
              r.currentPage == s.currentPage + 1 && r.previousPage == s.currentPage
              && FinishRequests(r) == FinishRequests(s)
    ensures s.currentPage == |p.pages| - 1 ==>
              r.currentPage == s.currentPage && r.previousPage == s.previousPage
              && FinishRequests(r) == FinishRequests(s) + 1
    ensures s.currentPage < |p.pages| - 1 ==>
              r == AfterAdvance(p, s.(actionsInvoked := r.actionsInvoked), s.currentPage + 1)
    ensures s.currentPage == |p.pages| - 1 ==>
              r == AfterFinish(p, s.(actionsInvoked := r.actionsInvoked))
  {
    var acted := s.(actionsInvoked := s.actionsInvoked + ActionOf(p.pages[s.currentPage]));
    if s.currentPage < |p.pages| - 1 then AfterAdvance(p, acted, s.currentPage + 1)
    else AfterFinish(p, acted)
  }

  /**
   * A swipe through the `TabView` selection binding, followed by the `onChange(of: currentPage)`
   * update of `previousPage`, taken as one step (the render between the two is not modelled);
   * unlike `advance(to:)` it fires no haptic and no pulse.
   */
  function AfterSelect(p: Presentation, s: FlowState, index: int): (r: FlowState)
    requires ValidState(p.pages, s) && 0 <= index < |p.pages|
    ensures ValidState(p.pages, r) && r.currentPage == index
    ensures index != s.currentPage ==> r == s.(previousPage := s.currentPage, currentPage := index)
    ensures index == s.currentPage ==> r == s
  {
    if index == s.currentPage then s else s.(previousPage := s.currentPage, currentPage := index)
  }

  /** `k` presses of the primary button. */
  function Presses(p: Presentation, s: FlowState, k: nat): (r: FlowState)
    requires ValidState(p.pages, s)
    ensures ValidState(p.pages, r)
    ensures r.currentPage >= s.currentPage
    decreases k
  {
    if k == 0 then s else AfterNext(p, Presses(p, s, k - 1))
  }

  // ---------------------------------------------------------------------------
  // Properties of the flow

  /** Advancing never leaves the page range when the target is a page. */
  lemma AdvanceKeepsValid(p: Presentation, s: FlowState, newPage: int)
    requires ValidState(p.pages, s) && 0 <= newPage < |p.pages|
    ensures ValidState(p.pages, AfterAdvance(p, s, newPage))
  {
  }

  /**
   * After the `onChange(of: currentPage)` update, a page reached by a swipe has the same
   * `direction(for:)` as one reached by a button advance: both have recorded the old page,
   * and the direction agrees with the one `advance(to:)` computes.
   */
  lemma SwipeAndAdvanceAgreeOnDirection(p: Presentation, s: FlowState, index: int)
    requires ValidState(p.pages, s) && 0 <= index < |p.pages| && index != s.currentPage
    ensures DirectionFor(AfterSelect(p, s, index), index) == AdvanceDirection(s, index)
    ensures DirectionFor(AfterSelect(p, s, index), index) == DirectionFor(AfterAdvance(p, s, index), index)
  {
  }

  /**
   * On macOS with the slide style, the page a real advance makes current slides in from
   * the trailing edge when its index is larger and from the leading edge when smaller.
   */
  lemma MacNewPageSlidesFromAdvanceSide(p: Presentation, s: FlowState, newPage: int)
    requires newPage != s.currentPage && !UsesTabView(p.platform)
    requires ChosenStyle(p.configuration, p.reduceMotion) == PlatformSlide
    ensures PageTransition(p, AfterAdvance(p, s, newPage), newPage).Some?
    ensures MoveEdge(PageTransition(p, AfterAdvance(p, s, newPage), newPage).value)
            == Some(if newPage > s.currentPage then Trailing else Leading)
  {
  }

  /**
   * From the first page, pressing the primary button `k < N` times lands on page `k`
   * without any finish request; the `N`th press requests exactly one finish and stays
   * on the last page. The page actions run in page order, each exactly once.
   */
  lemma {:induction false} PressesFromFirstPage(p: Presentation, s: FlowState, k: nat)
    requires ValidState(p.pages, s) && s.currentPage == 0 && k <= |p.pages|
    ensures k < |p.pages| ==>
              Presses(p, s, k).currentPage == k && FinishRequests(Presses(p, s, k)) == FinishRequests(s)
    ensures k == |p.pages| ==>
              Presses(p, s, k).currentPage == |p.pages| - 1 && FinishRequests(Presses(p, s, k)) == FinishRequests(s) + 1
    ensures Presses(p, s, k).actionsInvoked == s.actionsInvoked + ActionsOf(p.pages[..k])
  {
    if k == 0 {
      assert p.pages[..0] == [];
    } else {
      PressesFromFirstPage(p, s, k - 1);
      var before := Presses(p, s, k - 1);
      var after := AfterNext(p, before);
      assert Presses(p, s, k) == after;
      assert after.actionsInvoked == before.actionsInvoked + ActionOf(p.pages[k - 1]);
      ActionsOfPrefix(p.pages, k);
    }
  }

  /** Extending a prefix of the pages by one page extends its actions by that page's action. */
  lemma ActionsOfPrefix(pages: seq<OnboardingPage>, k: nat)
    requires 0 < k <= |pages|
    ensures ActionsOf(pages[..k]) == ActionsOf(pages[..k - 1]) + ActionOf(pages[k - 1])
  {
    assert pages[..k][..k - 1] == pages[..k - 1];
  }

  /** With no guard against finishing twice, two presses on the last page request two finishes. */
  lemma LastPagePressedTwiceFinishesTwice(p: Presentation, s: FlowState)
    requires ValidState(p.pages, s) && s.currentPage == |p.pages| - 1
    ensures FinishRequests(AfterNext(p, AfterNext(p, s))) == FinishRequests(s) + 2
  {
  }

  /** Under reduce motion the finish is immediate; otherwise it comes once the scheduled task fires, with the same outcome. */
  lemma FinishEventuallyCallsOnce(p: Presentation, s: FlowState)
    requires s.scheduledFinishes == []
    ensures p.reduceMotion ==> AfterFinish(p, s).finishCalls == s.finishCalls + 1
    ensures !p.reduceMotion ==>
              AfterFinish(p, s).finishCalls == s.finishCalls
              && AfterFire(AfterFinish(p, s)).finishCalls == s.finishCalls + 1
              && AfterFire(AfterFinish(p, s)).scheduledFinishes == []
  {
  }

  /**
   * After a real advance, the page that became current starts its parallax from the
   * side it came from: +10 when the new index is larger, -10 when it is smaller.
   */
  lemma NewPageParallaxFollowsAdvance(p: Presentation, s: FlowState, newPage: int)
    requires newPage != s.currentPage && !p.reduceMotion
    ensures ParallaxStartOffset(DirectionFor(AfterAdvance(p, s, newPage), newPage), p.reduceMotion)
            == Some(if newPage > s.currentPage then 10 else -10)
  {
  }

  // ---------------------------------------------------------------------------
  // The view

  /**
   * `PagedOnboardingView`: its `let` inputs and the platform as constants, its `@State`
   * and its effects as fields, and the `@Environment` reduce-motion value as a field
   * the environment may change at any step.
   */
  class PagedOnboardingView {
    const pages: seq<OnboardingPage>
    const configuration: Configuration
    const platform: Platform
    var reduceMotion: bool

    var currentPage: int
    var previousPage: int
    var showButtons: bool
    var indicatorPulse: bool
    var actionsInvoked: seq<Callback>
    var finishCalls: nat
    var scheduledFinishes: seq<real>
    var haptics: nat

    function Props(): Presentation
      reads this
    {
      Presentation(pages, configuration, platform, reduceMotion)
    }

    function State(): FlowState
      reads this
    {
      FlowState(currentPage, previousPage, showButtons, indicatorPulse, actionsInvoked, finishCalls, scheduledFinishes, haptics)
    }

    predicate Valid()
      reads this
    {
      ValidState(pages, State())
    }

    /** `init(appName:pages:tintColor:animationConfiguration:onFinish:)`, on a platform, with the environment's reduce-motion value. */
    constructor (pages: seq<OnboardingPage>, platform: Platform, reduceMotion: bool, configuration: Configuration := Default)
      requires |pages| > 0
      ensures Props() == Presentation(pages, configuration, platform, reduceMotion)
      ensures State() == Initial && Valid()
    {
      this.pages := pages;
      this.configuration := configuration;
      this.platform := platform;
      this.reduceMotion := reduceMotion;
      currentPage, previousPage := 0, 0;
      showButtons, indicatorPulse := false, false;
      actionsInvoked, finishCalls, scheduledFinishes, haptics := [], 0, [], 0;
    }

    /** The user turns reduce motion on or off while the view is shown; the state is untouched. */
    method SetReduceMotion(on: bool)
      modifies this
      ensures Props() == old(Props()).(reduceMotion := on)
      ensures State() == old(State())
    {
      reduceMotion := on;
    }

    /** `onAppear`: the buttons come up to full opacity. */
    method OnAppear()
      modifies this
      ensures Props() == old(Props())
      ensures State() == old(State()).(showButtons := true)
    {
      showButtons := true;
    }

    /** `onChange(of: currentPage)`: records the page that was current before the change. */
    method OnCurrentPageChange(oldValue: int)
      modifies this
      ensures Props() == old(Props())
      ensures State() == old(State()).(previousPage := oldValue)
    {
      previousPage := oldValue;
    }

    method TriggerMicroIndicatorFeedback(direction: Direction)
      modifies this
      ensures Props() == old(Props())
      ensures State() == AfterFeedback(Props(), old(State()))
    {
      if reduceMotion {
        return;
      }
      indicatorPulse := !indicatorPulse;
    }

    method Advance(newPage: int)
      modifies this
      ensures Props() == old(Props())
      ensures State() == AfterAdvance(Props(), old(State()), newPage)
    {
      if newPage == currentPage {
        return;
      }
      var direction := if newPage > currentPage then Forward else Backward;
      var oldValue := currentPage;
      previousPage := currentPage;
      currentPage := newPage;
      OnCurrentPageChange(oldValue);
      haptics := haptics + PrimaryHapticImpacts(configuration, platform);
      TriggerMicroIndicatorFeedback(direction);
    }

    method FinishFlow()
      modifies this
      ensures Props() == old(Props())
      ensures State() == AfterFinish(Props(), old(State()))
    {
      if reduceMotion {
        finishCalls := finishCalls + 1;
      } else {
        showButtons := false;
        scheduledFinishes := scheduledFinishes + [ExitDelay(configuration)];
      }
    }

    method HandleNextButton()
      requires Valid()
      modifies this
      ensures Valid() && Props() == old(Props())
      ensures State() == AfterNext(Props(), old(State()))
    {
      var page := pages[currentPage];
      if page.action.Some? {
        actionsInvoked := actionsInvoked + [page.action.value];
      }
      if currentPage < |pages| - 1 {
        Advance(currentPage + 1);
      } else {
        FinishFlow();
      }
    }

    /** The Skip button's action. It checks nothing itself: the button only exists while `shouldShowSkip` holds. */
    method Skip()
      requires Valid() && ShouldShowSkip(pages, State())
      modifies this
      ensures Valid() && Props() == old(Props())
      ensures State() == AfterFinish(Props(), old(State()))
    {
      FinishFlow();
    }

    /** A swipe to page `index` through the `TabView` selection, which only the non-macOS containers have. */
    method Select(index: int)
      requires Valid() && 0 <= index < |pages| && UsesTabView(platform)
      modifies this
      ensures Valid() && Props() == old(Props())
      ensures State() == AfterSelect(Props(), old(State()), index)
    {
      if index == currentPage {
        return;
      }
      var oldValue := currentPage;
      currentPage := index;
      OnCurrentPageChange(oldValue);
    }

    /** The scheduled exit task wakes up and calls `onFinish`. */
    method FireScheduledFinish()
      requires |scheduledFinishes| > 0
      modifies this
      ensures Props() == old(Props())
      ensures State() == AfterFire(old(State()))
    {
      scheduledFinishes := scheduledFinishes[1..];
      finishCalls := finishCalls + 1;
    }
  }

  /**
   * The user presses the primary button of a freshly appeared view `N` times: the pages
   * shown are 1, 2, ..., N-1 in order and the finish is requested by the Nth press only.
   */
  method PressUntilFinished(view: PagedOnboardingView) returns (visited: seq<int>, finishPress: nat)
    requires view.Valid() && view.State() == Initial.(showButtons := true)
    modifies view
    ensures view.Props() == old(view.Props())
    ensures view.State() == Presses(view.Props(), old(view.State()), |view.pages|)
    ensures |visited| == |view.pages| - 1
    ensures forall i :: 0 <= i < |visited| ==> visited[i] == i + 1
    ensures finishPress == |view.pages|
  {
    ghost var props := view.Props();
    ghost var start := view.State();
    visited, finishPress := [], 0;
    var presses := 0;
    while presses < |view.pages|
      invariant view.Props() == props
      invariant 0 <= presses <= |view.pages|
      invariant view.State() == Presses(props, start, presses)
      invariant presses < |view.pages| ==> |visited| == presses && finishPress == 0
      invariant presses == |view.pages| ==> |visited| == |view.pages| - 1 && finishPress == |view.pages|
      invariant forall i :: 0 <= i < |visited| ==> visited[i] == i + 1
    {
      PressesFromFirstPage(props, start, presses);
      PressesFromFirstPage(props, start, presses + 1);
      var requested := view.finishCalls + |view.scheduledFinishes|;
      view.HandleNextButton();
      presses := presses + 1;
      if view.finishCalls + |view.scheduledFinishes| > requested {
        finishPress := presses;
      } else {
        visited := visited + [view.currentPage];
      }
    }
  }

  /**
   * A user who presses the primary button until the flow finishes: the pages shown are
   * 1, 2, ..., N-1 in order, the finish is requested by the Nth press and by no earlier
   * one, every page action runs once in page order, and once the scheduled exit has
   * run, `onFinish` has been called exactly once.
   */
  method PressThrough(pages: seq<OnboardingPage>, platform: Platform, reduceMotion: bool, configuration: Configuration)
    returns (visited: seq<int>, finishPress: nat, invoked: seq<Callback>, finishCalls: nat)
    requires |pages| > 0
    ensures |visited| == |pages| - 1
    ensures forall i :: 0 <= i < |visited| ==> visited[i] == i + 1
    ensures finishPress == |pages|
    ensures invoked == ActionsOf(pages)
    ensures finishCalls == 1
  {
    var view := new PagedOnboardingView(pages, platform, reduceMotion, configuration);
    view.OnAppear();
    ghost var start := view.State();
    visited, finishPress := PressUntilFinished(view);
    PressesFromFirstPage(view.Props(), start, |pages|);
    assert pages[..|pages|] == pages;
    invoked := view.actionsInvoked;
    while |view.scheduledFinishes| > 0
      invariant view.finishCalls + |view.scheduledFinishes| == 1
      decreases |view.scheduledFinishes|
    {
      view.FireScheduledFinish();
    }
    finishCalls := view.finishCalls;
  }
}
