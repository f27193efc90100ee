/**
 * `WelcomeSheetView`'s behaviour without the layout: the entrance state
 * `isAnimating`, the staggered entrance schedule of the feature rows and the
 * Continue button, their suppression under reduce motion, and the Continue action.
 * Times are seconds, kept as exact reals.
 */
module WelcomeSheet {
  import opened Wrappers
  import opened PageModel
  import opened Animation

  /** How long after appearing the entrance is started. */
  const AppearDelay: real := 0.1

  /** The entrance delay of feature row `index`: 0.2 s, plus 0.1 s per earlier row. */
  function RowDelay(index: nat): (delay: real)
    ensures delay >= 0.2
    ensures index == 0 ==> delay == 0.2
    ensures index > 0 ==> delay == RowDelay(index - 1) + 0.1
  {
    0.2 + (index as real) * 0.1
  }

  /** The animation attached to feature row `index`: none under reduce motion, otherwise a 0.5 s ease-out after its stagger delay. */
  function RowAnimation(index: nat, reduceMotion: bool): (a: Option<Anim>)
    ensures a.None? <==> reduceMotion
    ensures a.Some? ==> a.value.curve == EaseOut(0.5) && a.value.delay == RowDelay(index)
  {
    if reduceMotion then None else Some(Anim(EaseOut(0.5), RowDelay(index)))
  }

  /** The animation attached to the Continue button: none under reduce motion, otherwise a spring after 0.6 s. */
  function ContinueAnimation(reduceMotion: bool): (a: Option<Anim>)
    ensures a.None? <==> reduceMotion
    ensures a.Some? ==> a.value == Anim(Spring(0.6, 0.7), 0.6)
  {
    if reduceMotion then None else Some(Anim(Spring(0.6, 0.7), 0.6))
  }

  /** The `withAnimation` wrapper around the `isAnimating` update in `onAppear`: none under reduce motion. */
  function AppearAnimation(reduceMotion: bool): (a: Option<Anim>)
    ensures a.None? <==> reduceMotion
    ensures a.Some? ==> a.value == Anim(EaseOut(0.6), 0.0)
  {
    if reduceMotion then None else Some(Anim(EaseOut(0.6), 0.0))
  }

  /** A feature row's opacity and horizontal offset. */
  datatype RowLook = RowLook(opacity: real, offsetX: int)

  /** A row is fully shown (opaque, in place) exactly when the sheet is animating in; before that it waits 20 points to the right, invisible. */
  function RowAppearance(isAnimating: bool): (look: RowLook)
    ensures look == RowLook(1.0, 0) <==> isAnimating
    ensures !isAnimating ==> look.opacity == 0.0 && look.offsetX == 20
  {
    if isAnimating then RowLook(1.0, 0) else RowLook(0.0, 20)
  }

  /** Later rows start strictly later. */
  lemma RowDelaysIncrease(i: nat, j: nat)
    requires i < j
    ensures RowDelay(i) < RowDelay(j)
  {
  }

  /** The Continue button starts after rows 0 to 3; row 4 starts with it and later rows after it. */
  lemma ContinueFollowsFirstFourRows(index: nat)
    ensures ContinueAnimation(false).value.delay > RowDelay(index) <==> index < 4
  {
  }

  /**
   * The sheet's state: whether the entrance has been triggered, how often `onContinue`
   * was called, and the `@Environment` reduce-motion value, which may change at any step.
   */
  class WelcomeSheetView {
    const features: seq<FeatureItem>
    var reduceMotion: bool
    var isAnimating: bool
    var continueCalls: nat

    /** `init(appName:features:tintColor:onContinue:)`; an empty feature list is allowed. */
    constructor (features: seq<FeatureItem>, reduceMotion: bool)
      ensures this.features == features && this.reduceMotion == reduceMotion
      ensures !isAnimating && continueCalls == 0
    {
      this.features := features;
      this.reduceMotion := reduceMotion;
      isAnimating := false;
      continueCalls := 0;
    }

    /**
     * The `onAppear` task, once its `AppearDelay` sleep is over: the entrance starts whether
     * or not reduce motion is on (only the animation wrapper, `AppearAnimation`, differs).
     */
    method AppearTaskFires()
      modifies this
      ensures isAnimating && continueCalls == old(continueCalls) && reduceMotion == old(reduceMotion)
    {
      isAnimating := true;
    }

    /** A tap on Continue calls `onContinue` directly; nothing stops a second tap from calling it again. */
    method TapContinue()
      modifies this
      ensures continueCalls == old(continueCalls) + 1 && isAnimating == old(isAnimating)
      ensures reduceMotion == old(reduceMotion)
    {
      continueCalls := continueCalls + 1;
    }

    /** The user turns reduce motion on or off while the sheet is shown. */
    method SetReduceMotion(on: bool)
      modifies this
      ensures reduceMotion == on
      ensures isAnimating == old(isAnimating) && continueCalls == old(continueCalls)
    {
      reduceMotion := on;
    }

    /** What row `index` looks like now and how it animates into that look. */
    function Row(index: nat): (r: (RowLook, Option<Anim>))
      reads this
      requires index < |features|
      ensures r.0 == RowLook(1.0, 0) <==> isAnimating
      ensures r.1.None? <==> reduceMotion
      ensures r.1 == RowAnimation(index, reduceMotion)
      ensures r.1.Some? ==> r.1.value.delay == RowDelay(index)
    {
      (RowAppearance(isAnimating), RowAnimation(index, reduceMotion))
    }
  }
}
