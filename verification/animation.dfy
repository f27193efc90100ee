/**
 * `OnboardingAnimationConfiguration`: a pure policy that maps the reduce-motion
 * preference, a page-change direction and the configured styles to an abstract
 * animation or transition descriptor. Times are seconds, kept as exact reals.
 */
module Animation {
  import opened Wrappers

  /** Page transition direction, used for parallax and the directional transitions. */
  datatype Direction = Forward | Backward

  /** Primary transition style for page changes. */
  datatype TransitionStyle = PlatformSlide | Fade | Scale

  datatype Edge = Leading | Trailing

  /** The platform the library is compiled for; several code paths are conditionally compiled. */
  datatype Platform = IOS | TvOS | WatchOS | MacOS

  /** Impact haptics are compiled in only for iOS and tvOS. */
  predicate HasImpactHaptics(platform: Platform) {
    platform == IOS || platform == TvOS
  }

  /** A SwiftUI animation curve: a spring or an ease-out of a given duration. */
  datatype Curve = Spring(response: real, dampingFraction: real) | EaseOut(duration: real)

  /** An animation curve started after `delay` seconds. */
  datatype Anim = Anim(curve: Curve, delay: real)

  /** An `AnyTransition` built from SwiftUI's primitive transitions. */
  datatype Transition =
    | Opacity
    | Move(edge: Edge)
    | ScaleTo(scale: real)
    | OffsetX(dx: int)
    | Combined(first: Transition, second: Transition)
    | Asymmetric(insertion: Transition, removal: Transition)

  /** The configuration record; its default arguments are those of the Swift initialiser. */
  datatype Configuration = Configuration(
    transitionStyle: TransitionStyle := PlatformSlide,
    reducedMotionTransitionStyle: TransitionStyle := Fade,
    duration: real := 0.35,
    springResponse: real := 0.55,
    springDampingFraction: real := 0.82,
    enableHaptics: bool := true)

  /** `OnboardingAnimationConfiguration.default`. */
  const Default: Configuration := Configuration()

  lemma DefaultConfiguration()
    ensures Default.transitionStyle == PlatformSlide && Default.reducedMotionTransitionStyle == Fade
    ensures Default.duration == 0.35 && Default.springResponse == 0.55
    ensures Default.springDampingFraction == 0.82 && Default.enableHaptics
  {
  }

  /** `pageAnimation(reduceMotion:)`: no animation under reduce motion, otherwise the configured spring. */
  function PageAnimation(c: Configuration, reduceMotion: bool): (a: Option<Anim>)
    ensures a.None? <==> reduceMotion
    ensures a.Some? ==> a.value.curve == Spring(c.springResponse, c.springDampingFraction) && a.value.delay == 0.0
  {
    if reduceMotion then None else Some(Anim(Spring(c.springResponse, c.springDampingFraction), 0.0))
  }

  /** `microInteractionAnimation(reduceMotion:)`: no animation under reduce motion, otherwise a fixed quick spring. */
  function MicroInteractionAnimation(c: Configuration, reduceMotion: bool): (a: Option<Anim>)
    ensures a.None? <==> reduceMotion
    ensures a.Some? ==> a.value == Anim(Spring(0.44, 0.9), 0.0)
  {
    if reduceMotion then None else Some(Anim(Spring(0.44, 0.9), 0.0))
  }

  /** The style `transition(for:reduceMotion:)` switches on: the second configured style under reduce motion, the first otherwise. */
  function ChosenStyle(c: Configuration, reduceMotion: bool): (style: TransitionStyle)
    ensures reduceMotion ==> style == c.reducedMotionTransitionStyle
    ensures !reduceMotion ==> style == c.transitionStyle
  {
    if reduceMotion then c.reducedMotionTransitionStyle else c.transitionStyle
  }

  // ---------------------------------------------------------------------------
  // Reading a transition descriptor

  /** The transition applied when a view is inserted. */
  function InsertionOf(t: Transition): Transition {
    if t.Asymmetric? then t.insertion else t
  }

  /** The transition applied when a view is removed. */
  function RemovalOf(t: Transition): Transition {
    if t.Asymmetric? then t.removal else t
  }

  /** Does the transition fade the view in or out? */
  predicate Fades(t: Transition) {
    match t
    case Opacity => true
    case Combined(a, b) => Fades(a) || Fades(b)
    case Asymmetric(i, r) => Fades(i) && Fades(r)
    case _ => false
  }

  /** The edge the view slides from or to, if the transition moves it. */
  function MoveEdge(t: Transition): Option<Edge> {
    match t
    case Move(e) => Some(e)
    case Combined(a, b) => if MoveEdge(a).Some? then MoveEdge(a) else MoveEdge(b)
    case _ => None
  }

  /** The overall scale factor the transition applies (1.0 when it does not scale). */
  function ScaleOf(t: Transition): real {
    match t
    case ScaleTo(k) => k
    case Combined(a, b) => ScaleOf(a) * ScaleOf(b)
    case _ => 1.0
  }

  /** The total horizontal offset the transition applies. */
  function Offset(t: Transition): int {
    match t
    case OffsetX(dx) => dx
    case Combined(a, b) => Offset(a) + Offset(b)
    case _ => 0
  }

  /**
   * `transition(for:reduceMotion:)`. Whatever the style, the page fades in and out;
   * the slide moves from the trailing edge forward and the leading edge backward,
   * without zoom; the scale style zooms the inserted page from 0.98, shifts it by
   * +12 forward and -12 backward, and removes it with a plain fade.
   */
  function TransitionFor(c: Configuration, direction: Direction, reduceMotion: bool): (t: Transition)
    ensures Fades(InsertionOf(t)) && Fades(RemovalOf(t))
    ensures ScaleOf(InsertionOf(t)) == (if ChosenStyle(c, reduceMotion) == Scale then 0.98 else 1.0)
    ensures ScaleOf(RemovalOf(t)) == 1.0
    ensures ChosenStyle(c, reduceMotion) == PlatformSlide ==>
              !t.Asymmetric? && MoveEdge(t) == Some(if direction == Forward then Trailing else Leading) && Offset(t) == 0
    ensures ChosenStyle(c, reduceMotion) == Fade ==> t == Opacity
    ensures ChosenStyle(c, reduceMotion) == Scale ==>
              && MoveEdge(InsertionOf(t)) == None
              && Offset(InsertionOf(t)) == (if direction == Forward then 12 else -12)
              && RemovalOf(t) == Opacity
  {
    match ChosenStyle(c, reduceMotion)
    case PlatformSlide =>
      Combined(Move(if direction == Forward then Trailing else Leading), Opacity)
    case Fade =>
      Opacity
    case Scale =>
      Asymmetric(Combined(Combined(Opacity, ScaleTo(0.98)), OffsetX(if direction == Forward then 12 else -12)), Opacity)
  }

  /** Going backward mirrors going forward: the inserted page's offset changes sign. */
  lemma TransitionMirrorsDirection(c: Configuration, reduceMotion: bool)
    ensures Offset(InsertionOf(TransitionFor(c, Backward, reduceMotion)))
         == -Offset(InsertionOf(TransitionFor(c, Forward, reduceMotion)))
  {
  }

  /** With the default configuration, reduce motion gives a plain fade: no movement, no offset. */
  lemma DefaultReducedMotionDoesNotMove(direction: Direction)
    ensures TransitionFor(Default, direction, true) == Opacity
  {
  }

  /**
   * Reduce motion only selects the second configured style: under it the page slides
   * exactly when that style is a slide, and is shifted exactly when it is the scale style.
   */
  lemma ReducedMotionStyleIsNotForcedStatic(c: Configuration, direction: Direction)
    ensures MoveEdge(TransitionFor(c, direction, true)).Some? <==> c.reducedMotionTransitionStyle == PlatformSlide
    ensures Offset(InsertionOf(TransitionFor(c, direction, true))) != 0 <==> c.reducedMotionTransitionStyle == Scale
  {
  }

  /**
   * `firePrimaryHapticIfNeeded()`: the number of impacts one call emits; one exactly
   * when haptics are enabled and the platform compiles the impact generator in.
   */
  function PrimaryHapticImpacts(c: Configuration, platform: Platform): (n: nat)
    ensures n <= 1
    ensures n == 1 <==> c.enableHaptics && HasImpactHaptics(platform)
  {
    if c.enableHaptics && HasImpactHaptics(platform) then 1 else 0
  }
}
