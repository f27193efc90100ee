/**
 * `OnboardingWrapper`: on appearing it reads the last-seen version from the store,
 * decides between the first-launch flow, the what's-new sheet and nothing, and on
 * completion of either flow writes the current version back.
 *
 * The decision is the pure function `Decide`; the wrapper's `@State` and the
 * store behind its `@AppStorage` are fields of `OnboardingWrapperView`. The
 * methods at the end run whole sessions against a fresh store.
 */
module OnboardingWrapper {
  import opened OnboardingManager
  import PageModel
  import Animation
  import PagedFlow
  import WelcomeSheet

  /** The wrapper's private `OnboardingType`. */
  datatype OnboardingType = None | FirstLaunch | WhatsNew

  /** What `checkOnboardingStatus` does: present a flow of some kind, or dismiss. */
  datatype Decision = Present(kind: OnboardingType) | Dismiss

  /**
   * The version gate. Versions are opaque tokens compared as character sequences: an empty
   * last-seen version means never onboarded, any other difference (a downgrade too)
   * means what's new, and the kind `none` is never chosen.
   */
  function Decide(lastSeenVersion: string, currentVersion: string): (d: Decision)
    ensures d == Present(FirstLaunch) <==> lastSeenVersion == ""
    ensures d == Present(WhatsNew) <==> lastSeenVersion != "" && lastSeenVersion != currentVersion
    ensures d == Dismiss <==> lastSeenVersion != "" && lastSeenVersion == currentVersion
    ensures d != Present(None)
  {
    if lastSeenVersion == "" then Present(FirstLaunch)
    else if lastSeenVersion != currentVersion then Present(WhatsNew)
    else Dismiss
  }

  /** What the wrapper shows over its content. */
  datatype Screen = Hidden | PagedFlowScreen | WelcomeSheetScreen | ProgressScreen

  /** The `.sheet(isPresented:)` and the `switch onboardingType` inside it. */
  function Route(showOnboarding: bool, kind: OnboardingType): (screen: Screen)
    ensures screen == Hidden <==> !showOnboarding
    ensures screen == PagedFlowScreen <==> showOnboarding && kind == FirstLaunch
    ensures screen == WelcomeSheetScreen <==> showOnboarding && kind == WhatsNew
    ensures screen == ProgressScreen <==> showOnboarding && kind == None
  {
    if !showOnboarding then Hidden
    else match kind
      case FirstLaunch => PagedFlowScreen
      case WhatsNew => WelcomeSheetScreen
      case None => ProgressScreen
  }

  /**
   * Versions are not ordered: between two different non-empty versions, moving either
   * way (an upgrade or a downgrade) shows what's new.
   */
  lemma VersionsAreNotOrdered(a: string, b: string)
    requires a != "" && b != "" && a != b
    ensures Decide(a, b) == Present(WhatsNew) && Decide(b, a) == Present(WhatsNew)
  {
  }

  /** A store that never held the key reads as never onboarded. */
  lemma FreshStoreIsFirstLaunch(currentVersion: string)
    ensures Decide(StoredString(map[], StorageKey), currentVersion) == Present(FirstLaunch)
  {
  }

  /** After completion writes a non-empty version, a check with that version dismisses. */
  lemma CompletedVersionIsNotShownAgain(values: map<string, string>, currentVersion: string)
    requires currentVersion != ""
    ensures Decide(StoredString(values[StorageKey := currentVersion], StorageKey), currentVersion) == Dismiss
  {
  }

  /** With an empty current version, completion writes "" back and the next check is a first launch again. */
  lemma EmptyVersionNeverSettles(values: map<string, string>)
    ensures Decide(StoredString(values[StorageKey := ""], StorageKey), "") == Present(FirstLaunch)
  {
  }

  /** `resetOnboarding()` removes the key the wrapper reads, so the next check is a first launch. */
  lemma ResetThenCheckIsFirstLaunch(values: map<string, string>, currentVersion: string)
    ensures Decide(StoredString(Reset(values), StorageKey), currentVersion) == Present(FirstLaunch)
  {
  }

  /** The wrapper: its `let` inputs as constants, its `@State` as fields, and the store behind `@AppStorage`. */
  class OnboardingWrapperView {
    const currentVersion: string
    const pages: seq<PageModel.OnboardingPage>
    const features: seq<PageModel.FeatureItem>
    const defaults: UserDefaults
    var showOnboarding: bool
    var onboardingType: OnboardingType

    /** The kind `none` is only the initial placeholder of the enum; the wrapper never holds it. */
    predicate Valid()
      reads this
    {
      onboardingType != None
    }

    /** `@AppStorage(OnboardingManager.storageKey) var lastSeenVersion = ""`. */
    function LastSeenVersion(): (v: string)
      reads this, defaults
      ensures StorageKey in defaults.values ==> v == defaults.values[StorageKey]
      ensures StorageKey !in defaults.values ==> v == ""
    {
      StoredString(defaults.values, StorageKey)
    }

    function PresentedScreen(): (screen: Screen)
      reads this
      requires Valid()
      ensures screen != ProgressScreen
    {
      Route(showOnboarding, onboardingType)
    }

    constructor (currentVersion: string, pages: seq<PageModel.OnboardingPage>,
                 features: seq<PageModel.FeatureItem>, defaults: UserDefaults)
      ensures this.currentVersion == currentVersion && this.pages == pages
      ensures this.features == features && this.defaults == defaults
      ensures !showOnboarding && onboardingType == FirstLaunch && Valid()
    {
      this.currentVersion := currentVersion;
      this.pages := pages;
      this.features := features;
      this.defaults := defaults;
      showOnboarding := false;
      onboardingType := FirstLaunch;
    }

    /** `checkOnboardingStatus()`: applies the version gate; on dismissal the kind is left as it was. */
    method CheckOnboardingStatus()
      requires Valid()
      modifies this
      ensures Valid()
      ensures var d := Decide(old(LastSeenVersion()), currentVersion);
              && showOnboarding == d.Present?
              && onboardingType == (if d.Present? then d.kind else old(onboardingType))
    {
      var lastSeenVersion := LastSeenVersion();
      if lastSeenVersion == "" {
        onboardingType := FirstLaunch;
        showOnboarding := true;
      } else if lastSeenVersion != currentVersion {
        onboardingType := WhatsNew;
        showOnboarding := true;
      } else {
        showOnboarding := false;
      }
    }

    /** `completeOnboarding()`: dismisses and records the current version in the store; nothing else changes. */
    method CompleteOnboarding()
      modifies this, defaults
      ensures !showOnboarding && onboardingType == old(onboardingType)
      ensures defaults.values == old(defaults.values)[StorageKey := currentVersion]
      ensures LastSeenVersion() == currentVersion
    {
      showOnboarding := false;
      defaults.SetString(currentVersion, StorageKey);
    }

    /**
     * The system closes the sheet through the `showOnboarding` binding without the flow
     * completing. Only the iOS sheets disable interactive dismissal, so this can happen
     * on tvOS, watchOS and macOS; the version is not recorded.
     */
    method DismissSheet(platform: Animation.Platform)
      requires platform != Animation.IOS
      modifies this
      ensures !showOnboarding && onboardingType == old(onboardingType)
      ensures defaults.values == old(defaults.values)
    {
      showOnboarding := false;
    }
  }

  /**
   * A first launch: a fresh store presents the paged flow; the user presses the primary
   * button through every page, each `onFinish` call runs the wrapper's completion, the
   * store then holds the current version, and the next launch shows nothing.
   */
  method FirstLaunchSession(currentVersion: string, pages: seq<PageModel.OnboardingPage>,
                            platform: Animation.Platform, reduceMotion: bool)
    returns (shown: Screen, finishCalls: nat, storedAfter: string, relaunch: Screen)
    requires currentVersion != "" && |pages| > 0
    ensures shown == PagedFlowScreen
    ensures finishCalls == 1
    ensures storedAfter == currentVersion
    ensures relaunch == Hidden
  {
    var defaults := new UserDefaults(map[]);
    var wrapper := new OnboardingWrapperView(currentVersion, pages, [], defaults);
    wrapper.CheckOnboardingStatus();
    shown := wrapper.PresentedScreen();
    var visited, finishPress, invoked;
    visited, finishPress, invoked, finishCalls := PagedFlow.PressThrough(pages, platform, reduceMotion, Animation.Default);
    var completed := 0;
    while completed < finishCalls
      invariant completed <= finishCalls
      invariant completed > 0 ==> wrapper.LastSeenVersion() == currentVersion
    {
      wrapper.CompleteOnboarding();
      completed := completed + 1;
    }
    storedAfter := wrapper.LastSeenVersion();
    var next := new OnboardingWrapperView(currentVersion, pages, [], defaults);
    next.CheckOnboardingStatus();
    relaunch := next.PresentedScreen();
  }

  /**
   * An update: a store holding an older (or any other) version presents the what's-new
   * sheet; every tap on Continue runs the completion, which is harmless when repeated;
   * the store then holds the current version and the next launch shows nothing.
   */
  method WhatsNewSession(previousVersion: string, currentVersion: string,
                         features: seq<PageModel.FeatureItem>, reduceMotion: bool, taps: nat)
    returns (shown: Screen, continueCalls: nat, storedAfter: string, relaunch: Screen)
    requires previousVersion != "" && previousVersion != currentVersion && currentVersion != ""
    requires taps > 0
    ensures shown == WelcomeSheetScreen
    ensures continueCalls == taps
    ensures storedAfter == currentVersion
    ensures relaunch == Hidden
  {
    var defaults := new UserDefaults(map[StorageKey := previousVersion]);
    var wrapper := new OnboardingWrapperView(currentVersion, [], features, defaults);
    wrapper.CheckOnboardingStatus();
    shown := wrapper.PresentedScreen();
    var sheet := new WelcomeSheet.WelcomeSheetView(features, reduceMotion);
    sheet.AppearTaskFires();
    var done := 0;
    while done < taps
      invariant done <= taps
      invariant sheet.continueCalls == done
      invariant done > 0 ==> wrapper.LastSeenVersion() == currentVersion
    {
      sheet.TapContinue();
      wrapper.CompleteOnboarding();
      done := done + 1;
    }
    continueCalls := sheet.continueCalls;
    storedAfter := wrapper.LastSeenVersion();
    var next := new OnboardingWrapperView(currentVersion, [], features, defaults);
    next.CheckOnboardingStatus();
    relaunch := next.PresentedScreen();
  }

  /**
   * On a platform without `interactiveDismissDisabled`, a sheet the system closes before
   * completion leaves the store as it was, so the next launch presents the same screen again.
   */
  method DismissWithoutCompleting(stored: map<string, string>, currentVersion: string, platform: Animation.Platform)
    returns (first: Screen, relaunch: Screen)
    requires platform != Animation.IOS
    ensures first == relaunch
    ensures first != Hidden <==> Decide(StoredString(stored, StorageKey), currentVersion).Present?
    ensures first == PagedFlowScreen <==> StoredString(stored, StorageKey) == ""
  {
    var defaults := new UserDefaults(stored);
    var wrapper := new OnboardingWrapperView(currentVersion, [], [], defaults);
    wrapper.CheckOnboardingStatus();
    first := wrapper.PresentedScreen();
    wrapper.DismissSheet(platform);
    var next := new OnboardingWrapperView(currentVersion, [], [], defaults);
    next.CheckOnboardingStatus();
    relaunch := next.PresentedScreen();
  }

  /** After `resetOnboarding()`, whatever the store held, the next launch presents the first-launch flow. */
  method ResetThenLaunch(stored: map<string, string>, currentVersion: string)
    returns (screen: Screen, untouched: map<string, string>)
    ensures screen == PagedFlowScreen
    ensures untouched == stored - {StorageKey}
  {
    var defaults := new UserDefaults(stored);
    ResetOnboarding(defaults);
    untouched := defaults.values;
    var wrapper := new OnboardingWrapperView(currentVersion, [], [], defaults);
    wrapper.CheckOnboardingStatus();
    screen := wrapper.PresentedScreen();
  }
}
