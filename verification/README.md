# OnboardingKit onboarding state machine, in Dafny

OnboardingKit is a SwiftUI library. It wraps an app's root view and shows one of three things when the app appears. A first launch gets a paged tour. An updated app gets a "What's New" sheet. Otherwise nothing is shown. The choice depends on a last-seen version string kept in `UserDefaults`. This project models the logic behind those views, without the SwiftUI layer, and proves what it does:

- `PageModel` models `OnboardingIcon`, `FeatureItem` and `OnboardingPage`. This covers their initialisers and the page's hand-written `==`, which ignores the action closure and the icon colour.
- `Animation` models `OnboardingAnimationConfiguration`. It covers the defaults, the page and micro-interaction animations, the directional transition for each style, and the haptic guard. All of it is a pure mapping onto abstract animation and transition descriptors.
- `OnboardingManager` models the storage key, the `UserDefaults` store (a class holding a `map<string, string>`) and `resetOnboarding()`.
- `PagedFlow` models `PagedOnboardingView`. Pure functions over a `FlowState` describe each transition. The state is the view's `@State` plus a record of its effects on collaborators: page actions invoked, `onFinish` calls, `onFinish` calls scheduled after the exit delay, and the haptic impacts of `advance(to:)`. The class `PagedOnboardingView` makes the same transitions by assigning its fields. Each method that has a transition function is proved to match it. `OnAppear`, `OnCurrentPageChange` and `SetReduceMotion` change one field each and state that update directly. `PressThrough` runs a whole flow.
- `WelcomeSheet` models `WelcomeSheetView`. It covers the stagger schedule, the suppression of animation under reduce motion, the `isAnimating` entrance state and the Continue action.
- `OnboardingWrapper` models `OnboardingWrapper`. It covers the version gate `Decide`, the routing of the onboarding kind to a screen, and the wrapper class with `checkOnboardingStatus` and `completeOnboarding`. It also has four end-to-end sessions: first launch, update, a sheet the system closes before completion, and reset-then-launch.

Times are seconds held as exact `real` values, so `0.9 × duration` and `0.2 + 0.1 × i` involve no rounding. UUIDs are supplied by the caller. Colours and action closures are opaque tokens.

The library compiles different code per platform, and the model takes the platform as an input (`Animation.Platform`: iOS, tvOS, watchOS, macOS):

- The haptic impact is compiled in only on iOS and tvOS (`HasImpactHaptics`). `PrimaryHapticImpacts` and `AfterAdvance` count an impact only there.
- iOS, tvOS and watchOS show the pages in a swipeable `TabView`. `Select` (a swipe) exists only there (`UsesTabView`).
- macOS shows the pages in a `ZStack` and attaches `TransitionFor` to the current page. `PageTransition` is that attachment, and it is absent on the other platforms.
- Only on iOS do the paged flow and the welcome sheet disable interactive dismissal. On tvOS, watchOS and macOS the system can close the sheet through the wrapper's `showOnboarding` binding without the flow completing. `DismissSheet` is that step. It records no version, so the next launch presents the same screen again (`DismissWithoutCompleting`).
- The button handlers, finishing, the version gate and the welcome sheet's schedule are the same on every platform.

Reduce motion is read from the SwiftUI environment at each use, so it can change during a flow. The view classes hold it in a mutable field. `SetReduceMotion` changes it, and every transition reads its current value.

Some behaviours of the code are worth stating outright:

- Nothing guards against finishing twice. Skip and the primary button both call `finishFlow`, and `showButtons = false` only dims the controls. See `LastPagePressedTwiceFinishesTwice`.
- The Skip action checks nothing. The button is only hidden, so `Skip` requires `ShouldShowSkip`, which is exactly when the button exists.
- The exit delay is `0.9 × duration`, and durations are never clamped. See `ExitDelay`.
- On iOS and tvOS, haptics fire on every real advance, even under reduce motion. See `AfterAdvance`.
- A flow with no pages is not rejected when it is built. It traps on the first page read. The model therefore requires a non-empty page sequence.
- The exit task is an unstructured `Task` that nothing cancels, and its sleep is wrapped in `try?`, so it reaches `onFinish` even if the sleep is interrupted. In the model every scheduled finish stays pending until it fires, and each one becomes a call.

## Model

| member | source | states |
|---|---|---|
| `PageModel.FeatureWithSystemImage` | Sources/OnboardingKit/FeatureItem.swift:16-20 | the row keeps id, title and description, and its icon is `.system(name)` |
| `PageModel.FeatureWithImage` | Sources/OnboardingKit/FeatureItem.swift:22-26 | the row keeps id, title and description, and its icon is `.asset(name)` |
| `PageModel.FeatureInitialisersDiffer` | Sources/OnboardingKit/FeatureItem.swift:16-26 | the two initialisers never build equal rows, whatever their arguments |
| `PageModel.PageWithSystemImage` | Sources/OnboardingKit/OnboardingPage.swift:44-58 | icon `.system(name)`, no action title, no action, other fields as given (background defaults to `.clear`) |
| `PageModel.PageWithImage` | Sources/OnboardingKit/OnboardingPage.swift:67-81 | icon `.asset(name)`, no action title, no action, other fields as given |
| `PageModel.PageWithAction` | Sources/OnboardingKit/OnboardingPage.swift:92-108 | icon `.system(name)`, action title and action both present |
| `PageModel.SamePage` | Sources/OnboardingKit/OnboardingPage.swift:111-118 | `==` holds exactly when the pages agree on everything except `action` and `iconColor` (equality of the `Rendered` projection) |
| `PageModel.EqualityIgnoresActionAndIconColor` | Sources/OnboardingKit/OnboardingPage.swift:110-118 | replacing a page's action or icon colour leaves it equal to the original |
| `PageModel.EqualPagesShowSameButtonTitle` | Sources/OnboardingKit/OnboardingPage.swift:111-118 | equal pages have the same button title, icon and title |
| `PageModel.FreshIdsNeverEqual` | Sources/OnboardingKit/OnboardingPage.swift:112 | pages with different UUIDs are never equal, so two separately built pages never are |
| `PageModel.SamePageIsEquivalence` | Sources/OnboardingKit/OnboardingPage.swift:111-118 | `==` is reflexive, symmetric and transitive |
| `Animation.DefaultConfiguration` | Sources/OnboardingKit/OnboardingAnimationConfiguration.swift:56-63 | defaults are `platformSlide`, `fade`, 0.35, 0.55, 0.82 and haptics on |
| `Animation.PageAnimation` | Sources/OnboardingKit/OnboardingAnimationConfiguration.swift:73-76 | no animation exactly under reduce motion, otherwise the configured spring |
| `Animation.MicroInteractionAnimation` | Sources/OnboardingKit/OnboardingAnimationConfiguration.swift:79-82 | no animation exactly under reduce motion, otherwise the fixed 0.44/0.9 spring |
| `Animation.ChosenStyle` | Sources/OnboardingKit/OnboardingAnimationConfiguration.swift:86 | the second configured style under reduce motion, otherwise the first; `ReducedMotionStyleIsNotForcedStatic` shows what that selection does to the transition |
| `Animation.TransitionFor` | Sources/OnboardingKit/OnboardingAnimationConfiguration.swift:85-99 | the style is chosen by reduce motion. Every transition fades on insertion and removal, and removal never zooms. A slide enters from the trailing edge going forward and the leading edge going backward, without zoom or offset. Fade is opacity only. Scale zooms the inserted page from 0.98, offsets it by +12 or -12, and removes with opacity only |
| `Animation.TransitionMirrorsDirection` | Sources/OnboardingKit/OnboardingAnimationConfiguration.swift:88-97 | the insertion offset going backward is the negation of the one going forward |
| `Animation.DefaultReducedMotionDoesNotMove` | Sources/OnboardingKit/OnboardingAnimationConfiguration.swift:86-92 | with the defaults, reduce motion yields a plain opacity transition |
| `Animation.ReducedMotionStyleIsNotForcedStatic` | Sources/OnboardingKit/OnboardingAnimationConfiguration.swift:86-97 | for every configuration, under reduce motion the page slides exactly when the second style is a slide, and is offset exactly when it is the scale style |
| `Animation.PrimaryHapticImpacts` | Sources/OnboardingKit/OnboardingAnimationConfiguration.swift:105-112 | one impact exactly when haptics are enabled and the platform is iOS or tvOS, otherwise none |
| `OnboardingManager.UserDefaults.RemoveObject` | Sources/OnboardingKit/OnboardingManager.swift:17 | removes exactly the given key |
| `OnboardingManager.UserDefaults.SetString` | Sources/OnboardingKit/OnboardingWrapper.swift:91 | sets exactly the given key |
| `OnboardingManager.StoredString` | Sources/OnboardingKit/OnboardingWrapper.swift:12 | the stored string, or `""` when the key is missing |
| `OnboardingManager.Reset` | Sources/OnboardingKit/OnboardingManager.swift:16-18 | the storage key is gone, and every other key keeps its value |
| `OnboardingManager.ResetReadsEmpty` | Sources/OnboardingKit/OnboardingManager.swift:17 | after a reset, the last-seen version reads as `""` |
| `OnboardingManager.ResetIdempotent` | Sources/OnboardingKit/OnboardingManager.swift:17 | resetting twice gives the same store as resetting once |
| `OnboardingManager.ResetOnboarding` | Sources/OnboardingKit/OnboardingManager.swift:16-18 | the shared store becomes `Reset` of what it was |
| `PagedFlow.ShouldShowSkip` | Sources/OnboardingKit/PagedOnboardingView.swift:137-139 | for valid state, Skip is offered exactly when not on the last page (the `count > 1` test adds nothing); when it is offered, a next page exists |
| `PagedFlow.ButtonTitle` | Sources/OnboardingKit/PagedOnboardingView.swift:141-145 | the page's own title if present. Otherwise "Next" exactly when Skip is offered, and "Get Started" exactly on the last page |
| `PagedFlow.DirectionFor` | Sources/OnboardingKit/PagedOnboardingView.swift:245-247 | forward exactly when the index is at least `previousPage`; `SwipeAndAdvanceAgreeOnDirection` relates it to the advance direction |
| `PagedFlow.AdvanceDirection` | Sources/OnboardingKit/PagedOnboardingView.swift:162 | forward exactly when the target index is larger than the current page |
| `PagedFlow.PageTransition` | Sources/OnboardingKit/PagedOnboardingView.swift:224-243 | a page gets a transition exactly on macOS, and it is `TransitionFor` with the direction `direction(for:)` gives that page |
| `PagedFlow.ExitDelay` | Sources/OnboardingKit/PagedOnboardingView.swift:183-185 | nine tenths of the duration, strictly between 0 and the duration when that is positive, never clamped |
| `PagedFlow.ParallaxStartOffset` | Sources/OnboardingKit/PagedOnboardingView.swift:319-326 | no offset exactly under reduce motion, otherwise ±10 and positive exactly when moving forward |
| `PagedFlow.AfterFeedback` | Sources/OnboardingKit/PagedOnboardingView.swift:191-199 | the pulse toggles unless reduce motion is on, and nothing else changes |
| `PagedFlow.AfterAdvance` | Sources/OnboardingKit/PagedOnboardingView.swift:160-173 | same page: no change. Otherwise `previousPage` becomes the old page and the target becomes current, so `direction(for:)` on the new page agrees with the direction `advance` computed. A haptic fires if enabled and the platform is iOS or tvOS, even under reduce motion. The pulse toggles only with motion. Buttons, actions and finishes are unchanged |
| `PagedFlow.AfterFinish` | Sources/OnboardingKit/PagedOnboardingView.swift:176-189 | under reduce motion `onFinish` is called at once. Otherwise the buttons dim and one call is scheduled after the exit delay. Each call adds exactly one finish request and nothing guards against repeats |
| `PagedFlow.AfterFire` | Sources/OnboardingKit/PagedOnboardingView.swift:183-187 | the scheduled task runs `onFinish`, turning the oldest pending finish into a call; the later pending delays are kept as they were |
| `PagedFlow.AfterNext` | Sources/OnboardingKit/PagedOnboardingView.swift:148-157 | the page's action runs first if present. Before the last page, the rest of the press is exactly `AfterAdvance` to the next page (haptic, pulse, buttons untouched). On the last page it is exactly `AfterFinish` (immediate under reduce motion, otherwise dimmed buttons and a scheduled call), staying on that page with one more finish requested. The indices stay in range |
| `PagedFlow.AfterSelect` | Sources/OnboardingKit/PagedOnboardingView.swift:132-134 | a swipe, together with the `onChange(of: currentPage)` update that follows it, makes the chosen page current and records the old one in `previousPage`, with no haptic and no pulse |
| `PagedFlow.Presses` | Sources/OnboardingKit/PagedOnboardingView.swift:148-157 | any number of presses keeps both indices in range and never moves backwards |
| `PagedFlow.AdvanceKeepsValid` | Sources/OnboardingKit/PagedOnboardingView.swift:160-170 | advancing to a page keeps both indices in range |
| `PagedFlow.SwipeAndAdvanceAgreeOnDirection` | Sources/OnboardingKit/PagedOnboardingView.swift:160-166 | after the `onChange(of: currentPage)` update, a page reached by a swipe has the `direction(for:)` that a button advance to it computes, and the same one an advance would leave it with |
| `PagedFlow.MacNewPageSlidesFromAdvanceSide` | Sources/OnboardingKit/PagedOnboardingView.swift:224-247 | on macOS with the slide style, the page an advance makes current slides in from the trailing edge when its index is larger and from the leading edge when smaller |
| `PagedFlow.PressesFromFirstPage` | Sources/OnboardingKit/PagedOnboardingView.swift:148-157 | from page 0, k < N presses reach page k with no finish. The Nth press requests exactly one finish and stays on the last page. The page actions run in page order |
| `PagedFlow.LastPagePressedTwiceFinishesTwice` | Sources/OnboardingKit/PagedOnboardingView.swift:152-156 | two presses on the last page request two finishes (there is no guard) |
| `PagedFlow.FinishEventuallyCallsOnce` | Sources/OnboardingKit/PagedOnboardingView.swift:176-189 | a finish calls `onFinish` once: at once under reduce motion, otherwise when the scheduled task fires |
| `PagedFlow.NewPageParallaxFollowsAdvance` | Sources/OnboardingKit/PagedOnboardingView.swift:319-326 | after a real advance, the new page's parallax starts at +10 when its index is larger and -10 when smaller |
| `PagedFlow.PagedOnboardingView.constructor` | Sources/OnboardingKit/PagedOnboardingView.swift:21-44 | the view starts on page 0 with previous page 0, dimmed buttons, pulse off and no effects |
| `PagedFlow.PagedOnboardingView.SetReduceMotion` | Sources/OnboardingKit/PagedOnboardingView.swift:18 | the environment's reduce-motion value changes and the flow state does not |
| `PagedFlow.PagedOnboardingView.OnAppear` | Sources/OnboardingKit/PagedOnboardingView.swift:126-131 | the buttons come to full opacity, and nothing else changes |
| `PagedFlow.PagedOnboardingView.OnCurrentPageChange` | Sources/OnboardingKit/PagedOnboardingView.swift:132-134 | `previousPage` becomes the old value, and nothing else changes |
| `PagedFlow.PagedOnboardingView.TriggerMicroIndicatorFeedback` | Sources/OnboardingKit/PagedOnboardingView.swift:191-199 | the new state is `AfterFeedback` of the old |
| `PagedFlow.PagedOnboardingView.Advance` | Sources/OnboardingKit/PagedOnboardingView.swift:160-173 | the new state is `AfterAdvance` of the old |
| `PagedFlow.PagedOnboardingView.FinishFlow` | Sources/OnboardingKit/PagedOnboardingView.swift:176-189 | the new state is `AfterFinish` of the old |
| `PagedFlow.PagedOnboardingView.HandleNextButton` | Sources/OnboardingKit/PagedOnboardingView.swift:148-157 | the new state is `AfterNext` of the old and stays valid |
| `PagedFlow.PagedOnboardingView.Skip` | Sources/OnboardingKit/PagedOnboardingView.swift:62-65 | while the button is shown, a tap finishes the flow exactly as `finishFlow` does |
| `PagedFlow.PagedOnboardingView.Select` | Sources/OnboardingKit/PagedOnboardingView.swift:203-205 | on the `TabView` platforms only, the new state is `AfterSelect` of the old |
| `PagedFlow.PagedOnboardingView.FireScheduledFinish` | Sources/OnboardingKit/PagedOnboardingView.swift:183-187 | the new state is `AfterFire` of the old |
| `PagedFlow.PressUntilFinished` | Sources/OnboardingKit/PagedOnboardingView.swift:148-157 | N presses from the appeared view show pages 1..N-1 in order and request the finish on the Nth press only, ending in the state `Presses` gives |
| `PagedFlow.PressThrough` | Sources/OnboardingKit/PagedOnboardingView.swift:148-157 | pressing through N pages shows pages 1..N-1 in order and requests the finish on the Nth press only. Every action runs once in page order, and `onFinish` is called exactly once |
| `WelcomeSheet.RowDelay` | Sources/OnboardingKit/WelcomeSheetView.swift:82 | row i waits 0.2 s + 0.1 s × i, and each row waits 0.1 s longer than the one before |
| `WelcomeSheet.RowAnimation` | Sources/OnboardingKit/WelcomeSheetView.swift:81-84 | no animation exactly under reduce motion, otherwise a 0.5 s ease-out after the row's delay |
| `WelcomeSheet.ContinueAnimation` | Sources/OnboardingKit/WelcomeSheetView.swift:109-112 | no animation exactly under reduce motion, otherwise a spring after 0.6 s |
| `WelcomeSheet.AppearAnimation` | Sources/OnboardingKit/WelcomeSheetView.swift:125-131 | the entrance update is unanimated exactly under reduce motion, otherwise a 0.6 s ease-out |
| `WelcomeSheet.RowAppearance` | Sources/OnboardingKit/WelcomeSheetView.swift:79-80 | a row is fully shown (opacity 1, offset 0) exactly when `isAnimating` holds |
| `WelcomeSheet.RowDelaysIncrease` | Sources/OnboardingKit/WelcomeSheetView.swift:82 | delays strictly increase with the row index |
| `WelcomeSheet.ContinueFollowsFirstFourRows` | Sources/OnboardingKit/WelcomeSheetView.swift:109-111 | Continue starts later than row i exactly when i < 4 (row 4 starts with it) |
| `WelcomeSheet.WelcomeSheetView.constructor` | Sources/OnboardingKit/WelcomeSheetView.swift:19-32 | the sheet starts not animating, with `onContinue` not yet called, and accepts any feature list (the empty one too) |
| `WelcomeSheet.WelcomeSheetView.AppearTaskFires` | Sources/OnboardingKit/WelcomeSheetView.swift:122-133 | `isAnimating` becomes true whether or not reduce motion is on |
| `WelcomeSheet.WelcomeSheetView.SetReduceMotion` | Sources/OnboardingKit/WelcomeSheetView.swift:17 | the environment's reduce-motion value changes; the entrance state and the Continue calls do not |
| `WelcomeSheet.WelcomeSheetView.TapContinue` | Sources/OnboardingKit/WelcomeSheetView.swift:96 | every tap calls `onContinue` once more, with no once-only guard |
| `WelcomeSheet.WelcomeSheetView.Row` | Sources/OnboardingKit/WelcomeSheetView.swift:57-84 | a row is fully shown exactly when animating, and unanimated exactly under reduce motion. Otherwise row `index` animates with its own stagger, `RowAnimation(index, …)`, starting after `RowDelay(index)` |
| `OnboardingWrapper.Decide` | Sources/OnboardingKit/OnboardingWrapper.swift:76-86 | first launch exactly when the last-seen version is empty. What's new exactly when it is non-empty and differs (as a character sequence). Dismiss exactly when it equals the current version. The kind `none` is never chosen |
| `OnboardingWrapper.Route` | Sources/OnboardingKit/OnboardingWrapper.swift:55-69 | nothing is shown unless `showOnboarding` holds. First launch routes to the paged flow, what's new to the feature sheet, and `none` to a progress view |
| `OnboardingWrapper.VersionsAreNotOrdered` | Sources/OnboardingKit/OnboardingWrapper.swift:76-82 | between any two different non-empty versions, moving either way (upgrade or downgrade) shows what's new |
| `OnboardingWrapper.FreshStoreIsFirstLaunch` | Sources/OnboardingKit/OnboardingWrapper.swift:12 | a store without the key yields first launch |
| `OnboardingWrapper.CompletedVersionIsNotShownAgain` | Sources/OnboardingKit/OnboardingWrapper.swift:88-93 | after completion with a non-empty version, a check with that version dismisses |
| `OnboardingWrapper.EmptyVersionNeverSettles` | Sources/OnboardingKit/OnboardingWrapper.swift:76-93 | with an empty current version, completion writes `""` and the next check is a first launch again |
| `OnboardingWrapper.ResetThenCheckIsFirstLaunch` | Sources/OnboardingKit/OnboardingManager.swift:13-17 | reset removes the key the wrapper reads, so the next check is a first launch |
| `OnboardingWrapper.OnboardingWrapperView.LastSeenVersion` | Sources/OnboardingKit/OnboardingWrapper.swift:12 | the string stored under the storage key, or `""` when the key is missing |
| `OnboardingWrapper.OnboardingWrapperView.PresentedScreen` | Sources/OnboardingKit/OnboardingWrapper.swift:55-69 | a wrapper never shows the progress placeholder |
| `OnboardingWrapper.OnboardingWrapperView.constructor` | Sources/OnboardingKit/OnboardingWrapper.swift:13-14 | starts hidden with kind `firstLaunch` |
| `OnboardingWrapper.OnboardingWrapperView.CheckOnboardingStatus` | Sources/OnboardingKit/OnboardingWrapper.swift:76-86 | `showOnboarding` is whether `Decide` presents. The kind is the decided one, or unchanged on dismissal |
| `OnboardingWrapper.OnboardingWrapperView.CompleteOnboarding` | Sources/OnboardingKit/OnboardingWrapper.swift:88-93 | hides the sheet and stores the current version under the storage key, and nothing else changes |
| `OnboardingWrapper.OnboardingWrapperView.DismissSheet` | Sources/OnboardingKit/OnboardingWrapper.swift:55 | off iOS, a system dismissal hides the sheet, keeps the kind, and leaves the store unchanged |
| `OnboardingWrapper.FirstLaunchSession` | Sources/OnboardingKit/OnboardingWrapper.swift:57-61 | a fresh store shows the paged flow. Pressing through calls `onFinish` once, which completes. The store then holds the version and the next launch shows nothing |
| `OnboardingWrapper.WhatsNewSession` | Sources/OnboardingKit/OnboardingWrapper.swift:62-65 | another stored version shows the feature sheet. Any number of Continue taps each call `onContinue` and complete. The store then holds the version and the next launch shows nothing |
| `OnboardingWrapper.DismissWithoutCompleting` | Sources/OnboardingKit/OnboardingWrapper.swift:54-55 | off iOS, a sheet closed before completion is presented again on the next launch. The screen is the same, shown exactly when `Decide` presents, and it is the paged flow exactly when no version is stored |
| `OnboardingWrapper.ResetThenLaunch` | Sources/OnboardingKit/OnboardingManager.swift:16-18 | after a reset, the next launch shows the paged flow, and every other stored key is kept |

## Left out

- SwiftUI layout, styling, fonts, padding, materials, focus state, the `TabView` and `ZStack` containers, and accessibility labels are presentational.
- Sources/OnboardingKit/OnboardingImageView.swift and Sources/OnboardingKit/OnboardingButtonStyle.swift are not part of this model. They hold icon rendering, colour shims, and the primary button's press-scale effect and press haptic.
- PagedFlow.AfterSelect: the `TabView` binding's write of `currentPage` (Sources/OnboardingKit/PagedOnboardingView.swift:205) and the `onChange(of: currentPage)` update of `previousPage` (lines 132-134) are merged into one step. The render between them, where the new page's `direction(for:)` is computed against the old `previousPage` and drives its parallax (lines 212 and 311-326), is not modelled. A swipe back from page 1 to page 0 after one press therefore starts page 0's parallax as forward in the library, while the model's post-update direction is backward.
- UIKit's impact generator is reduced to a count of impacts per call (`PrimaryHapticImpacts`, the `haptics` field).
- PagedFlow.FlowState: the `haptics` field counts only the impacts of `advance(to:)`. The primary button style fires one more impact on every press (Sources/OnboardingKit/OnboardingButtonStyle.swift:18-21), and that press haptic is left out. On iOS with haptics enabled, N presses through N pages emit 2N-1 impacts, and the model counts N-1.
- OnboardingWrapper.Decide: versions are compared as sequences of characters (Unicode scalars). Swift's `String` `!=` compares by canonical equivalence. The two differ only for versions that are canonically equivalent but encoded differently, such as a precomposed "é" against "e" followed by a combining accent. The library treats those as equal and dismisses, and the model shows what's new.
- Platforms other than iOS, tvOS, watchOS and macOS are not modelled. On them the page view compiles neither container.
- `withAnimation`, `Task.sleep` and `DispatchQueue.main.async` are timing calls. Delays are values. The exit task is a pending entry in `scheduledFinishes`, and `FireScheduledFinish` runs it. The sheet's 0.1 s sleep is the step `AppearTaskFires`.
- Floating-point arithmetic is not modelled. Times are exact reals, and spring parameters are opaque numbers.
- UUID generation is caller-supplied. `FreshIdsNeverEqual` assumes distinct ids rather than generating them.
- `Color` values are opaque tokens. `appName`, its `Bundle` default and `tintColor` are display-only.
- Page actions, `onFinish` and `onContinue` are closures. The model records their invocations but does not run them. The wrapper's completion closures are shown by the session methods, which call `CompleteOnboarding` once per recorded `onFinish` or `onContinue` call.
- `PageView`'s own entrance effect is not modelled: the `animate` toggle, the 0.05/0.12/0.20 s delays and the 0.98 scale of inactive pages. Neither are the page-indicator dots and the sheet header's text animation.
- The `direction` argument of `triggerMicroIndicatorFeedback` is accepted and, as in the code, unused.
- `WelcomeSheetView.swift` reads `backgroundColor` and `iconColor` from `FeatureItem`. `FeatureItem.swift` as modelled does not declare them, so row colours are not modelled.
