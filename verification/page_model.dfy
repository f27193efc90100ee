/**
 * The value types of OnboardingKit: the icon reference, the what's-new feature row
 * and the onboarding page with its hand-written equality.
 *
 * UUIDs are supplied by the caller (a fresh one per construction), colours and
 * action closures are opaque tokens that can only be compared.
 */
module PageModel {
  import opened Wrappers

  /** A `UUID`; the caller supplies a fresh one for every construction. */
  type Uuid = nat

  /** A SwiftUI `Color`, compared only for equality. */
  datatype Color = Clear | Blue | Custom(token: nat)

  /** A page's action closure; the model only records which one was invoked. */
  datatype Callback = Callback(token: nat)

  /** `OnboardingIcon`: an SF Symbol name or an asset-catalogue name. */
  datatype OnboardingIcon = System(name: string) | Asset(name: string)

  // ---------------------------------------------------------------------------
  // FeatureItem

  /** `FeatureItem`: one row of the what's-new sheet; its synthesized `==` compares every field. */
  datatype FeatureItem = FeatureItem(id: Uuid, title: string, description: string, icon: OnboardingIcon)

  /** `FeatureItem(title:description:systemImage:)`. */
  function FeatureWithSystemImage(id: Uuid, title: string, description: string, systemImage: string): (f: FeatureItem)
    ensures f.icon.System? && f.icon.name == systemImage
    ensures f.id == id && f.title == title && f.description == description
  {
    FeatureItem(id, title, description, System(systemImage))
  }

  /** `FeatureItem(title:description:image:)`. */
  function FeatureWithImage(id: Uuid, title: string, description: string, image: string): (f: FeatureItem)
    ensures f.icon.Asset? && f.icon.name == image
    ensures f.id == id && f.title == title && f.description == description
  {
    FeatureItem(id, title, description, Asset(image))
  }

  /** The two feature initialisers never build the same row, whatever their arguments. */
  lemma FeatureInitialisersDiffer(id: Uuid, title: string, description: string, name: string,
                                  id': Uuid, title': string, description': string, name': string)
    ensures FeatureWithSystemImage(id, title, description, name) != FeatureWithImage(id', title', description', name')
  {
  }

  // ---------------------------------------------------------------------------
  // OnboardingPage

  /** `OnboardingPage`: one screen of the first-launch flow. All fields are immutable. */
  datatype OnboardingPage = OnboardingPage(
    id: Uuid,
    title: string,
    description: string,
    icon: OnboardingIcon,
    backgroundColor: Color,
    iconColor: Option<Color>,
    actionButtonTitle: Option<string>,
    action: Option<Callback>)

  /** `OnboardingPage(title:description:systemImage:backgroundColor:iconColor:)`. */
  function PageWithSystemImage(id: Uuid, title: string, description: string, systemImage: string,
                               backgroundColor: Color := Clear, iconColor: Option<Color> := None): (p: OnboardingPage)
    ensures p.icon == System(systemImage)
    ensures p.actionButtonTitle == None && p.action == None
    ensures p.id == id && p.title == title && p.description == description
    ensures p.backgroundColor == backgroundColor && p.iconColor == iconColor
  {
    OnboardingPage(id, title, description, System(systemImage), backgroundColor, iconColor, None, None)
  }

  /** `OnboardingPage(title:description:image:backgroundColor:iconColor:)`. */
  function PageWithImage(id: Uuid, title: string, description: string, image: string,
                         backgroundColor: Color := Clear, iconColor: Option<Color> := None): (p: OnboardingPage)
    ensures p.icon == Asset(image)
    ensures p.actionButtonTitle == None && p.action == None
    ensures p.id == id && p.title == title && p.description == description
    ensures p.backgroundColor == backgroundColor && p.iconColor == iconColor
  {
    OnboardingPage(id, title, description, Asset(image), backgroundColor, iconColor, None, None)
  }

  /** `OnboardingPage(title:description:systemImage:backgroundColor:iconColor:actionTitle:action:)`. */
  function PageWithAction(id: Uuid, title: string, description: string, systemImage: string,
                          actionTitle: string, action: Callback,
                          backgroundColor: Color := Clear, iconColor: Option<Color> := None): (p: OnboardingPage)
    ensures p.icon == System(systemImage)
    ensures p.actionButtonTitle == Some(actionTitle) && p.action == Some(action)
    ensures p.id == id && p.title == title && p.description == description
    ensures p.backgroundColor == backgroundColor && p.iconColor == iconColor
  {
    OnboardingPage(id, title, description, System(systemImage), backgroundColor, iconColor, Some(actionTitle), Some(action))
  }

  /** The part of a page that its equality looks at: every field except `iconColor` and `action`. */
  datatype RenderedPage = RenderedPage(
    id: Uuid, title: string, description: string, icon: OnboardingIcon,
    backgroundColor: Color, actionButtonTitle: Option<string>)

  function Rendered(p: OnboardingPage): RenderedPage {
    RenderedPage(p.id, p.title, p.description, p.icon, p.backgroundColor, p.actionButtonTitle)
  }

  /** The custom `==` of `OnboardingPage`: two pages are equal exactly when their rendered parts are. */
  predicate SamePage(lhs: OnboardingPage, rhs: OnboardingPage)
    ensures SamePage(lhs, rhs) <==> Rendered(lhs) == Rendered(rhs)
  {
    && lhs.id == rhs.id
    && lhs.title == rhs.title
    && lhs.description == rhs.description
    && lhs.icon == rhs.icon
    && lhs.backgroundColor == rhs.backgroundColor
    && lhs.actionButtonTitle == rhs.actionButtonTitle
  }

  /** Changing a page's action or icon colour never changes what it is equal to. */
  lemma EqualityIgnoresActionAndIconColor(p: OnboardingPage, action: Option<Callback>, iconColor: Option<Color>)
    ensures SamePage(p, p.(action := action, iconColor := iconColor))
  {
  }

  /** Equal pages agree on every compared field, so in particular on the button title. */
  lemma EqualPagesShowSameButtonTitle(a: OnboardingPage, b: OnboardingPage)
    requires SamePage(a, b)
    ensures a.actionButtonTitle == b.actionButtonTitle && a.icon == b.icon && a.title == b.title
  {
  }

  /** Pages built separately get distinct UUIDs and are therefore never equal, even with identical arguments. */
  lemma FreshIdsNeverEqual(a: OnboardingPage, b: OnboardingPage)
    requires a.id != b.id
    ensures !SamePage(a, b)
  {
  }

  /** `==` is an equivalence relation: it is a conjunction of field equalities. */
  lemma SamePageIsEquivalence(a: OnboardingPage, b: OnboardingPage, c: OnboardingPage)
    ensures SamePage(a, a)
    ensures SamePage(a, b) ==> SamePage(b, a)
    ensures SamePage(a, b) && SamePage(b, c) ==> SamePage(a, c)
  {
  }
}
