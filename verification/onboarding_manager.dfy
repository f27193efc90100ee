/**
 * `OnboardingManager`: the storage key for the last-seen version and the reset
 * utility. The platform's `UserDefaults` store is modelled as a class holding a
 * string-to-string map; `@AppStorage` reads a missing key as its default `""`.
 */
module OnboardingManager {

  /** `OnboardingManager.storageKey`, the key the wrapper's `@AppStorage` uses. */
  const StorageKey: string := "com.onboardingkit.lastSeenVersion"

  /** `UserDefaults`: a persistent key-value store, updated in place. */
  class UserDefaults {
    var values: map<string, string>

    constructor (initial: map<string, string>)
      ensures values == initial
    {
      values := initial;
    }

    /** `removeObject(forKey:)`. */
    method RemoveObject(key: string)
      modifies this
      ensures values == old(values) - {key}
    {
      values := values - {key};
    }

    /** `set(_:forKey:)` for a string value. */
    method SetString(value: string, key: string)
      modifies this
      ensures values == old(values)[key := value]
    {
      values := values[key := value];
    }
  }

  /** A string read through `@AppStorage(key)` with default `""`. */
  function StoredString(values: map<string, string>, key: string): (s: string)
    ensures key in values ==> s == values[key]
    ensures key !in values ==> s == ""
  {
    if key in values then values[key] else ""
  }

  /** The store after `resetOnboarding()`. */
  function Reset(values: map<string, string>): (r: map<string, string>)
    ensures StorageKey !in r
    ensures r.Keys == values.Keys - {StorageKey}
    ensures forall k :: k in r ==> r[k] == values[k]
  {
    values - {StorageKey}
  }

  /** After a reset the last-seen version reads as the empty string. */
  lemma ResetReadsEmpty(values: map<string, string>)
    ensures StoredString(Reset(values), StorageKey) == ""
  {
  }

  /** Reset is idempotent. */
  lemma ResetIdempotent(values: map<string, string>)
    ensures Reset(Reset(values)) == Reset(values)
  {
  }

  /** `resetOnboarding()`: removes the stored version from the shared store and leaves every other key alone. */
  method ResetOnboarding(defaults: UserDefaults)
    modifies defaults
    ensures defaults.values == Reset(old(defaults.values))
  {
    defaults.RemoveObject(StorageKey);
  }
}
