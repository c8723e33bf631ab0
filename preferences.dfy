/**
 * The app's persisted preferences (`UserDefaults` for the app's own domain),
 * as an in-memory map from key to flag; only boolean flags are stored.
 */
module Preferences {

  type Store = map<string, bool>

  const VerboseLoggingKey: string := "enableVerboseLogging"
  const ShowDefaultCMPOnLaunchKey: string := "showDefaultCMPOnLaunch"

  /** The store after `removePersistentDomain(forName:)` for the app's domain. */
  const Wiped: Store := map[]

  /** The logging mode the app hands to the consent SDK. */
  datatype LogsMode = Verbose | Disabled

  function LogsModeFor(verbose: bool): LogsMode {
    if verbose then Verbose else Disabled
  }

  /** `UserDefaults.bool(forKey:)`: the stored flag, false when the key is unset. */
  function BoolForKey(store: Store, key: string): bool {
    if key in store then store[key] else false
  }

  /** An `@AppStorage` flag: the stored value, or the declared default when the key is unset. */
  function AppStorageValue(store: Store, key: string, default: bool): (v: bool)
    ensures key in store ==> v == BoolForKey(store, key)
    ensures key !in store ==> v == default
  {
    if key in store then store[key] else default
  }

  /** The store after the UIKit logging setup: the verbose flag is written as true only when unset. */
  function VerboseSetup(store: Store): (r: Store)
    ensures r.Keys == store.Keys + {VerboseLoggingKey}
    ensures forall k :: k in store ==> r[k] == store[k]
    ensures VerboseLoggingKey !in store ==> r[VerboseLoggingKey]
  {
    if VerboseLoggingKey in store then store else store[VerboseLoggingKey := true]
  }

  /** The logging setup leaves the flag set, reads true when it was unset and keeps a stored value; no other key changes. */
  lemma VerboseSetupDefaultsToTrue(store: Store)
    ensures VerboseLoggingKey in VerboseSetup(store)
    ensures BoolForKey(VerboseSetup(store), VerboseLoggingKey) == AppStorageValue(store, VerboseLoggingKey, true)
    ensures forall k :: k != VerboseLoggingKey ==> (k in VerboseSetup(store) <==> k in store)
    ensures forall k :: k in store ==> VerboseSetup(store)[k] == store[k]
    ensures VerboseSetup(VerboseSetup(store)) == VerboseSetup(store)
  {
  }

  /** A toggled logging flag survives the next launch's setup. */
  lemma ToggledFlagSurvivesSetup(store: Store, isOn: bool)
    ensures BoolForKey(VerboseSetup(store[VerboseLoggingKey := isOn]), VerboseLoggingKey) == isOn
  {
  }
}
