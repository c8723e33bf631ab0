# Consent-screen logic of the Clickio consent SDK iOS demo

The demo app has four consent screens (UIKit and SwiftUI, each in a basic
variant and a variant with an ad banner). They call two closed-source SDKs
(the Clickio consent SDK and Google Mobile Ads). The app owns two small pieces
of logic, which this project models and proves things about:

- **The ad-eligibility gate.** It decides from the consent state the SDK
  reports whether the ad banner may be shown. The UIKit screen is
  edge-triggered: it raises its banner flag once, on the first move from
  "no decision" to a decided state, and never lowers it. The SwiftUI screen is
  level-triggered: the flag mirrors the current state. `AdGate` holds both as
  step functions and proves properties of whole runs of reports. Along a run
  that never returns to "no decision", the one-shot fires at most once, and
  exactly once when the gate is armed and a decided state arrives. A return to
  "no decision" re-arms it, so it can fire again; a lemma shows such a run with
  two firings. The one-shot never lowers its flag, and it is up whenever the
  level flag is up. The converse fails, and a lemma shows a run where it fails.
- **The diagnostic table.** It has 17 (title, value) rows, shown first as
  placeholders and then refreshed from the SDK's getters. An absent answer
  shows as "Unknown", and every absent Google Consent Mode flag shows as
  `false`. `DiagnosticTable` proves that the titles never change order and
  that the separator stays at index 4. A parser for the Google Consent Mode
  text is its partner: the text reads back to exactly the flags it came from.

Around these sit the lifecycle and preference flags. `Preferences` models
`UserDefaults` as a `map<string, bool>`. Each screen is a class in its own
module (`UIKitAdsConsent`, `UIKitConsent`, `SwiftUIAdsConsent`,
`SwiftUIConsent`). The class's fields are the screen's state, and each SDK
callback or button is a method that takes the SDK's answers as inputs.
`ConsentCell` models the UIKit rows, whose values are optional, and the
cell that shows a missing value as "null". The SwiftUI `ConsentDataItem`
initializer is the datatype constructor `DiagnosticTable.Row`: it stores
exactly the title and value it is given.

Clearing data calls `removePersistentDomain`, which wipes the whole app
domain. That includes whatever the consent SDK keeps in the standard defaults;
the model does not track that part, so the refresh that follows takes any SDK
answers. Of the app's own flags, the UIKit banner screen stores only the
verbose one, because its `showDefaultCMPOnLaunch` is a plain property that is
never stored. On the SwiftUI banner screen both flags are stored; after the
wipe the screen writes `showDefaultCMPOnLaunch = false`, and the
verbose-logging flag reads back as its `@AppStorage` default, true. When that
flag was stored as false, the toggle's change handler (`.onChange`) then hands
verbose logging to the SDK.

The SwiftUI screens lock all their controls until the first ready callback
(`.disabled(!isInitialized)`). In the model the button-driven methods of those
screens require `isInitialized`; the SDK callbacks that refresh the table do not.

## Model

| member | source | states |
|---|---|---|
| AdGate.OneShotStep | UIKit_example/ClickioSDK_Integration_Example_iOS/ViewControllers/ConsentViewController.swift:116-138 | the banner rises exactly when the gate is armed (last state "no decision") and a decided state arrives; it is never lowered; an absent state, or a decided state while already decided, changes nothing; reachable states stay consistent |
| AdGate.DisarmedGateIgnoresDecidedUpdates | UIKit_example/ClickioSDK_Integration_Example_iOS/ViewControllers/ConsentViewController.swift:129-132 | once the gate has left "no decision", any run of reports that never returns to it leaves the whole gate unchanged and raises nothing (repeated decided updates are idempotent) |
| AdGate.OneShotFiresExactlyOnce | UIKit_example/ClickioSDK_Integration_Example_iOS/ViewControllers/ConsentViewController.swift:128-137 | from an armed gate, a run that never returns to "no decision" and holds a decided report raises the banner exactly once, wherever absent reports come before it |
| AdGate.OneShotFiresAgainAfterNoDecision | UIKit_example/ClickioSDK_Integration_Example_iOS/ViewControllers/ConsentViewController.swift:121-125 | the at-most-once promise needs its condition: decided, "no decision", decided raises the banner twice, because "no decision" re-arms the gate |
| AdGate.OneShotFiresAtMostOnce | UIKit_example/ClickioSDK_Integration_Example_iOS/ViewControllers/ConsentViewController.swift:133-137 | along any run of reports that never returns to "no decision", the banner-raising transition happens at most once |
| AdGate.OneShotBannerIffFired | UIKit_example/ClickioSDK_Integration_Example_iOS/ViewControllers/ConsentViewController.swift:133-137 | after a run the banner is up if and only if it was up before or some step raised it |
| AdGate.OneShotBannerStaysRaised | UIKit_example/ClickioSDK_Integration_Example_iOS/ViewControllers/ConsentViewController.swift:137 | the banner flag is never reset: once true it stays true along every run |
| AdGate.OneShotRunConsistent | UIKit_example/ClickioSDK_Integration_Example_iOS/ViewControllers/ConsentViewController.swift:121-137 | from the initial state (last state "no decision", banner down), every reachable gate remembers a state, and a gate no longer waiting for "no decision" has its banner up |
| AdGate.LevelRunFollowsLastReport | SwiftUI_example/ClickioSDK_Integration_Example_iOS_SwiftUI/Views/ConsentView.swift:134-147 | the level-triggered flag after a run equals "the last report is present and not no-decision", whatever came before |
| AdGate.OneShotCoversLevel | SwiftUI_example/ClickioSDK_Integration_Example_iOS_SwiftUI/Views/ConsentView.swift:134-147 | from any consistent one-shot state, whenever the level-triggered flag ends up true the one-shot flag does too |
| AdGate.OneShotKeepsWhatLevelDrops | UIKit_example/ClickioSDK_Integration_Example_iOS/ViewControllers/ConsentViewController.swift:122-125 | after a decided state and then a return to "no decision", the one-shot banner stays up while the level-triggered one drops |
| DiagnosticTable.DefaultRows | SwiftUI_example/ClickioSDK_Integration_Example_iOS_SwiftUI/Views/ConsentView.swift:150-170 | 17 rows in the fixed title order; row 4 is the (" ", " ") separator; every other value is "Unknown" and no other title is blank |
| DiagnosticTable.RowsFrom | SwiftUI_example/ClickioSDK_Integration_Example_iOS_SwiftUI/Views/ConsentView.swift:173-216 | 17 rows with the same titles in the same order as the placeholders, separator at 4; each getter's row shows its answer, or "Unknown" when absent; purpose and vendor checks show "true"/"false"; the last row is the Google Consent Mode text of the effective flags |
| DiagnosticTable.EffectiveFlags | UIKit_example/ClickioSDK_Integration_Example_iOS/ViewControllers/ConsentViewController.swift:176-177 | with no mode every flag is false; otherwise each flag is granted exactly when the SDK reports it present and true (`?? false`) |
| DiagnosticTable.GoogleConsentText | UIKit_example/ClickioSDK_Integration_Example_iOS/ViewControllers/ConsentViewController.swift:177 | the Google row text starts with "Analytics Storage: " and is never the "Unknown" placeholder |
| DiagnosticTable.GoogleConsentTextRoundTrip | SwiftUI_example/ClickioSDK_Integration_Example_iOS_SwiftUI/Views/ConsentView.swift:194-195 | the Google Consent Mode text reads back to exactly the four flags it was made from |
| DiagnosticTable.GoogleConsentTextInjective | SwiftUI_example/ClickioSDK_Integration_Example_iOS_SwiftUI/Views/ConsentView.swift:195 | different effective flags never render as the same text |
| DiagnosticTable.GoogleRowReadsAbsentAsFalse | UIKit_example/ClickioSDK_Integration_Example_iOS/ConsentViewController.swift:125-126 | in the Google row an absent mode reads as four false flags, each absent flag reads as false, and each present flag reads as given, in the fixed four-field order |
| DiagnosticTable.RefreshWithNothingKnown | SwiftUI_example/ClickioSDK_Integration_Example_iOS_SwiftUI/ConsentView.swift:125-168 | a refresh where every getter answers nothing equals the placeholder table except the Google row, which reads as four false flags instead of "Unknown" |
| ConsentCell.Configure | UIKit_example/ClickioSDK_Integration_Example_iOS/ConsentViewController.swift:253-256 | the title label shows the title unchanged; the value label shows the value, or "null" for nil |
| ConsentCell.ConfigureShowsNullOnlyForNil | UIKit_example/ClickioSDK_Integration_Example_iOS/ConsentViewController.swift:253-256 | a cell shows the title unchanged; the value label reads "null" exactly when the value is nil or is itself "null", and otherwise shows the value |
| ConsentCell.CellsShowTheRows | UIKit_example/ClickioSDK_Integration_Example_iOS/ConsentViewController.swift:205-210 | the cells of a table built from rows show exactly those rows |
| Preferences.VerboseSetup | UIKit_example/ClickioSDK_Integration_Example_iOS/ViewControllers/ConsentViewController.swift:214-218 | the setup adds the verbose key and nothing else, keeps every stored value, and writes true when the key was unset |
| Preferences.AppStorageValue | SwiftUI_example/ClickioSDK_Integration_Example_iOS_SwiftUI/Views/ConsentView.swift:18-19 | an `@AppStorage` flag reads the stored value when the key is set and the declared default otherwise |
| Preferences.VerboseSetupDefaultsToTrue | UIKit_example/ClickioSDK_Integration_Example_iOS/ViewControllers/ConsentViewController.swift:213-220 | the logging setup writes true only when the key is unset and then reads the stored flag (true when it was unset); no other key changes; running it twice is the same as once |
| Preferences.ToggledFlagSurvivesSetup | UIKit_example/ClickioSDK_Integration_Example_iOS/ViewControllers/ConsentViewController.swift:141-143 | a value stored by the toggle is what the next launch's setup reads back |
| UIKitAdsConsent.ConsentViewController.constructor | UIKit_example/ClickioSDK_Integration_Example_iOS/ViewControllers/ConsentViewController.swift:71-79 | after viewDidLoad: last state "no decision", banner down, launch dialog on, the switch shows `bool(forKey:)` of the set-up store and the logging mode follows it, placeholder table |
| UIKitAdsConsent.ConsentViewController.ViewDidAppear | UIKit_example/ClickioSDK_Integration_Example_iOS/ViewControllers/ConsentViewController.swift:81-86 | the default dialog opens on every appearance: showDefaultCMPOnLaunch is true and nothing clears it |
| UIKitAdsConsent.ConsentViewController.OnReady | UIKit_example/ClickioSDK_Integration_Example_iOS/ViewControllers/ConsentViewController.swift:98-104 | the ready callback enables the controls, refreshes the table and takes one gate step |
| UIKitAdsConsent.ConsentViewController.OnConsentUpdated | UIKit_example/ClickioSDK_Integration_Example_iOS/ViewControllers/ConsentViewController.swift:105-109 | the consent-updated callback takes one gate step and refreshes the table |
| UIKitAdsConsent.ConsentViewController.CheckIfCanShowAds | UIKit_example/ClickioSDK_Integration_Example_iOS/ViewControllers/ConsentViewController.swift:116-138 | the new gate fields are OneShotStep of the old: an absent state changes nothing; "no decision" only sets the last state; a decided state while already decided changes nothing; the edge sets the last state and raises the banner; the banner is never lowered |
| UIKitAdsConsent.ConsentViewController.ToggleVerboseLogging | UIKit_example/ClickioSDK_Integration_Example_iOS/ViewControllers/ConsentViewController.swift:141-145 | the switch value is stored under the logging key and handed to the SDK as the logging mode |
| UIKitAdsConsent.ConsentViewController.GetConsentData | UIKit_example/ClickioSDK_Integration_Example_iOS/ViewControllers/ConsentViewController.swift:155-202 | the table becomes the refreshed rows |
| UIKitAdsConsent.ConsentViewController.ClearUserDefaults | UIKit_example/ClickioSDK_Integration_Example_iOS/ViewControllers/ConsentViewController.swift:204-210 | with a bundle identifier the store is wiped and the table refreshed; without one nothing changes |
| UIKitAdsConsent.ConsentViewController.LoggerSwitcherSetup | UIKit_example/ClickioSDK_Integration_Example_iOS/ViewControllers/ConsentViewController.swift:213-223 | the store becomes VerboseSetup of the old store, and the switch and the SDK's logging mode follow the stored flag |
| SwiftUIAdsConsent.ReadyOpensDialog | SwiftUI_example/ClickioSDK_Integration_Example_iOS_SwiftUI/Views/ConsentView.swift:109-113 | a ready callback opens the default dialog only if the screen was not yet initialized and the launch preference is on, and always does when both hold |
| SwiftUIAdsConsent.NoDialogAfterInitialization | SwiftUI_example/ClickioSDK_Integration_Example_iOS_SwiftUI/Views/ConsentView.swift:109-114 | once the screen is initialized, no ready callback opens the default dialog |
| SwiftUIAdsConsent.DefaultDialogOnlyOnFirstReady | SwiftUI_example/ClickioSDK_Integration_Example_iOS_SwiftUI/Views/ConsentView.swift:104-116 | over any run of ready callbacks the default dialog opens once if the first callback finds the screen uninitialized and the launch preference on, and never otherwise |
| SwiftUIAdsConsent.ConsentView.constructor | SwiftUI_example/ClickioSDK_Integration_Example_iOS_SwiftUI/Views/ConsentView.swift:13-19 | the table starts as the placeholders, the screen uninitialized and the banner down |
| SwiftUIAdsConsent.ConsentView.InitializeSDK | SwiftUI_example/ClickioSDK_Integration_Example_iOS_SwiftUI/Views/ConsentView.swift:99-101 | the SDK's logging mode follows the stored verbose flag (default true) |
| SwiftUIAdsConsent.ConsentView.ToggleVerboseLogging | SwiftUI_example/ClickioSDK_Integration_Example_iOS_SwiftUI/Views/ConsentView.swift:54-58 | the toggle, usable only once the screen is initialized, flips the stored verbose flag, hands the new value to the SDK and leaves the launch preference alone |
| SwiftUIAdsConsent.ConsentView.OnReady | SwiftUI_example/ClickioSDK_Integration_Example_iOS_SwiftUI/Views/ConsentView.swift:104-116 | refreshes the table, sets the banner flag from the state, sets isInitialized, and opens the default dialog only if the screen was uninitialized and the launch preference is on |
| SwiftUIAdsConsent.ConsentView.HandleConsentStateChange | SwiftUI_example/ClickioSDK_Integration_Example_iOS_SwiftUI/Views/ConsentView.swift:129-132 | sets the banner flag from the state and refreshes the table |
| SwiftUIAdsConsent.ConsentView.CheckIfCanShowAds | SwiftUI_example/ClickioSDK_Integration_Example_iOS_SwiftUI/Views/ConsentView.swift:134-147 | afterwards the banner flag is true if and only if a state is present and it is not "no decision", whatever it was before |
| SwiftUIAdsConsent.CheckTwice | SwiftUI_example/ClickioSDK_Integration_Example_iOS_SwiftUI/Views/ConsentView.swift:134-147 | checking twice with the same report leaves the same flag as checking once; only the banner flag may change |
| SwiftUIAdsConsent.ConsentView.GetConsentData | SwiftUI_example/ClickioSDK_Integration_Example_iOS_SwiftUI/Views/ConsentView.swift:173-216 | the table becomes the refreshed rows |
| SwiftUIAdsConsent.ConsentView.RefreshButtonTapped | SwiftUI_example/ClickioSDK_Integration_Example_iOS_SwiftUI/Views/ConsentView.swift:65-68 | the refresh button, usable only once the screen is initialized, refreshes the table |
| SwiftUIAdsConsent.ConsentView.ClearUserDefaults | SwiftUI_example/ClickioSDK_Integration_Example_iOS_SwiftUI/Views/ConsentView.swift:218-228 | usable only once the screen is initialized; with a bundle identifier the store is wiped and then holds only showDefaultCMPOnLaunch = false, so the launch dialog is off and verbose logging reads its default, true; when the flag was stored false, the change handler (`.onChange` at :56-58) sets verbose logging in the SDK, and otherwise the logging mode is unchanged; the table is refreshed; without one nothing changes |
| SwiftUIConsent.ConsentView.constructor | SwiftUI_example/ClickioSDK_Integration_Example_iOS_SwiftUI/ConsentView.swift:12-13 | the table starts as the placeholders and the screen is uninitialized |
| SwiftUIConsent.ConsentView.InitializeSDK | SwiftUI_example/ClickioSDK_Integration_Example_iOS_SwiftUI/ConsentView.swift:82-84 | verbose logging is handed to the SDK |
| SwiftUIConsent.ConsentView.OnReady | SwiftUI_example/ClickioSDK_Integration_Example_iOS_SwiftUI/ConsentView.swift:87-89 | the ready callback sets isInitialized; no method sets it back to false |
| SwiftUIConsent.ConsentView.OnConsentUpdated | SwiftUI_example/ClickioSDK_Integration_Example_iOS_SwiftUI/ConsentView.swift:91-93 | the consent-updated callback refreshes the table |
| SwiftUIConsent.ConsentView.RefreshButtonTapped | SwiftUI_example/ClickioSDK_Integration_Example_iOS_SwiftUI/ConsentView.swift:67-69 | the refresh button, usable only once the screen is initialized, refreshes the table |
| SwiftUIConsent.ConsentView.RefreshConsentData | SwiftUI_example/ClickioSDK_Integration_Example_iOS_SwiftUI/ConsentView.swift:125-168 | the table becomes the refreshed rows, with the placeholder titles in the same order |
| UIKitConsent.LoadDefaultConsentData | UIKit_example/ClickioSDK_Integration_Example_iOS/ConsentViewController.swift:82-102 | 17 rows in the fixed title order with optional values; the separator (" ", " ") at 4, every other value "Unknown" |
| UIKitConsent.ConsentViewController.constructor | UIKit_example/ClickioSDK_Integration_Example_iOS/ConsentViewController.swift:21-29 | after viewDidLoad: the open-dialog button is disabled, the table holds the placeholders, and verbose logging is on |
| UIKitConsent.ConsentViewController.OnReady | UIKit_example/ClickioSDK_Integration_Example_iOS/ConsentViewController.swift:32-35 | the ready callback enables the button; no other method touches it |
| UIKitConsent.ConsentViewController.OnConsentUpdated | UIKit_example/ClickioSDK_Integration_Example_iOS/ConsentViewController.swift:37-42 | the consent-updated callback refreshes the table |
| UIKitConsent.ConsentViewController.GetConsentData | UIKit_example/ClickioSDK_Integration_Example_iOS/ConsentViewController.swift:77-79 | the refresh button refreshes the table |
| UIKitConsent.ConsentViewController.UpdateConsentData | UIKit_example/ClickioSDK_Integration_Example_iOS/ConsentViewController.swift:104-147 | the table becomes the refreshed rows; the titles keep the placeholder order exactly and only the values change |
| UIKitConsent.ConsentViewController.CellForRow | UIKit_example/ClickioSDK_Integration_Example_iOS/ConsentViewController.swift:205-210 | the cell for a row shows its title, and its value or "null" when the value is nil |

## Left out

- The SDK calls are inputs. These include `checkConsentState`, the getters, `initialize`, `openDialog` and `setLogsMode`. A method returns whether it opens a dialog, and a field records the last logging mode. The closed SDK's behaviour is not modelled.
- The raw values of the SDK's consent-state cases and the `description` text of its vendor and purpose lists belong to the SDK. The table takes them as optional strings.
- The SDK's consent-state enumeration is reduced to "no decision" and every other case.
- `Task`, `DispatchQueue.main.async` and callback registration are not modelled. Callbacks are ordinary sequential method calls.
- Ad loading and its delegates (BannerAdView.swift, BannerViewController.swift) are not modelled. These are foreign calls and logging with no owned logic.
- DefaultAppATTManager.swift is not modelled. It is an OS permission prompt behind a delayed dispatch.
- Layout, animations, button styles and the banner's `didSet` constraint changes are not modelled. This includes the resurface and open-dialog buttons, whose only action is an SDK call, and the SwiftUI clear-data confirmation alert. The 0.95 pressed scale is a float and is left out.
- `print` logging is not modelled.
- The `UUID` identity of `ConsentDataItem` and the app entry point are not modelled.
- `UserDefaults` persistence is an in-memory map of the app's own boolean flags. What the consent SDK stores in the same domain, and the wipe of it by `removePersistentDomain`, is not tracked: the SDK's answers after a wipe are inputs like any others.
- On the UIKit banner screen, the constructor models field initialisation and `viewDidLoad` together. The controls are enabled from the start because `UIButton` is enabled by default, so the ready callback's enabling changes nothing visible. Its `showDefaultCMPOnLaunch` is never assigned, so the model declares it as a constant.
