/**
 * The SwiftUI consent screen with the ad banner: the banner flag follows the
 * current consent state, the screen is unlocked by the first ready callback,
 * which also opens the default dialog when the launch preference asks for it,
 * and clearing data wipes the preferences and turns that preference off.
 */
module SwiftUIAdsConsent {
  import opened Wrappers
  import opened AdGate
  import opened DiagnosticTable
  import opened Preferences

  /** Whether a ready callback opens the default dialog: only the first one, and only when the launch preference is on. */
  function ReadyOpensDialog(isInitialized: bool, showDefaultCMPOnLaunch: bool): (opens: bool)
    ensures opens ==> !isInitialized
    ensures opens ==> showDefaultCMPOnLaunch
    ensures !isInitialized && showDefaultCMPOnLaunch ==> opens
  {
    !isInitialized && showDefaultCMPOnLaunch
  }

  /** The number of default dialogs opened by a run of ready callbacks, given the launch preference at each. */
  function DialogsOpened(isInitialized: bool, showOnLaunch: seq<bool>): nat
    decreases |showOnLaunch|
  {
    if showOnLaunch == [] then 0
    else (if ReadyOpensDialog(isInitialized, showOnLaunch[0]) then 1 else 0) + DialogsOpened(true, showOnLaunch[1..])
  }

  /** Once the screen is initialised, no later ready callback opens the dialog. */
  lemma {:induction false} NoDialogAfterInitialization(showOnLaunch: seq<bool>)
    ensures DialogsOpened(true, showOnLaunch) == 0
    decreases |showOnLaunch|
  {
    if showOnLaunch != [] {
      NoDialogAfterInitialization(showOnLaunch[1..]);
    }
  }

  /** Over any run of ready callbacks the default dialog opens at most once: on the first callback, if the preference is on then. */
  lemma DefaultDialogOnlyOnFirstReady(isInitialized: bool, showOnLaunch: seq<bool>)
    ensures DialogsOpened(isInitialized, showOnLaunch)
            == if !isInitialized && showOnLaunch != [] && showOnLaunch[0] then 1 else 0
  {
    if showOnLaunch != [] {
      NoDialogAfterInitialization(showOnLaunch[1..]);
    }
  }

  class ConsentView {
    var consentData: seq<Row>
    var isInitialized: bool
    var shouldShowAdsBanner: bool
    var defaults: Store
    /** The last logging mode handed to the SDK, if any. */
    var logsMode: Option<LogsMode>

    /** The `@AppStorage` flag `showDefaultCMPOnLaunch`, true by default. */
    function ShowDefaultCMPOnLaunch(): bool
      reads this
    {
      AppStorageValue(defaults, ShowDefaultCMPOnLaunchKey, true)
    }

    /** The `@AppStorage` flag `enableVerboseLogging`, true by default. */
    function EnableVerboseLogging(): bool
      reads this
    {
      AppStorageValue(defaults, VerboseLoggingKey, true)
    }

    /** The view's `@State` initial values, over the persisted preferences. */
    constructor (persisted: Store)
      ensures consentData == DefaultRows()
      ensures !isInitialized && !shouldShowAdsBanner
      ensures defaults == persisted && logsMode == None
    {
      consentData := DefaultRows();
      isInitialized := false;
      shouldShowAdsBanner := false;
      defaults := persisted;
      logsMode := None;
    }

    /** `initializeSDK` (on appear): applies the logging preference; registering callbacks and starting the SDK are the SDK's. */
    method InitializeSDK()
      modifies this`logsMode
      ensures logsMode == Some(LogsModeFor(EnableVerboseLogging()))
    {
      logsMode := Some(LogsModeFor(EnableVerboseLogging()));
    }

    /** The verbose-logging toggle: flips the stored flag and applies it; the control is locked until the screen is initialised. */
    method ToggleVerboseLogging()
      requires isInitialized
      modifies this`defaults, this`logsMode
      ensures defaults == old(defaults)[VerboseLoggingKey := !old(EnableVerboseLogging())]
      ensures EnableVerboseLogging() == !old(EnableVerboseLogging())
      ensures logsMode == Some(LogsModeFor(EnableVerboseLogging()))
      ensures ShowDefaultCMPOnLaunch() == old(ShowDefaultCMPOnLaunch())
    {
      var newValue := !EnableVerboseLogging();
      defaults := defaults[VerboseLoggingKey := newValue];
      logsMode := Some(LogsModeFor(newValue));
    }

    /** The SDK's ready callback: refresh, re-check the banner, and on the first call unlock the screen. */
    method OnReady(answers: SdkAnswers, reported: Option<ConsentState>) returns (opensDefaultDialog: bool)
      modifies this`consentData, this`shouldShowAdsBanner, this`isInitialized
      ensures consentData == RowsFrom(answers)
      ensures shouldShowAdsBanner == AdsAllowed(reported)
      ensures isInitialized
      ensures opensDefaultDialog == ReadyOpensDialog(old(isInitialized), ShowDefaultCMPOnLaunch())
    {
      GetConsentData(answers);
      CheckIfCanShowAds(reported);
      opensDefaultDialog := false;
      if !isInitialized {
        isInitialized := true;
        if ShowDefaultCMPOnLaunch() {
          opensDefaultDialog := true;
        }
      }
    }

    /** The SDK's consent-updated callback. */
    method HandleConsentStateChange(reported: Option<ConsentState>, answers: SdkAnswers)
      modifies this`consentData, this`shouldShowAdsBanner
      ensures shouldShowAdsBanner == AdsAllowed(reported)
      ensures consentData == RowsFrom(answers)
    {
      CheckIfCanShowAds(reported);
      GetConsentData(answers);
    }

    /** Level-triggered: the banner flag becomes whether the reported state allows ads, whatever it was. */
    method CheckIfCanShowAds(reported: Option<ConsentState>)
      modifies this`shouldShowAdsBanner
      ensures shouldShowAdsBanner == AdsAllowed(reported)
    {
      if reported.None? || reported.value == GdprNoDecision {
        if shouldShowAdsBanner {
          shouldShowAdsBanner := false;
        }
        return;
      }
      if !shouldShowAdsBanner {
        shouldShowAdsBanner := true;
      }
    }

    /** Refreshes the table from the SDK's answers. */
    method GetConsentData(answers: SdkAnswers)
      modifies this`consentData
      ensures consentData == RowsFrom(answers)
    {
      consentData := RowsFrom(answers);
    }

    /** The refresh button, locked until the screen is initialised. */
    method RefreshButtonTapped(answers: SdkAnswers)
      requires isInitialized
      modifies this`consentData
      ensures consentData == RowsFrom(answers)
    {
      GetConsentData(answers);
    }

    /**
     * The confirmed clear-data action, locked until the screen is initialised:
     * wipes the app's preferences, then turns the launch dialog off and
     * refreshes the table. The wipe turns a stored "verbose off" back into the
     * default "on", and the toggle's change handler hands that to the SDK.
     */
    method ClearUserDefaults(bundleId: Option<string>, answers: SdkAnswers)
      requires isInitialized
      modifies this`defaults, this`consentData, this`logsMode
      ensures bundleId.Some? ==> defaults == Wiped[ShowDefaultCMPOnLaunchKey := false]
      ensures bundleId.Some? ==> !ShowDefaultCMPOnLaunch() && EnableVerboseLogging()
      ensures bundleId.Some? ==> consentData == RowsFrom(answers)
      ensures bundleId.Some? && !old(EnableVerboseLogging()) ==> logsMode == Some(Verbose)
      ensures bundleId.None? || old(EnableVerboseLogging()) ==> logsMode == old(logsMode)
      ensures bundleId.None? ==> defaults == old(defaults) && consentData == old(consentData)
    {
      if bundleId.Some? {
        var wasVerbose := EnableVerboseLogging();
        defaults := Wiped;
        if !wasVerbose {
          logsMode := Some(LogsModeFor(EnableVerboseLogging()));
        }
        defaults := defaults[ShowDefaultCMPOnLaunchKey := false];
        GetConsentData(answers);
      }
    }
  }

  /** Checking twice with the same report leaves the same banner flag as checking once. */
  method CheckTwice(view: ConsentView, reported: Option<ConsentState>) returns (once: bool)
    modifies view`shouldShowAdsBanner
    ensures view.shouldShowAdsBanner == once
    ensures once == AdsAllowed(reported)
  {
    view.CheckIfCanShowAds(reported);
    once := view.shouldShowAdsBanner;
    view.CheckIfCanShowAds(reported);
  }
}
