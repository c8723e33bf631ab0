/**
 * The UIKit consent screen with the ad banner: it enables its controls and
 * refreshes the table when the SDK is ready, raises the banner once on the
 * move away from "no decision", and keeps the verbose-logging preference.
 */
module UIKitAdsConsent {
  import opened Wrappers
  import opened AdGate
  import opened DiagnosticTable
  import opened ConsentCell
  import opened Preferences

  class ConsentViewController {
    var lastConsentState: Option<ConsentState>
    /** Declared as a variable in the source, but nothing ever assigns it. */
    const showDefaultCMPOnLaunch: bool := true
    var shouldShowAdsBanner: bool
    var verboseLoggingSwitchOn: bool
    /** `isEnabled` of the resurface, refresh and clear-data buttons. */
    var controlsEnabled: bool
    var consentData: seq<Item>
    var defaults: Store
    /** The last logging mode handed to the SDK, if any. */
    var logsMode: Option<LogsMode>

    function Gate(): OneShotGate
      reads this
    {
      OneShotGate(lastConsentState, shouldShowAdsBanner)
    }

    /** The screen after its fields are initialised and `viewDidLoad` has run, over the persisted preferences. */
    constructor (persisted: Store)
      ensures Gate() == InitialOneShot && showDefaultCMPOnLaunch
      ensures defaults == VerboseSetup(persisted)
      ensures verboseLoggingSwitchOn == BoolForKey(VerboseSetup(persisted), VerboseLoggingKey)
      ensures logsMode == Some(LogsModeFor(verboseLoggingSwitchOn))
      ensures consentData == AsItems(DefaultRows())
      ensures controlsEnabled
    {
      lastConsentState := Some(GdprNoDecision);
      shouldShowAdsBanner := false;
      verboseLoggingSwitchOn := false;
      controlsEnabled := true;
      consentData := [];
      defaults := persisted;
      logsMode := None;
      new;
      LoggerSwitcherSetup();
      VerboseSetupDefaultsToTrue(persisted);
      consentData := AsItems(DefaultRows());
    }

    /** `viewDidAppear`: the default consent dialog opens on every appearance, since the flag is never cleared. */
    method ViewDidAppear() returns (opensDefaultDialog: bool)
      ensures opensDefaultDialog
    {
      opensDefaultDialog := showDefaultCMPOnLaunch;
    }

    /** The SDK's ready callback. */
    method OnReady(answers: SdkAnswers, reported: Option<ConsentState>)
      modifies this`controlsEnabled, this`consentData, this`lastConsentState, this`shouldShowAdsBanner
      ensures controlsEnabled
      ensures consentData == AsItems(RowsFrom(answers))
      ensures Gate() == OneShotStep(old(Gate()), reported)
    {
      controlsEnabled := true;
      GetConsentData(answers);
      CheckIfCanShowAds(reported);
    }

    /** The SDK's consent-updated callback. */
    method OnConsentUpdated(reported: Option<ConsentState>, answers: SdkAnswers)
      modifies this`consentData, this`lastConsentState, this`shouldShowAdsBanner
      ensures Gate() == OneShotStep(old(Gate()), reported)
      ensures consentData == AsItems(RowsFrom(answers))
    {
      CheckIfCanShowAds(reported);
      GetConsentData(answers);
    }

    /** Edge-triggered: the banner is raised on the first move from "no decision" to a decided state. */
    method CheckIfCanShowAds(reported: Option<ConsentState>)
      modifies this`lastConsentState, this`shouldShowAdsBanner
      ensures Gate() == OneShotStep(old(Gate()), reported)
      ensures reported.None? ==> Gate() == old(Gate())
      ensures reported == Some(GdprNoDecision) ==>
                lastConsentState == reported && shouldShowAdsBanner == old(shouldShowAdsBanner)
      ensures AdsAllowed(reported) && old(lastConsentState) != Some(GdprNoDecision) ==> Gate() == old(Gate())
      ensures AdsAllowed(reported) && old(lastConsentState) == Some(GdprNoDecision) ==>
                lastConsentState == reported && shouldShowAdsBanner
      ensures old(shouldShowAdsBanner) ==> shouldShowAdsBanner
    {
      if reported.None? {
        return;
      }
      var state := reported.value;
      if state == GdprNoDecision {
        lastConsentState := reported;
        return;
      }
      if lastConsentState != Some(GdprNoDecision) {
        return;
      }
      lastConsentState := reported;
      shouldShowAdsBanner := true;
    }

    /** The user flipped the verbose-logging switch to `isOn`. */
    method ToggleVerboseLogging(isOn: bool)
      modifies this`verboseLoggingSwitchOn, this`defaults, this`logsMode
      ensures verboseLoggingSwitchOn == isOn
      ensures defaults == old(defaults)[VerboseLoggingKey := isOn]
      ensures BoolForKey(defaults, VerboseLoggingKey) == isOn
      ensures logsMode == Some(LogsModeFor(isOn))
    {
      verboseLoggingSwitchOn := isOn;
      defaults := defaults[VerboseLoggingKey := isOn];
      logsMode := Some(LogsModeFor(verboseLoggingSwitchOn));
    }

    /** Refreshes the table from the SDK's answers. */
    method GetConsentData(answers: SdkAnswers)
      modifies this`consentData
      ensures consentData == AsItems(RowsFrom(answers))
    {
      consentData := AsItems(RowsFrom(answers));
    }

    /** Wipes the app's preferences (when the bundle has an identifier) and refreshes the table. */
    method ClearUserDefaults(bundleId: Option<string>, answers: SdkAnswers)
      modifies this`defaults, this`consentData
      ensures bundleId.Some? ==> defaults == Wiped && consentData == AsItems(RowsFrom(answers))
      ensures bundleId.None? ==> defaults == old(defaults) && consentData == old(consentData)
    {
      if bundleId.Some? {
        defaults := Wiped;
        GetConsentData(answers);
      }
    }

    /** `loggerSwitcherSetup`: writes true when the flag is unset, then shows and applies the stored flag. */
    method LoggerSwitcherSetup()
      modifies this`defaults, this`verboseLoggingSwitchOn, this`logsMode
      ensures defaults == VerboseSetup(old(defaults))
      ensures verboseLoggingSwitchOn == BoolForKey(defaults, VerboseLoggingKey)
      ensures logsMode == Some(LogsModeFor(verboseLoggingSwitchOn))
    {
      var hasSetVerbose := VerboseLoggingKey in defaults;
      if !hasSetVerbose {
        defaults := defaults[VerboseLoggingKey := true];
      }
      var savedLoggingMode := BoolForKey(defaults, VerboseLoggingKey);
      verboseLoggingSwitchOn := savedLoggingMode;
      logsMode := Some(LogsModeFor(savedLoggingMode));
    }
  }
}
