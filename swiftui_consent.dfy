/**
 * The basic SwiftUI consent screen: a placeholder table that is refreshed
 * from the SDK, and a screen that is unlocked by the SDK's ready callback.
 */
module SwiftUIConsent {
  import opened Wrappers
  import opened DiagnosticTable
  import opened Preferences

  class ConsentView {
    var consentData: seq<Row>
    var isInitialized: bool
    /** The last logging mode handed to the SDK, if any. */
    var logsMode: Option<LogsMode>

    /** The view's `@State` initial values. */
    constructor ()
      ensures consentData == DefaultRows()
      ensures !isInitialized && logsMode == None
    {
      consentData := DefaultRows();
      isInitialized := false;
      logsMode := None;
    }

    /** `initializeSDK` (on appear): verbose logging is always switched on here. */
    method InitializeSDK()
      modifies this`logsMode
      ensures logsMode == Some(Verbose)
    {
      logsMode := Some(Verbose);
    }

    /** The SDK's ready callback unlocks the screen; nothing sets the flag back. */
    method OnReady()
      modifies this`isInitialized
      ensures isInitialized
    {
      isInitialized := true;
    }

    /** The SDK's consent-updated callback. */
    method OnConsentUpdated(answers: SdkAnswers)
      modifies this`consentData
      ensures consentData == RowsFrom(answers)
    {
      RefreshConsentData(answers);
    }

    /** The refresh button, locked until the screen is initialised. */
    method RefreshButtonTapped(answers: SdkAnswers)
      requires isInitialized
      modifies this`consentData
      ensures consentData == RowsFrom(answers)
    {
      RefreshConsentData(answers);
    }

    /** Refreshes the table from the SDK's answers. */
    method RefreshConsentData(answers: SdkAnswers)
      modifies this`consentData
      ensures consentData == RowsFrom(answers)
      ensures |consentData| == |DefaultRows()|
      ensures forall i :: 0 <= i < |consentData| ==> consentData[i].title == DefaultRows()[i].title
    {
      consentData := RowsFrom(answers);
    }
  }
}
