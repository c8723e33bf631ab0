/**
 * The basic UIKit consent screen: a button that opens the consent dialog is
 * disabled until the SDK is ready, and a table of (title, optional value)
 * rows is filled with placeholders and refreshed from the SDK.
 */
module UIKitConsent {
  import opened Wrappers
  import opened DiagnosticTable
  import opened ConsentCell
  import opened Preferences

  /** `loadDefaultConsentData`: the placeholder rows with optional values. */
  function LoadDefaultConsentData(): (items: seq<Item>)
    ensures |items| == RowCount
    ensures items[SeparatorIndex] == Item(" ", Some(" "))
    ensures forall i :: 0 <= i < |items| && i != SeparatorIndex ==> items[i].value == Some(Unknown)
    ensures forall i :: 0 <= i < |items| ==> items[i].title == Titles[i]
  {
    AsItems(DefaultRows())
  }

  class ConsentViewController {
    var consentData: seq<Item>
    var openConsentButtonEnabled: bool
    /** The last logging mode handed to the SDK, if any. */
    var logsMode: Option<LogsMode>

    /** The screen after `viewDidLoad`: button disabled, placeholder table, verbose logging. */
    constructor ()
      ensures !openConsentButtonEnabled
      ensures consentData == LoadDefaultConsentData()
      ensures logsMode == Some(Verbose)
    {
      openConsentButtonEnabled := false;
      consentData := LoadDefaultConsentData();
      logsMode := Some(Verbose);
    }

    /** The SDK's ready callback: the only place that enables the button. */
    method OnReady()
      modifies this`openConsentButtonEnabled
      ensures openConsentButtonEnabled
    {
      openConsentButtonEnabled := true;
    }

    /** The SDK's consent-updated callback. */
    method OnConsentUpdated(answers: SdkAnswers)
      modifies this`consentData
      ensures consentData == AsItems(RowsFrom(answers))
    {
      GetConsentData(answers);
    }

    /** The refresh button. */
    method GetConsentData(answers: SdkAnswers)
      modifies this`consentData
      ensures consentData == AsItems(RowsFrom(answers))
    {
      UpdateConsentData(answers);
    }

    /** Replaces the values from the SDK's answers; the titles keep the placeholder order. */
    method UpdateConsentData(answers: SdkAnswers)
      modifies this`consentData
      ensures consentData == AsItems(RowsFrom(answers))
      ensures |consentData| == |LoadDefaultConsentData()|
      ensures forall i :: 0 <= i < |consentData| ==> consentData[i].title == LoadDefaultConsentData()[i].title
    {
      consentData := AsItems(RowsFrom(answers));
    }

    /** The cell for row `i` of the table (`cellForRowAt`). */
    method CellForRow(i: nat) returns (shown: Row)
      requires i < |consentData|
      ensures shown.title == consentData[i].title
      ensures consentData[i].value.Some? ==> shown.value == consentData[i].value.value
      ensures consentData[i].value.None? ==> shown.value == NullText
    {
      shown := Configure(consentData[i].title, consentData[i].value);
    }
  }
}
