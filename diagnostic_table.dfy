/**
 * The diagnostic table every screen shows: 17 (title, value) rows, first as
 * placeholders, then refreshed from the consent SDK's getters. An absent getter
 * result shows as "Unknown"; the Google Consent Mode row reads each absent flag
 * as false. Row 4 is a blank separator.
 */
module DiagnosticTable {
  import opened Wrappers

  /** One row of the table (`ConsentDataItem` without its UUID). */
  datatype Row = Row(title: string, value: string)

  const Unknown: string := "Unknown"
  const RowCount: nat := 17
  const SeparatorIndex: nat := 4
  const Separator: Row := Row(" ", " ")
  const GoogleConsentModeIndex: nat := 16

  /** The four Google Consent Mode flags as the SDK exports them; each may be absent. */
  datatype GoogleConsentMode = GoogleConsentMode(
    analyticsStorageGranted: Option<bool>,
    adStorageGranted: Option<bool>,
    adUserDataGranted: Option<bool>,
    adPersonalizationGranted: Option<bool>)

  /** The flags after `?? false`. */
  datatype GoogleFlags = GoogleFlags(analyticsStorage: bool, adStorage: bool, adUserData: bool, adPersonalization: bool)

  /**
   * What the SDK's getters answered at one refresh. String-valued results are
   * the text the SDK yields for them (`rawValue` of the consent state,
   * `description` of the vendor and purpose lists); the purpose and vendor
   * checks are booleans.
   */
  datatype SdkAnswers = SdkAnswers(
    consentScope: Option<string>,
    consentState: Option<string>,
    consentForPurpose1: Option<bool>,
    consentForVendor9: Option<bool>,
    tcString: Option<string>,
    acString: Option<string>,
    gppString: Option<string>,
    consentedTCFVendors: Option<string>,
    consentedTCFLiVendors: Option<string>,
    consentedTCFPurposes: Option<string>,
    consentedTCFLiPurposes: Option<string>,
    consentedGoogleVendors: Option<string>,
    consentedOtherVendors: Option<string>,
    consentedOtherLiVendors: Option<string>,
    consentedNonTcfPurposes: Option<string>,
    googleConsentMode: Option<GoogleConsentMode>)

  /** Every getter answered nothing. */
  const NothingKnown := SdkAnswers(None, None, None, None, None, None, None, None, None, None,
                                   None, None, None, None, None, None)

  /** Swift's `Bool.description`. */
  function BoolText(b: bool): string {
    if b then "true" else "false"
  }

  /** `x?.description ?? "Unknown"` for a boolean answer. */
  function BoolOrUnknown(o: Option<bool>): string {
    match o
    case Some(b) => BoolText(b)
    case None => Unknown
  }

  /** The value shown for a getter answer: its text, or "Unknown" when absent. */
  predicate Shows(answer: Option<string>, value: string) {
    match answer
    case Some(text) => value == text
    case None => value == Unknown
  }

  predicate ShowsBool(answer: Option<bool>, value: string) {
    match answer
    case Some(b) => value == BoolText(b)
    case None => value == Unknown
  }

  /** The row titles, in display order: one per SDK getter, with the blank separator at index 4. */
  const Titles: seq<string> := [
    "checkConsentScope",
    "checkConsentState",
    "checkConsentForPurpose(1)",
    "checkConsentForVendor(9)",
    " ",
    "getTCString",
    "getACString",
    "getGPPString",
    "getConsentedTCFVendors",
    "getConsentedTCFLiVendors",
    "getConsentedTCFPurposes",
    "getConsentedTCFLiPurposes",
    "getConsentedGoogleVendors",
    "getConsentedOtherVendors",
    "getConsentedOtherLiVendors",
    "getConsentedNonTcfPurposes",
    "getGoogleConsentMode"
  ]

  /** Pairs each title with the value in the same position. */
  function Table(values: seq<string>): (rows: seq<Row>)
    requires |values| == |Titles|
    ensures |rows| == RowCount
    ensures forall i :: 0 <= i < |rows| ==> rows[i] == Row(Titles[i], values[i])
  {
    seq(|Titles|, i requires 0 <= i < |Titles| => Row(Titles[i], values[i]))
  }

  /** The placeholder table shown before the SDK answers (`defaultConsentData`). */
  function DefaultRows(): (rows: seq<Row>)
    ensures |rows| == RowCount
    ensures forall i :: 0 <= i < |rows| ==> rows[i].title == Titles[i]
    ensures rows[SeparatorIndex] == Separator
    ensures forall i :: 0 <= i < |rows| && i != SeparatorIndex ==> rows[i].value == Unknown
    ensures forall i :: 0 <= i < |rows| && i != SeparatorIndex ==> rows[i].title != Separator.title
  {
    Table([Unknown, Unknown, Unknown, Unknown, " ", Unknown, Unknown, Unknown, Unknown,
           Unknown, Unknown, Unknown, Unknown, Unknown, Unknown, Unknown, Unknown])
  }

  /** The Google Consent Mode flags with every absent flag, or an absent mode, read as false. */
  function EffectiveFlags(mode: Option<GoogleConsentMode>): (f: GoogleFlags)
    ensures mode.None? ==> !f.analyticsStorage && !f.adStorage && !f.adUserData && !f.adPersonalization
    ensures mode.Some? ==> (f.analyticsStorage <==> mode.value.analyticsStorageGranted == Some(true))
    ensures mode.Some? ==> (f.adStorage <==> mode.value.adStorageGranted == Some(true))
    ensures mode.Some? ==> (f.adUserData <==> mode.value.adUserDataGranted == Some(true))
    ensures mode.Some? ==> (f.adPersonalization <==> mode.value.adPersonalizationGranted == Some(true))
  {
    match mode
    case None => GoogleFlags(false, false, false, false)
    case Some(m) => GoogleFlags(m.analyticsStorageGranted.GetOr(false), m.adStorageGranted.GetOr(false),
                                m.adUserDataGranted.GetOr(false), m.adPersonalizationGranted.GetOr(false))
  }

  const AnalyticsLabel: string := "Analytics Storage: "
  const AdStorageLabel: string := ", Ad Storage: "
  const AdUserDataLabel: string := ", Ad User Data: "
  const AdPersonalizationLabel: string := ", Ad Personalization: "

  /** The text of the Google Consent Mode row. */
  function GoogleConsentText(f: GoogleFlags): (text: string)
    ensures |text| > |AnalyticsLabel| && text[..|AnalyticsLabel|] == AnalyticsLabel
    ensures text != Unknown
  {
    AnalyticsLabel + (BoolText(f.analyticsStorage) +
    (AdStorageLabel + (BoolText(f.adStorage) +
    (AdUserDataLabel + (BoolText(f.adUserData) +
    (AdPersonalizationLabel + BoolText(f.adPersonalization)))))))
  }

  /** The value each row shows after a refresh, in title order. */
  function RowValues(a: SdkAnswers): (values: seq<string>)
    ensures |values| == |Titles|
    ensures values[SeparatorIndex] == Separator.value
    ensures values[0] == a.consentScope.GetOr(Unknown)
    ensures values[1] == a.consentState.GetOr(Unknown)
    ensures values[2] == BoolOrUnknown(a.consentForPurpose1)
    ensures values[3] == BoolOrUnknown(a.consentForVendor9)
    ensures values[5] == a.tcString.GetOr(Unknown)
    ensures values[6] == a.acString.GetOr(Unknown)
    ensures values[7] == a.gppString.GetOr(Unknown)
    ensures values[8] == a.consentedTCFVendors.GetOr(Unknown)
    ensures values[9] == a.consentedTCFLiVendors.GetOr(Unknown)
    ensures values[10] == a.consentedTCFPurposes.GetOr(Unknown)
    ensures values[11] == a.consentedTCFLiPurposes.GetOr(Unknown)
    ensures values[12] == a.consentedGoogleVendors.GetOr(Unknown)
    ensures values[13] == a.consentedOtherVendors.GetOr(Unknown)
    ensures values[14] == a.consentedOtherLiVendors.GetOr(Unknown)
    ensures values[15] == a.consentedNonTcfPurposes.GetOr(Unknown)
    ensures values[GoogleConsentModeIndex] == GoogleConsentText(EffectiveFlags(a.googleConsentMode))
  {
    [
      a.consentScope.GetOr(Unknown),
      a.consentState.GetOr(Unknown),
      BoolOrUnknown(a.consentForPurpose1),
      BoolOrUnknown(a.consentForVendor9),
      " ",
      a.tcString.GetOr(Unknown),
      a.acString.GetOr(Unknown),
      a.gppString.GetOr(Unknown),
      a.consentedTCFVendors.GetOr(Unknown),
      a.consentedTCFLiVendors.GetOr(Unknown),
      a.consentedTCFPurposes.GetOr(Unknown),
      a.consentedTCFLiPurposes.GetOr(Unknown),
      a.consentedGoogleVendors.GetOr(Unknown),
      a.consentedOtherVendors.GetOr(Unknown),
      a.consentedOtherLiVendors.GetOr(Unknown),
      a.consentedNonTcfPurposes.GetOr(Unknown),
      GoogleConsentText(EffectiveFlags(a.googleConsentMode))
    ]
  }

  /** The table after a refresh (`getConsentData`, `updateConsentData`, `refreshConsentData`). */
  function RowsFrom(a: SdkAnswers): (rows: seq<Row>)
    ensures |rows| == RowCount
    ensures forall i :: 0 <= i < |rows| ==> rows[i].title == DefaultRows()[i].title
    ensures rows[SeparatorIndex] == Separator
    ensures Shows(a.consentScope, rows[0].value)
    ensures Shows(a.consentState, rows[1].value)
    ensures ShowsBool(a.consentForPurpose1, rows[2].value)
    ensures ShowsBool(a.consentForVendor9, rows[3].value)
    ensures Shows(a.tcString, rows[5].value)
    ensures Shows(a.acString, rows[6].value)
    ensures Shows(a.gppString, rows[7].value)
    ensures Shows(a.consentedTCFVendors, rows[8].value)
    ensures Shows(a.consentedTCFLiVendors, rows[9].value)
    ensures Shows(a.consentedTCFPurposes, rows[10].value)
    ensures Shows(a.consentedTCFLiPurposes, rows[11].value)
    ensures Shows(a.consentedGoogleVendors, rows[12].value)
    ensures Shows(a.consentedOtherVendors, rows[13].value)
    ensures Shows(a.consentedOtherLiVendors, rows[14].value)
    ensures Shows(a.consentedNonTcfPurposes, rows[15].value)
    ensures rows[GoogleConsentModeIndex].value == GoogleConsentText(EffectiveFlags(a.googleConsentMode))
  {
    Table(RowValues(a))
  }

  // ---------------------------------------------------------------------------
  // Reading the Google Consent Mode text back
  // ---------------------------------------------------------------------------

  /** The rest of `s` after `prefix`, when `s` starts with it. */
  function StripPrefix(prefix: string, s: string): Option<string> {
    if prefix <= s then Some(s[|prefix|..]) else None
  }

  /** A leading "true" or "false", and the rest. */
  function ParseBool(s: string): Option<(bool, string)> {
    match StripPrefix("true", s)
    case Some(rest) => Some((true, rest))
    case None =>
      match StripPrefix("false", s)
      case Some(rest) => Some((false, rest))
      case None => None
  }

  /** A label followed by a boolean. */
  function ParseField(heading: string, s: string): Option<(bool, string)> {
    match StripPrefix(heading, s)
    case None => None
    case Some(rest) => ParseBool(rest)
  }

  /** Reads the four flags back from the text of the Google Consent Mode row. */
  function ParseGoogleConsentText(s: string): Option<GoogleFlags> {
    match ParseField(AnalyticsLabel, s)
    case None => None
    case Some((analytics, s1)) =>
      match ParseField(AdStorageLabel, s1)
      case None => None
      case Some((adStorage, s2)) =>
        match ParseField(AdUserDataLabel, s2)
        case None => None
        case Some((adUserData, s3)) =>
          match ParseField(AdPersonalizationLabel, s3)
          case None => None
          case Some((adPersonalization, s4)) =>
            if s4 == [] then Some(GoogleFlags(analytics, adStorage, adUserData, adPersonalization)) else None
  }

  lemma StripPrefixOfConcat(prefix: string, rest: string)
    ensures StripPrefix(prefix, prefix + rest) == Some(rest)
  {
  }

  lemma ParseFieldOfText(heading: string, b: bool, rest: string)
    ensures ParseField(heading, heading + (BoolText(b) + rest)) == Some((b, rest))
  {
    StripPrefixOfConcat(heading, BoolText(b) + rest);
    StripPrefixOfConcat(BoolText(b), rest);
    if !b {
      var s := BoolText(b) + rest;
      assert s[0] == 'f';
      assert !("true" <= s);
    }
  }

  /** The row text determines the flags: reading it back gives exactly the flags it was made from. */
  lemma GoogleConsentTextRoundTrip(f: GoogleFlags)
    ensures ParseGoogleConsentText(GoogleConsentText(f)) == Some(f)
  {
    var t4 := AdPersonalizationLabel + BoolText(f.adPersonalization);
    var t3 := AdUserDataLabel + (BoolText(f.adUserData) + t4);
    var t2 := AdStorageLabel + (BoolText(f.adStorage) + t3);
    ParseFieldOfText(AnalyticsLabel, f.analyticsStorage, t2);
    ParseFieldOfText(AdStorageLabel, f.adStorage, t3);
    ParseFieldOfText(AdUserDataLabel, f.adUserData, t4);
    assert BoolText(f.adPersonalization) == BoolText(f.adPersonalization) + [];
    ParseFieldOfText(AdPersonalizationLabel, f.adPersonalization, []);
  }

  /** Distinct effective flags render as distinct texts. */
  lemma GoogleConsentTextInjective(f: GoogleFlags, g: GoogleFlags)
    requires GoogleConsentText(f) == GoogleConsentText(g)
    ensures f == g
  {
    GoogleConsentTextRoundTrip(f);
    GoogleConsentTextRoundTrip(g);
  }

  /** Each absent flag, and every flag of an absent mode, shows as false; a present flag shows as given. */
  lemma GoogleRowReadsAbsentAsFalse(a: SdkAnswers)
    ensures var f := ParseGoogleConsentText(GoogleConsentText(EffectiveFlags(a.googleConsentMode)));
            f.Some? &&
            (match a.googleConsentMode
             case None => f.value == GoogleFlags(false, false, false, false)
             case Some(m) =>
               f.value.analyticsStorage == m.analyticsStorageGranted.GetOr(false) &&
               f.value.adStorage == m.adStorageGranted.GetOr(false) &&
               f.value.adUserData == m.adUserDataGranted.GetOr(false) &&
               f.value.adPersonalization == m.adPersonalizationGranted.GetOr(false))
  {
    GoogleConsentTextRoundTrip(EffectiveFlags(a.googleConsentMode));
  }

  /** A refresh where the SDK knows nothing gives the placeholder table, except that the Google row lists four false flags. */
  lemma RefreshWithNothingKnown()
    ensures forall i :: 0 <= i < RowCount && i != GoogleConsentModeIndex ==> RowsFrom(NothingKnown)[i] == DefaultRows()[i]
    ensures ParseGoogleConsentText(RowsFrom(NothingKnown)[GoogleConsentModeIndex].value)
            == Some(GoogleFlags(false, false, false, false))
    ensures RowsFrom(NothingKnown)[GoogleConsentModeIndex].value != Unknown
  {
    GoogleConsentTextRoundTrip(GoogleFlags(false, false, false, false));
  }
}
