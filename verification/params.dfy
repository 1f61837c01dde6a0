/** The enum converters of main.go: each maps a display string chosen in the
    step's settings to the token the remote API expects, or rejects it. */
module Params {
  import opened Wrappers
  import opened Tables

  /** What a converter returns: Go's `(string, error)` pair. `error` is `None`
      for the nil error. */
  datatype Conversion = Conversion(token: string, error: Option<string>) {
    predicate Ok() {
      error.None?
    }
  }

  /** A `switch` over `t` whose `default` case returns `("", errors.New(message))`. */
  function Convert(t: Table, message: string, input: string): (r: Conversion)
    ensures r.Ok() <==> input in Names(t)
    ensures r.Ok() ==> (input, r.token) in t
    ensures !r.Ok() ==> r == Conversion("", Some(message))
  {
    match Lookup(t, input)
    case Some(token) => Conversion(token, None)
    case None => Conversion("", Some(message))
  }

  /** A table every converter may rely on: one case per name, one name per
      token, and no case whose token is the empty string. */
  predicate WellFormed(t: Table) {
    DistinctNames(t) && DistinctTokens(t) && "" !in Tokens(t)
  }

  /** On a well-formed table, every listed name gets exactly its listed token. */
  lemma ConvertListed(t: Table, message: string)
    requires WellFormed(t)
    ensures forall i :: 0 <= i < |t| ==> Convert(t, message, t[i].0) == Conversion(t[i].1, None)
  {
    forall i | 0 <= i < |t|
      ensures Convert(t, message, t[i].0) == Conversion(t[i].1, None)
    {
      assert t[i].0 in Names(t);
      var r := Convert(t, message, t[i].0);
      var j :| 0 <= j < |t| && t[j] == (t[i].0, r.token);
      assert i == j;
    }
  }

  /** On a well-formed table, a conversion carries a token exactly when it
      carries no error: never both, never neither. */
  lemma ConvertTokenXorError(t: Table, message: string, input: string)
    requires WellFormed(t)
    ensures Convert(t, message, input).Ok() <==> Convert(t, message, input).token != ""
  {
    var r := Convert(t, message, input);
    if r.Ok() {
      var i :| 0 <= i < |t| && t[i] == (input, r.token);
      assert r.token in Tokens(t);
    }
  }

  // ---------------------------------------------------------------- tables

  const EnvironmentTable: Table := [
    ("Magic Pod", "magic_pod"),
    ("Remote TestKit", "remote_testkit"),
    ("Remote TestKit Onpremise", "remote_testkit_onpremise")
  ]
  const EnvironmentError := "Environment should be 'Magic Pod', 'Remote TestKit' or 'Remote TestKit Onpremise'"

  const AppTypeTable: Table := [
    ("App file (cloud upload)", "app_file"),
    ("App file (URL)", "app_url"),
    ("Installed app", "installed")
  ]
  const AppTypeError := "App type should be either of 'App file (cloud upload)', 'App file (URL)', or 'Installed app'"

  const CaptureTypeTable: Table := [
    ("Every step", "on_each_step"),
    ("Every UI transit", "on_ui_transit"),
    ("Failure capture only", "on_error")
  ]
  const CaptureTypeError := "Capture type should be either of 'Every step', 'Every UI transit', or 'Failure capture only'"

  const DeviceLanguageTable: Table := [
    ("Default", "default"),
    ("English", "en"),
    ("Japanese", "ja")
  ]
  const DeviceLanguageError := "Device language should be 'Default', 'English' or 'Japanese'"

  const DeviceRegionTable: Table := [
    ("Default", "Default"),
    ("Australia", "AU"),
    ("Brazil", "BR"),
    ("Canada", "CA"),
    ("China mainland", "CN"),
    ("France", "FR"),
    ("Germany", "DE"),
    ("India", "IN"),
    ("Indonesia", "ID"),
    ("Italy", "IT"),
    ("Japan", "JP"),
    ("Mexico", "MX"),
    ("Netherlands", "NL"),
    ("Russia", "RU"),
    ("Saudi Arabia", "SA"),
    ("South Korea", "KR"),
    ("Spain", "ES"),
    ("Switzerland", "CH"),
    ("Taiwan", "TW"),
    ("Turkey", "TR"),
    ("United Kingdom", "GB"),
    ("United States", "US")
  ]
  const DeviceRegionError := "Invalid Device Region"

  /** All five tables are well formed. */
  lemma TablesWellFormed()
    ensures WellFormed(EnvironmentTable)
    ensures WellFormed(AppTypeTable)
    ensures WellFormed(CaptureTypeTable)
    ensures WellFormed(DeviceLanguageTable)
    ensures WellFormed(DeviceRegionTable)
  {
    RegionNamesDistinct();
    RegionTokensDistinct();
  }

  lemma RegionNamesDistinct()
    ensures DistinctNames(DeviceRegionTable)
  {
    RegionNamesDistinctFrom(0, |DeviceRegionTable|);
  }

  /** Rows `lo` up to `hi` of the region table differ in name from every later row. */
  lemma RegionNamesDistinctFrom(lo: nat, hi: nat)
    requires lo <= hi <= |DeviceRegionTable|
    ensures forall i, j :: lo <= i < hi && i < j < |DeviceRegionTable| ==>
      DeviceRegionTable[i].0 != DeviceRegionTable[j].0
  {
  }

  lemma RegionTokensDistinct()
    ensures DistinctTokens(DeviceRegionTable) && "" !in Tokens(DeviceRegionTable)
  {
    RegionTokensDistinctFrom(0, |DeviceRegionTable|);
  }

  /** Rows `lo` up to `hi` of the region table differ in code from every later row. */
  lemma RegionTokensDistinctFrom(lo: nat, hi: nat)
    requires lo <= hi <= |DeviceRegionTable|
    ensures forall i, j :: lo <= i < hi && i < j < |DeviceRegionTable| ==>
      DeviceRegionTable[i].1 != DeviceRegionTable[j].1
  {
  }

  // ------------------------------------------------------------ converters

  function ConvertEnvironmentParam(input: string): (r: Conversion)
    ensures r.Ok() <==> input in {"Magic Pod", "Remote TestKit", "Remote TestKit Onpremise"}
    ensures r.Ok() ==> r.token in {"magic_pod", "remote_testkit", "remote_testkit_onpremise"}
    ensures !r.Ok() ==> r == Conversion("", Some(EnvironmentError))
  {
    Convert(EnvironmentTable, EnvironmentError, input)
  }

  function ConvertAppTypeParam(input: string): (r: Conversion)
    ensures r.Ok() <==> input in {"App file (cloud upload)", "App file (URL)", "Installed app"}
    ensures r.Ok() ==> r.token in {"app_file", "app_url", "installed"}
    ensures !r.Ok() ==> r == Conversion("", Some(AppTypeError))
  {
    Convert(AppTypeTable, AppTypeError, input)
  }

  function ConvertCaptureTypeParam(input: string): (r: Conversion)
    ensures r.Ok() <==> input in {"Every step", "Every UI transit", "Failure capture only"}
    ensures r.Ok() ==> r.token in {"on_each_step", "on_ui_transit", "on_error"}
    ensures !r.Ok() ==> r == Conversion("", Some(CaptureTypeError))
  {
    Convert(CaptureTypeTable, CaptureTypeError, input)
  }

  function ConvertDeviceLanguageParam(input: string): (r: Conversion)
    ensures r.Ok() <==> input in {"Default", "English", "Japanese"}
    ensures r.Ok() ==> r.token in {"default", "en", "ja"}
    ensures !r.Ok() ==> r == Conversion("", Some(DeviceLanguageError))
  {
    Convert(DeviceLanguageTable, DeviceLanguageError, input)
  }

  function ConvertDeviceRegionParam(input: string): (r: Conversion)
    ensures r.Ok() <==> input in Names(DeviceRegionTable)
    ensures r.Ok() ==> r.token in Tokens(DeviceRegionTable)
    ensures !r.Ok() ==> r == Conversion("", Some(DeviceRegionError))
  {
    Convert(DeviceRegionTable, DeviceRegionError, input)
  }

  // ------------------------------------------------------------ properties

  /** Each listed environment gets exactly its listed token. */
  lemma ListedEnvironments()
    ensures ConvertEnvironmentParam("Magic Pod") == Conversion("magic_pod", None)
    ensures ConvertEnvironmentParam("Remote TestKit") == Conversion("remote_testkit", None)
    ensures ConvertEnvironmentParam("Remote TestKit Onpremise") == Conversion("remote_testkit_onpremise", None)
  {
    TablesWellFormed();
    ConvertListed(EnvironmentTable, EnvironmentError);
  }

  /** Each listed app type gets exactly its listed token. */
  lemma ListedAppTypes()
    ensures ConvertAppTypeParam("App file (cloud upload)") == Conversion("app_file", None)
    ensures ConvertAppTypeParam("App file (URL)") == Conversion("app_url", None)
    ensures ConvertAppTypeParam("Installed app") == Conversion("installed", None)
  {
    TablesWellFormed();
    ConvertListed(AppTypeTable, AppTypeError);
  }

  /** Each listed capture type gets exactly its listed token. */
  lemma ListedCaptureTypes()
    ensures ConvertCaptureTypeParam("Every step") == Conversion("on_each_step", None)
    ensures ConvertCaptureTypeParam("Every UI transit") == Conversion("on_ui_transit", None)
    ensures ConvertCaptureTypeParam("Failure capture only") == Conversion("on_error", None)
  {
    TablesWellFormed();
    ConvertListed(CaptureTypeTable, CaptureTypeError);
  }

  /** Each listed language gets exactly its listed code; "Default" is
      lower-cased, unlike the region "Default". */
  lemma ListedLanguages()
    ensures ConvertDeviceLanguageParam("Default") == Conversion("default", None)
    ensures ConvertDeviceLanguageParam("English") == Conversion("en", None)
    ensures ConvertDeviceLanguageParam("Japanese") == Conversion("ja", None)
  {
    TablesWellFormed();
    ConvertListed(DeviceLanguageTable, DeviceLanguageError);
  }

  /** Each of the 22 listed regions gets exactly its listed code; note that
      "Default" passes through unchanged, unlike the language "Default". */
  lemma ListedRegions()
    ensures forall i :: 0 <= i < |DeviceRegionTable| ==>
      ConvertDeviceRegionParam(DeviceRegionTable[i].0) == Conversion(DeviceRegionTable[i].1, None)
    ensures ConvertDeviceRegionParam("Default") == Conversion("Default", None)
    ensures ConvertDeviceRegionParam("China mainland") == Conversion("CN", None)
    ensures ConvertDeviceRegionParam("United Kingdom") == Conversion("GB", None)
    ensures ConvertDeviceRegionParam("United States") == Conversion("US", None)
  {
    TablesWellFormed();
    ConvertListed(DeviceRegionTable, DeviceRegionError);
    assert DeviceRegionTable[0] == ("Default", "Default");
    assert DeviceRegionTable[4] == ("China mainland", "CN");
    assert DeviceRegionTable[20] == ("United Kingdom", "GB");
    assert DeviceRegionTable[21] == ("United States", "US");
  }

  /** For every converter a token and an error never come together: the
      token is non-empty exactly when there is no error. */
  lemma TokenXorError(input: string)
    ensures ConvertEnvironmentParam(input).Ok() <==> ConvertEnvironmentParam(input).token != ""
    ensures ConvertAppTypeParam(input).Ok() <==> ConvertAppTypeParam(input).token != ""
    ensures ConvertCaptureTypeParam(input).Ok() <==> ConvertCaptureTypeParam(input).token != ""
    ensures ConvertDeviceLanguageParam(input).Ok() <==> ConvertDeviceLanguageParam(input).token != ""
    ensures ConvertDeviceRegionParam(input).Ok() <==> ConvertDeviceRegionParam(input).token != ""
  {
    TablesWellFormed();
    ConvertTokenXorError(EnvironmentTable, EnvironmentError, input);
    ConvertTokenXorError(AppTypeTable, AppTypeError, input);
    ConvertTokenXorError(CaptureTypeTable, CaptureTypeError, input);
    ConvertTokenXorError(DeviceLanguageTable, DeviceLanguageError, input);
    ConvertTokenXorError(DeviceRegionTable, DeviceRegionError, input);
  }

  /** The empty string is not a display name of any converter. */
  lemma EmptyInputRejected()
    ensures ConvertEnvironmentParam("") == Conversion("", Some(EnvironmentError))
    ensures ConvertAppTypeParam("") == Conversion("", Some(AppTypeError))
    ensures ConvertCaptureTypeParam("") == Conversion("", Some(CaptureTypeError))
    ensures ConvertDeviceLanguageParam("") == Conversion("", Some(DeviceLanguageError))
    ensures ConvertDeviceRegionParam("") == Conversion("", Some(DeviceRegionError))
  {
    assert "" !in Names(DeviceRegionTable);
  }

  /** On a well-formed table the token determines the display name it came
      from: reversing the table gives the input back. */
  lemma ConvertRoundTrip(t: Table, message: string, input: string)
    requires WellFormed(t)
    requires Convert(t, message, input).Ok()
    ensures ReverseLookup(t, Convert(t, message, input).token) == Some(input)
  {
    LookupRoundTrip(t, input);
  }

  /** Every converter is invertible on what it accepts: no two display names
      share a token, so the token names the setting that was chosen. */
  lemma TokensDetermineNames(input: string)
    ensures ConvertEnvironmentParam(input).Ok() ==>
      ReverseLookup(EnvironmentTable, ConvertEnvironmentParam(input).token) == Some(input)
    ensures ConvertAppTypeParam(input).Ok() ==>
      ReverseLookup(AppTypeTable, ConvertAppTypeParam(input).token) == Some(input)
    ensures ConvertCaptureTypeParam(input).Ok() ==>
      ReverseLookup(CaptureTypeTable, ConvertCaptureTypeParam(input).token) == Some(input)
    ensures ConvertDeviceLanguageParam(input).Ok() ==>
      ReverseLookup(DeviceLanguageTable, ConvertDeviceLanguageParam(input).token) == Some(input)
    ensures ConvertDeviceRegionParam(input).Ok() ==>
      ReverseLookup(DeviceRegionTable, ConvertDeviceRegionParam(input).token) == Some(input)
  {
    TablesWellFormed();
    if ConvertEnvironmentParam(input).Ok() { ConvertRoundTrip(EnvironmentTable, EnvironmentError, input); }
    if ConvertAppTypeParam(input).Ok() { ConvertRoundTrip(AppTypeTable, AppTypeError, input); }
    if ConvertCaptureTypeParam(input).Ok() { ConvertRoundTrip(CaptureTypeTable, CaptureTypeError, input); }
    if ConvertDeviceLanguageParam(input).Ok() { ConvertRoundTrip(DeviceLanguageTable, DeviceLanguageError, input); }
    if ConvertDeviceRegionParam(input).Ok() { ConvertRoundTrip(DeviceRegionTable, DeviceRegionError, input); }
  }
}
