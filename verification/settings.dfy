/** The step's `Config` and its normalisation, `Config.convertToAPIParams`. */
module Settings {
  import opened Wrappers
  import opened Tables
  import opened Params
  import opened SnakeCase

  /** Every input of the step, as parsed from its settings. Secrets are plain
      strings here; `retryCount` is Go's `int`. */
  datatype Config = Config(
    baseUrl: string,
    apiToken: string,
    organizationName: string,
    projectName: string,
    environment: string,
    externalServiceToken: string,
    externalServiceServerUrl: string,
    externalServiceUserName: string,
    externalServicePassword: string,
    osName: string,
    deviceType: string,
    version: string,
    model: string,
    appType: string,
    appPath: string,
    appUrl: string,
    bundleId: string,
    appPackage: string,
    appActivity: string,
    waitForResult: bool,
    sendMail: string,
    retryCount: int,
    captureType: string,
    deviceLanguage: string,
    deviceRegion: string,
    multiLangData: string)

  /** The rewritten configuration together with every error collected. */
  datatype Normalized = Normalized(config: Config, errors: seq<string>)

  /** The five validated fields, each with its display names, in the order
      the source checks them. */
  predicate EnvironmentKnown(cfg: Config) { cfg.environment in {"Magic Pod", "Remote TestKit", "Remote TestKit Onpremise"} }
  predicate AppTypeKnown(cfg: Config) { cfg.appType in {"App file (cloud upload)", "App file (URL)", "Installed app"} }
  predicate CaptureTypeKnown(cfg: Config) { cfg.captureType in {"Every step", "Every UI transit", "Failure capture only"} }
  predicate DeviceLanguageKnown(cfg: Config) { cfg.deviceLanguage in {"Default", "English", "Japanese"} }
  predicate DeviceRegionKnown(cfg: Config) { cfg.deviceRegion in Names(DeviceRegionTable) }

  predicate AllKnown(cfg: Config) {
    EnvironmentKnown(cfg) && AppTypeKnown(cfg) && CaptureTypeKnown(cfg)
    && DeviceLanguageKnown(cfg) && DeviceRegionKnown(cfg)
  }

  /** How many of the five validated fields hold an unknown display name. */
  function UnknownCount(cfg: Config): nat {
    (if EnvironmentKnown(cfg) then 0 else 1)
    + (if AppTypeKnown(cfg) then 0 else 1)
    + (if CaptureTypeKnown(cfg) then 0 else 1)
    + (if DeviceLanguageKnown(cfg) then 0 else 1)
    + (if DeviceRegionKnown(cfg) then 0 else 1)
  }

  /** Position of each validation message in the order fields are checked;
      5 for anything else. */
  function ErrorRank(message: string): nat {
    if message == EnvironmentError then 0
    else if message == AppTypeError then 1
    else if message == CaptureTypeError then 2
    else if message == DeviceLanguageError then 3
    else if message == DeviceRegionError then 4
    else 5
  }

  /** The validation message of the `k`-th checked field. */
  function FieldError(k: nat): (m: string)
    requires k < 5
    ensures ErrorRank(m) == k
  {
    [EnvironmentError, AppTypeError, CaptureTypeError, DeviceLanguageError, DeviceRegionError][k]
  }

  /** Whether the `k`-th checked field holds a known display name. */
  predicate FieldKnown(cfg: Config, k: nat)
    requires k < 5
  {
    match k
    case 0 => EnvironmentKnown(cfg)
    case 1 => AppTypeKnown(cfg)
    case 2 => CaptureTypeKnown(cfg)
    case 3 => DeviceLanguageKnown(cfg)
    case _ => DeviceRegionKnown(cfg)
  }

  /** The converter call for the `k`-th checked field. */
  function FieldConversion(cfg: Config, k: nat): (c: Conversion)
    requires k < 5
    ensures c.Ok() <==> FieldKnown(cfg, k)
    ensures !c.Ok() ==> c.error == Some(FieldError(k))
  {
    match k
    case 0 => ConvertEnvironmentParam(cfg.environment)
    case 1 => ConvertAppTypeParam(cfg.appType)
    case 2 => ConvertCaptureTypeParam(cfg.captureType)
    case 3 => ConvertDeviceLanguageParam(cfg.deviceLanguage)
    case _ => ConvertDeviceRegionParam(cfg.deviceRegion)
  }

  /** A failed conversion adds its message to the collected errors; a successful one adds nothing. */
  function AppendError(errors: seq<string>, c: Conversion): (r: seq<string>)
    ensures c.Ok() ==> r == errors
    ensures !c.Ok() ==> r == errors + [c.error.value]
  {
    match c.error
    case Some(e) => errors + [e]
    case None => errors
  }

  /** Errors are reported in the order the fields are checked: environment,
      app type, capture type, device language, device region. */
  predicate InCheckOrder(errors: seq<string>) {
    forall i, j :: 0 <= i < j < |errors| ==> ErrorRank(errors[i]) < ErrorRank(errors[j])
  }

  /** How many of the first `n` checked fields hold an unknown display name. */
  function UnknownAmong(cfg: Config, n: nat): (count: nat)
    requires n <= 5
    ensures count <= n
  {
    if n == 0 then 0 else UnknownAmong(cfg, n - 1) + (if FieldKnown(cfg, n - 1) then 0 else 1)
  }

  /** The errors collected once the first `n` fields have been checked. */
  function CollectErrors(cfg: Config, n: nat): (r: seq<string>)
    requires n <= 5
    ensures |r| == UnknownAmong(cfg, n)
    ensures forall k :: 0 <= k < 5 ==> (FieldError(k) in r <==> k < n && !FieldKnown(cfg, k))
    ensures forall e :: e in r ==> ErrorRank(e) < n
    ensures InCheckOrder(r)
  {
    if n == 0 then []
    else
      var before := CollectErrors(cfg, n - 1);
      var r := AppendError(before, FieldConversion(cfg, n - 1));
      assert forall e :: e in r ==> e in before || e == FieldError(n - 1);
      r
  }

  /** No unknown field among the first `n` exactly when each of them is known. */
  lemma {:induction false} NoneUnknown(cfg: Config, n: nat)
    requires n <= 5
    ensures UnknownAmong(cfg, n) == 0 <==> forall k :: 0 <= k < n ==> FieldKnown(cfg, k)
  {
    if n > 0 {
      NoneUnknown(cfg, n - 1);
    }
  }

  lemma AllKnownByField(cfg: Config)
    ensures AllKnown(cfg) <==> forall k :: 0 <= k < 5 ==> FieldKnown(cfg, k)
  {
    assert FieldKnown(cfg, 0) == EnvironmentKnown(cfg);
    assert FieldKnown(cfg, 1) == AppTypeKnown(cfg);
    assert FieldKnown(cfg, 2) == CaptureTypeKnown(cfg);
    assert FieldKnown(cfg, 3) == DeviceLanguageKnown(cfg);
    assert FieldKnown(cfg, 4) == DeviceRegionKnown(cfg);
  }

  /** The field-by-field count agrees with the closed-form count. */
  lemma {:induction false} UnknownCountByField(cfg: Config)
    ensures UnknownAmong(cfg, 5) == UnknownCount(cfg)
  {
    assert UnknownAmong(cfg, 1) == (if EnvironmentKnown(cfg) then 0 else 1);
    assert UnknownAmong(cfg, 2) == UnknownAmong(cfg, 1) + (if AppTypeKnown(cfg) then 0 else 1);
    assert UnknownAmong(cfg, 3) == UnknownAmong(cfg, 2) + (if CaptureTypeKnown(cfg) then 0 else 1);
    assert UnknownAmong(cfg, 4) == UnknownAmong(cfg, 3) + (if DeviceLanguageKnown(cfg) then 0 else 1);
    assert UnknownAmong(cfg, 5) == UnknownAmong(cfg, 4) + (if DeviceRegionKnown(cfg) then 0 else 1);
  }

  /** Runs every converter, with no short-circuit, and rewrites the fields in
      place: an unknown value becomes "". */
  function ConvertToApiParams(cfg: Config): (r: Normalized)
    ensures |r.errors| == UnknownAmong(cfg, 5) == UnknownCount(cfg) && |r.errors| <= 5
    ensures r.errors == [] <==> AllKnown(cfg)
    ensures forall k :: 0 <= k < 5 ==> (FieldError(k) in r.errors <==> !FieldKnown(cfg, k))
    ensures forall e :: e in r.errors ==> ErrorRank(e) < 5
    ensures InCheckOrder(r.errors)
    ensures r.config.environment == ConvertEnvironmentParam(cfg.environment).token
    ensures r.config.appType == ConvertAppTypeParam(cfg.appType).token
    ensures r.config.captureType == ConvertCaptureTypeParam(cfg.captureType).token
    ensures r.config.deviceLanguage == ConvertDeviceLanguageParam(cfg.deviceLanguage).token
    ensures r.config.deviceRegion == ConvertDeviceRegionParam(cfg.deviceRegion).token
    ensures r.config.osName == ConvertToSnakeCase(cfg.osName)
    ensures r.config.deviceType == ConvertToSnakeCase(cfg.deviceType)
    // nothing else is rewritten
    ensures r.config == cfg.(environment := r.config.environment, osName := r.config.osName,
                             deviceType := r.config.deviceType, appType := r.config.appType,
                             captureType := r.config.captureType, deviceLanguage := r.config.deviceLanguage,
                             deviceRegion := r.config.deviceRegion)
  {
    var errors := CollectErrors(cfg, 5);
    UnknownCountByField(cfg);
    assert errors == [] <==> AllKnown(cfg) by {
      NoneUnknown(cfg, 5);
      AllKnownByField(cfg);
    }
    var config := cfg.(
      environment := ConvertEnvironmentParam(cfg.environment).token,
      osName := ConvertToSnakeCase(cfg.osName),
      deviceType := ConvertToSnakeCase(cfg.deviceType),
      appType := ConvertAppTypeParam(cfg.appType).token,
      captureType := ConvertCaptureTypeParam(cfg.captureType).token,
      deviceLanguage := ConvertDeviceLanguageParam(cfg.deviceLanguage).token,
      deviceRegion := ConvertDeviceRegionParam(cfg.deviceRegion).token);
    Normalized(config, errors)
  }

  /** Two independently invalid fields give two errors, not one: here an
      unknown environment and an unknown capture type. */
  lemma TwoInvalidFieldsTwoErrors(cfg: Config)
    requires !EnvironmentKnown(cfg) && !CaptureTypeKnown(cfg)
    requires AppTypeKnown(cfg) && DeviceLanguageKnown(cfg) && DeviceRegionKnown(cfg)
    ensures ConvertToApiParams(cfg).errors == [EnvironmentError, CaptureTypeError]
  {
    AllKnownByField(cfg);
    assert !FieldKnown(cfg, 0) && FieldKnown(cfg, 1) && !FieldKnown(cfg, 2);
    assert FieldKnown(cfg, 3) && FieldKnown(cfg, 4);
    assert CollectErrors(cfg, 1) == [EnvironmentError];
    assert CollectErrors(cfg, 2) == [EnvironmentError];
    assert CollectErrors(cfg, 3) == [EnvironmentError, CaptureTypeError];
    assert CollectErrors(cfg, 4) == [EnvironmentError, CaptureTypeError];
    assert CollectErrors(cfg, 5) == [EnvironmentError, CaptureTypeError];
  }
}
