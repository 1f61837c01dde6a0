/** `createStartBatchRunParams` of main.go: the JSON body of the request that
    starts a batch run, built from the normalised configuration. */
module Payload {
  import opened Settings

  /** A JSON value the body can hold: a string, a Go `int`, or a string map. */
  datatype Value = Text(text: string) | Number(number: int) | Object(fields: map<string, string>)

  /** Environments that run on an external device cloud. */
  predicate RemoteTestKit(environment: string) {
    environment == "remote_testkit" || environment == "remote_testkit_onpremise"
  }

  /** Keys written for every configuration, each copied from one field. */
  const AlwaysKeys: set<string> := {
    "environment", "os", "device_type", "version", "model", "app_type",
    "send_mail", "retry_count", "capture_type", "device_language", "device_region"
  }

  /** Keys that carry the credentials of an external device cloud. */
  const CredentialKeys: set<string> := {
    "external_service_token", "external_service_server_url",
    "external_service_user_name", "external_service_password"
  }

  /** Keys that say where the app under test comes from. */
  const AppSourceKeys: set<string> := {
    "app_file_number", "app_url", "bundle_id", "app_package", "app_activity"
  }

  /** Every key the body can ever hold. */
  const AllKeys: set<string> := AlwaysKeys + CredentialKeys + AppSourceKeys + {"shared_data_pattern"}

  /** The four groups of keys never share a key. */
  lemma KeyGroupsDisjoint()
    ensures AlwaysKeys !! CredentialKeys && AlwaysKeys !! AppSourceKeys && CredentialKeys !! AppSourceKeys
    ensures "shared_data_pattern" !in AlwaysKeys + CredentialKeys + AppSourceKeys
  {
  }

  /** The bundle id goes along with an uploaded or linked iOS app only on the
      external device clouds; an installed iOS app is always named by it. */
  predicate SendsBundleId(cfg: Config) {
    cfg.osName == "ios"
    && (cfg.appType == "installed"
        || ((cfg.appType == "app_file" || cfg.appType == "app_url") && RemoteTestKit(cfg.environment)))
  }

  /** The fields copied for every configuration. */
  function Common(cfg: Config): (m: map<string, Value>)
    ensures m.Keys == AlwaysKeys
    ensures m["environment"] == Text(cfg.environment) && m["os"] == Text(cfg.osName)
    ensures m["device_type"] == Text(cfg.deviceType) && m["version"] == Text(cfg.version)
    ensures m["model"] == Text(cfg.model) && m["app_type"] == Text(cfg.appType)
    ensures m["send_mail"] == Text(cfg.sendMail) && m["retry_count"] == Number(cfg.retryCount)
    ensures m["capture_type"] == Text(cfg.captureType) && m["device_language"] == Text(cfg.deviceLanguage)
    ensures m["device_region"] == Text(cfg.deviceRegion)
  {
    map[
      "environment" := Text(cfg.environment),
      "os" := Text(cfg.osName),
      "device_type" := Text(cfg.deviceType),
      "version" := Text(cfg.version),
      "model" := Text(cfg.model),
      "app_type" := Text(cfg.appType),
      "send_mail" := Text(cfg.sendMail),
      "retry_count" := Number(cfg.retryCount),
      "capture_type" := Text(cfg.captureType),
      "device_language" := Text(cfg.deviceLanguage),
      "device_region" := Text(cfg.deviceRegion)]
  }

  /** The credentials of the external device cloud, if the environment is one. */
  function Credentials(cfg: Config): (m: map<string, Value>)
    ensures m.Keys <= CredentialKeys
    ensures "external_service_token" in m <==> cfg.environment == "remote_testkit"
    ensures "external_service_server_url" in m <==> cfg.environment == "remote_testkit_onpremise"
    ensures "external_service_user_name" in m <==> cfg.environment == "remote_testkit_onpremise"
    ensures "external_service_password" in m <==> cfg.environment == "remote_testkit_onpremise"
    ensures "external_service_token" in m ==> m["external_service_token"] == Text(cfg.externalServiceToken)
    ensures "external_service_server_url" in m ==>
      m["external_service_server_url"] == Text(cfg.externalServiceServerUrl)
      && m["external_service_user_name"] == Text(cfg.externalServiceUserName)
      && m["external_service_password"] == Text(cfg.externalServicePassword)
  {
    if cfg.environment == "remote_testkit" then
      map["external_service_token" := Text(cfg.externalServiceToken)]
    else if cfg.environment == "remote_testkit_onpremise" then
      map["external_service_server_url" := Text(cfg.externalServiceServerUrl),
          "external_service_user_name" := Text(cfg.externalServiceUserName),
          "external_service_password" := Text(cfg.externalServicePassword)]
    else map[]
  }

  /** The keys naming the app: the `switch cfg.AppType` of the source. */
  function AppSource(cfg: Config, appFileNumber: int): (m: map<string, Value>)
    ensures m.Keys <= AppSourceKeys
    ensures "app_file_number" in m <==> cfg.appType == "app_file"
    ensures "app_url" in m <==> cfg.appType == "app_url"
    ensures "app_package" in m <==> cfg.appType == "installed" && cfg.osName != "ios"
    ensures "app_activity" in m <==> cfg.appType == "installed" && cfg.osName != "ios"
    ensures "bundle_id" in m <==> SendsBundleId(cfg)
    ensures "app_file_number" in m ==> m["app_file_number"] == Number(appFileNumber)
    ensures "app_url" in m ==> m["app_url"] == Text(cfg.appUrl)
    ensures "app_package" in m ==>
      m["app_package"] == Text(cfg.appPackage) && m["app_activity"] == Text(cfg.appActivity)
    ensures "bundle_id" in m ==> m["bundle_id"] == Text(cfg.bundleId)
  {
    var bundle := if cfg.osName == "ios" && RemoteTestKit(cfg.environment)
      then map["bundle_id" := Text(cfg.bundleId)] else map[];
    match cfg.appType
    case "app_file" => bundle["app_file_number" := Number(appFileNumber)]
    case "app_url" => bundle["app_url" := Text(cfg.appUrl)]
    case "installed" =>
      if cfg.osName == "ios" then map["bundle_id" := Text(cfg.bundleId)]
      else map["app_package" := Text(cfg.appPackage), "app_activity" := Text(cfg.appActivity)]
    case _ => map[]
  }

  /** The localised data table, sent only when one was given. */
  function SharedData(cfg: Config): (m: map<string, Value>)
    ensures m.Keys <= {"shared_data_pattern"}
    ensures "shared_data_pattern" in m <==> cfg.multiLangData != ""
    ensures "shared_data_pattern" in m ==>
      m["shared_data_pattern"] == Object(map["multi_lang_data" := cfg.multiLangData])
  {
    if cfg.multiLangData != "" then
      map["shared_data_pattern" := Object(map["multi_lang_data" := cfg.multiLangData])]
    else map[]
  }

  /** The body of the start request. The source inserts the keys one by one;
      since no key is written twice, that is the union of the four groups. */
  function CreateStartBatchRunParams(cfg: Config, appFileNumber: int): (p: map<string, Value>)
    ensures AlwaysKeys <= p.Keys <= AllKeys
    ensures forall k :: k in AlwaysKeys ==> p[k] == Common(cfg)[k]
    ensures forall k :: k in CredentialKeys ==> (k in p <==> k in Credentials(cfg))
    ensures forall k :: k in Credentials(cfg) ==> p[k] == Credentials(cfg)[k]
    ensures forall k :: k in AppSourceKeys ==> (k in p <==> k in AppSource(cfg, appFileNumber))
    ensures forall k :: k in AppSource(cfg, appFileNumber) ==> p[k] == AppSource(cfg, appFileNumber)[k]
    ensures "shared_data_pattern" in p <==> cfg.multiLangData != ""
    ensures "shared_data_pattern" in p ==> p["shared_data_pattern"] == SharedData(cfg)["shared_data_pattern"]
  {
    KeyGroupsDisjoint();
    Common(cfg) + Credentials(cfg) + AppSource(cfg, appFileNumber) + SharedData(cfg)
  }

  // ------------------------------------------------------------ properties

  /** The eleven always-present keys hold their fields unchanged. */
  lemma PayloadCopiesConfig(cfg: Config, appFileNumber: int)
    ensures var p := CreateStartBatchRunParams(cfg, appFileNumber);
      && AlwaysKeys <= p.Keys
      && p["environment"] == Text(cfg.environment)
      && p["os"] == Text(cfg.osName)
      && p["device_type"] == Text(cfg.deviceType)
      && p["version"] == Text(cfg.version)
      && p["model"] == Text(cfg.model)
      && p["app_type"] == Text(cfg.appType)
      && p["send_mail"] == Text(cfg.sendMail)
      && p["retry_count"] == Number(cfg.retryCount)
      && p["capture_type"] == Text(cfg.captureType)
      && p["device_language"] == Text(cfg.deviceLanguage)
      && p["device_region"] == Text(cfg.deviceRegion)
  {
  }

  /** The token goes with Remote TestKit, server URL, user name and password
      with its on-premise variant, and none of them with Magic Pod. */
  lemma PayloadCredentials(cfg: Config, appFileNumber: int)
    ensures var p := CreateStartBatchRunParams(cfg, appFileNumber);
      && ("external_service_token" in p <==> cfg.environment == "remote_testkit")
      && ("external_service_server_url" in p <==> cfg.environment == "remote_testkit_onpremise")
      && ("external_service_user_name" in p <==> cfg.environment == "remote_testkit_onpremise")
      && ("external_service_password" in p <==> cfg.environment == "remote_testkit_onpremise")
      && ("external_service_token" in p ==> p["external_service_token"] == Text(cfg.externalServiceToken))
      && ("external_service_server_url" in p ==>
            p["external_service_server_url"] == Text(cfg.externalServiceServerUrl)
            && p["external_service_user_name"] == Text(cfg.externalServiceUserName)
            && p["external_service_password"] == Text(cfg.externalServicePassword))
      && (cfg.environment == "magic_pod" ==> CredentialKeys !! p.Keys)
  {
  }

  /** Which app-source keys appear, and what they hold. */
  lemma PayloadAppSource(cfg: Config, appFileNumber: int)
    ensures var p := CreateStartBatchRunParams(cfg, appFileNumber);
      && ("app_file_number" in p <==> cfg.appType == "app_file")
      && ("app_url" in p <==> cfg.appType == "app_url")
      && ("app_package" in p <==> cfg.appType == "installed" && cfg.osName != "ios")
      && ("app_activity" in p <==> cfg.appType == "installed" && cfg.osName != "ios")
      && ("bundle_id" in p <==> SendsBundleId(cfg))
      && ("app_file_number" in p ==> p["app_file_number"] == Number(appFileNumber))
      && ("app_url" in p ==> p["app_url"] == Text(cfg.appUrl))
      && ("app_package" in p ==>
            p["app_package"] == Text(cfg.appPackage) && p["app_activity"] == Text(cfg.appActivity))
      && ("bundle_id" in p ==> p["bundle_id"] == Text(cfg.bundleId))
  {
  }

  /** The shared data table appears exactly when some data was given, under
      the single key `multi_lang_data`. */
  lemma PayloadSharedData(cfg: Config, appFileNumber: int)
    ensures var p := CreateStartBatchRunParams(cfg, appFileNumber);
      && ("shared_data_pattern" in p <==> cfg.multiLangData != "")
      && ("shared_data_pattern" in p ==>
            p["shared_data_pattern"] == Object(map["multi_lang_data" := cfg.multiLangData]))
  {
  }

  /** For each recognised app type the body names the app by exactly one of a
      file number, a URL, or an Android package and activity; an installed iOS
      app is named by its bundle id alone. The bundle id also rides along with
      a file number or URL, exactly for iOS on a remote TestKit. */
  lemma ExactlyOneAppSource(cfg: Config, appFileNumber: int)
    requires cfg.appType in {"app_file", "app_url", "installed"}
    ensures var p := CreateStartBatchRunParams(cfg, appFileNumber);
      var file := "app_file_number" in p;
      var url := "app_url" in p;
      var pkg := "app_package" in p;
      var bundle := "bundle_id" in p;
      && (pkg <==> "app_activity" in p)
      && (file ==> !url && !pkg) && (url ==> !pkg)
      && (file || url || pkg || bundle)
      && (pkg ==> !bundle)
      && ((file || url) ==> (bundle <==> cfg.osName == "ios" && RemoteTestKit(cfg.environment)))
  {
    PayloadAppSource(cfg, appFileNumber);
  }
}
