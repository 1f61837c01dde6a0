# Magic Pod UI test step: a verified model of its decision logic

This is a Dafny model of `main.go`, the Bitrise step that starts a Magic Pod batch run
and reports how it ended. The step reads its settings and checks them. It uploads the
app under test when needed, starts the run with a JSON body, and then polls the run
until its status is no longer `"running"`. The model has one module per part:

- `Tables` and `Params`: the five enum converters (`convertEnvironmentParam`,
  `convertAppTypeParam`, `convertCaptureTypeParam`, `convertDeviceLanguageParam`,
  `convertDeviceRegionParam`). Each converter is a table of (display name, wire token)
  rows, and the lookup is the first match that the Go `switch` performs. An
  unknown input gives the pair `("", error)`.
- `SnakeCase`: `convertToSnakeCase`.
- `Settings`: the step's `Config` record and `convertToAPIParams`. Every converter
  runs, none stops the others, and every error is collected.
- `Payload`: `createStartBatchRunParams`, as a `map<string, Value>`.
- `Orchestration`: `handleError`, the zip path rule of `zipAppDir`/`uploadAppFile`,
  the poll loop, and the whole flow of `main`. Each remote reply is a parameter.
  Polling runs over a finite script of replies.

This revision of the step has no deadline on polling: `passedTime` is
increased but never read. The model follows the code, so the loop only stops on a
status other than `"running"`, and `PollHasNoDeadline` proves that it waits out any
number of `"running"` replies.

The request body does not always name the app in only one way. For `app_file` and
`app_url` on iOS with a remote TestKit environment, `bundle_id` is sent next to
`app_file_number` or `app_url` (main.go:262-281). `ExactlyOneAppSource` states
this as the code does it.

## Model

| member | source | states |
|---|---|---|
| `Tables.FindName` | main.go:144-153 | the switch picks the first case whose name equals the input; no case matches exactly when the result is the table length |
| `Tables.Lookup` | main.go:144-153 | a token is found iff the input is a listed name; the token is the one paired with that name |
| `Tables.ReverseLookup` | main.go:143-244 | a reference inverse of the five converter tables, with no counterpart in the source: it finds a name iff the token is listed, and that name is paired with the token |
| `Tables.LookupRoundTrip` | main.go:195-244 | on a table with distinct names and tokens, looking up a name and then reversing the token gives the name back |
| `Tables.ReverseLookupRoundTrip` | main.go:195-244 | reversing a listed token and looking the name up gives the token back |
| `Params.Convert` | main.go:143-154 | an input is accepted iff it is a listed name, with that name's token; otherwise the result is `("", error)` with the converter's message |
| `Params.ConvertListed` | main.go:143-154 | on a well-formed table every listed name converts to exactly its listed token with no error |
| `Params.ConvertTokenXorError` | main.go:143-154 | on a well-formed table a conversion has a non-empty token iff it has no error |
| `Params.ConvertEnvironmentParam` | main.go:143-154 | accepts exactly "Magic Pod", "Remote TestKit" and "Remote TestKit Onpremise", giving one of the three tokens; anything else gives `("", EnvironmentError)` |
| `Params.ConvertAppTypeParam` | main.go:156-167 | accepts exactly the three app type names, giving app_file, app_url or installed; anything else gives `("", AppTypeError)` |
| `Params.ConvertCaptureTypeParam` | main.go:169-180 | accepts exactly the three capture names, giving on_each_step, on_ui_transit or on_error; anything else gives `("", CaptureTypeError)` |
| `Params.ConvertDeviceLanguageParam` | main.go:182-193 | accepts exactly Default, English and Japanese, giving default, en or ja; anything else gives `("", DeviceLanguageError)` |
| `Params.ConvertDeviceRegionParam` | main.go:195-244 | accepts exactly the 22 listed regions, giving a listed code; anything else gives `("", "Invalid Device Region")` |
| `Params.ListedEnvironments` | main.go:144-150 | each environment name gives exactly its token |
| `Params.ListedAppTypes` | main.go:157-163 | each app type name gives exactly its token |
| `Params.ListedCaptureTypes` | main.go:170-176 | each capture type name gives exactly its token |
| `Params.ListedLanguages` | main.go:183-189 | each language gives exactly its code, and "Default" becomes "default" |
| `Params.ListedRegions` | main.go:196-240 | each of the 22 regions gives exactly its code, and "Default" passes through unchanged as "Default" |
| `Params.TokenXorError` | main.go:143-244 | for all five converters a token and an error never come together: the token is non-empty iff there is no error |
| `Params.EmptyInputRejected` | main.go:151-152 | the empty string is rejected by all five converters, each with its own message |
| `Params.ConvertRoundTrip` | main.go:143-154 | on a well-formed table the token of an accepted input reverses to that input |
| `Params.TokensDetermineNames` | main.go:143-244 | for all five converters no two display names share a token, so reversing the token gives the chosen name back |
| `SnakeCase.LowerChar` | main.go:137 | an ASCII capital becomes its lower-case letter, 32 code points higher; every other character is kept |
| `SnakeCase.ToLower` | main.go:137 | lower-casing keeps the length and lower-cases each character in place |
| `SnakeCase.ReplaceAll` | main.go:138 | replacing every occurrence keeps the length and changes exactly the occurrences of the pattern |
| `SnakeCase.ConvertToSnakeCase` | main.go:136-141 | the result has the input's length and no spaces or ASCII capitals; spaces become `_`, capitals become lower case, and every other character is kept |
| `SnakeCase.SnakeCaseFixedPoints` | main.go:136-141 | snake-casing leaves a string unchanged iff it has no space and no capital |
| `SnakeCase.SnakeCaseIdempotent` | main.go:136-141 | snake-casing twice equals snake-casing once |
| `SnakeCase.SnakeCaseIos` | main.go:115 | the display value "iOS" becomes the token "ios" |
| `SnakeCase.SnakeCaseSimulator` | main.go:116 | the display value "Simulator" becomes the token "simulator" |
| `Settings.FieldError` | main.go:111-132 | the validation message of the k-th checked field sits at position k of the check order |
| `Settings.FieldConversion` | main.go:111-132 | the k-th converter call succeeds iff the k-th field is known, and otherwise carries that field's message |
| `Settings.AppendError` | main.go:112-114 | a nil error leaves the list alone; a non-nil error is appended at the end |
| `Settings.CollectErrors` | main.go:108-134 | after checking the first n fields, the list holds one error per unknown field among them, holds a field's message iff that field is unknown, and lists the messages in check order |
| `Settings.UnknownCountByField` | main.go:108-134 | counting unknown fields one by one in check order gives the number of unknown fields among the five |
| `Settings.ConvertToApiParams` | main.go:108-134 | 0 to 5 errors, exactly as many as there are unknown fields, one per unknown field among environment, app type, capture type, language and region, in that order; the list is empty iff all five are known; each field is replaced by its conversion's token, os and device type are snake-cased, and no other field changes |
| `Settings.TwoInvalidFieldsTwoErrors` | main.go:108-134 | an unknown environment and an unknown capture type give both errors, environment first, and no error is lost to a short-circuit |
| `Payload.Common` | main.go:249-261 | the eleven always-present keys hold the config's fields unchanged |
| `Payload.Credentials` | main.go:250-256 | the token is sent iff the environment is remote_testkit; server URL, user name and password are sent iff it is remote_testkit_onpremise |
| `Payload.AppSource` | main.go:262-291 | app_file_number iff app_file, app_url iff app_url, app_package and app_activity iff installed off iOS, bundle_id iff the bundle id rule holds; each holds its config field |
| `Payload.SharedData` | main.go:297-299 | shared_data_pattern is sent iff MultiLangData is non-empty, as `{"multi_lang_data": MultiLangData}` |
| `Payload.CreateStartBatchRunParams` | main.go:246-302 | the body is the union of the four key groups: the eleven common keys are always there, and the other keys appear exactly as their group decides |
| `Payload.PayloadCopiesConfig` | main.go:249-261 | environment, os, device_type, version, model, app_type, send_mail, retry_count, capture_type, device_language and device_region are always present and copied unchanged |
| `Payload.PayloadCredentials` | main.go:250-256 | external_service_token is present iff remote_testkit; server URL, user name and password are present iff remote_testkit_onpremise; none of the four is present for magic_pod |
| `Payload.PayloadAppSource` | main.go:262-291 | app_file gives app_file_number and no app_url or package/activity keys; app_url gives app_url and no file number; installed gives bundle_id on iOS and otherwise app_package and app_activity without bundle_id; for app_file and app_url, bundle_id is present iff the OS is iOS on either Remote TestKit environment |
| `Payload.PayloadSharedData` | main.go:297-299 | shared_data_pattern is present iff MultiLangData is non-empty, and then equals `{"multi_lang_data": MultiLangData}` |
| `Payload.ExactlyOneAppSource` | main.go:262-291 | for each known app type exactly one of a file number, a URL and an Android package with activity is sent, or else the bundle id alone; the bundle id is also sent next to a file number or URL exactly when the OS is ios and the environment is a remote TestKit |
| `Orchestration.HandleError` | main.go:83-104 | the step goes on iff a response arrived with status 200, and then with that response's body |
| `Orchestration.ZipPath` | main.go:317 | the archive path is the directory path followed by ".zip" |
| `Orchestration.NeedsZip` | main.go:330 | the app is zipped before upload exactly when the OS is ios and the device type is simulator |
| `Orchestration.UploadPath` | main.go:328-332 | the uploaded file is the app path, or its zip exactly when the OS is ios and the device type is simulator |
| `Orchestration.Poll` | main.go:414-424 | the loop stops at the first reply that failed or has a status other than "running"; every earlier reply was "running"; if the script ends while running, every reply was "running" |
| `Orchestration.PollIgnoresLaterReplies` | main.go:416-424 | replies after the one the loop stops at are never read |
| `Orchestration.PollHasNoDeadline` | main.go:414-424 | any number n of "running" replies followed by a final status yields that status, after n sleeps of 15 seconds |
| `Orchestration.AppFileNumber` | main.go:397-401 | the file number is the uploaded file's number for app_file, and -1 otherwise |
| `Orchestration.ResultExports` | main.go:434-437 | after a final status, four values are exported in this order: the status, then the succeeded, failed and total test-case counts |
| `Orchestration.Conclude` | main.go:412-443 | get-run calls and sleep time are those of the poll loop; the step succeeds iff the final status is "succeeded", and waits on iff the script ended while running; the URL is exported first, and the status and tallies follow once a final status is seen |
| `Orchestration.Proceed` | main.go:397-443 | upload happens iff the app type is app_file, with the zip rule; the run starts unless the upload failed, with the file number or -1; polling happens only after a successful start with waiting on; the step succeeds iff the run started and either waiting is off or the final status is "succeeded" |
| `Orchestration.RunStep` | main.go:369-446 | `main` logs every validation error and stops before any request when there is one; otherwise it continues as `Proceed` on the normalized config |
| `Orchestration.SuccessMeansSucceeded` | main.go:416-443 | with waiting on, success means some reply had status "succeeded" and every reply before it was "running" |
| `Orchestration.UploadRejectedNeverStarts` | main.go:339 | a failed or non-200 upload fails the step, with no start request and no polling |
| `Orchestration.IosSimulatorUploadsZip` | main.go:115-116 | for the settings "iOS", "Simulator" and a cloud upload, the file sent is the app path plus ".zip" |
| `Orchestration.NoWaitSucceedsOnStart` | main.go:407-410 | with waiting off, the step succeeds right after the run starts, without polling |
| `Orchestration.SucceededAfterTwoPolls` | main.go:416-443 | two "running" replies and then "succeeded" with tallies 2/0/2 give success, three get-run calls, 30 seconds asleep, and exports of the URL, "succeeded", 2, 0 and 2 |

## Left out

- HTTP transport (`createBaseRequest`, the network calls of `uploadAppFile`, `startBatchRun` and `getBatchRun`): each reply is a parameter. The base URL, the `Token` auth header, the path parameters and the run number in the get-run path are not modelled.
- `Orchestration.HandleError`: models only the outcome of `handleError`, which is that any transport error or non-200 status fails the step. How it decodes the error body into `Detail`, a field map, or nothing (for an HTML page) only changes the logged message.
- `zipAppDir`'s filesystem effects (`os.RemoveAll`, `archiver.Archive`): only the path rule is modelled. Archiving is assumed to succeed, so the model has no path where a failed archive exits.
- Configuration parsing (`stepconf.Parse`, `stepconf.Print`): the model starts from a parsed `Config`. Required-field checks are not modelled.
- Removing the secrets from the environment (`os.Unsetenv`), and the exit that a failure there causes: not modelled.
- Logging, `print(".")`, the text of the result message, and `os.Exit`: the exit is `Exit.Success` or `Exit.Failure`.
- `time.Sleep`: each sleep is counted as 15 seconds, and no time passes.
- The poll loop's endless waiting: the script of replies is finite. When it ends while the run is still "running", the outcome is `Exit.Waiting`, because the real loop would keep polling.
- `tools.ExportEnvironmentWithEnvman`: modelled as a list of (key, value) exports, with the counts as numbers. The decimal text that `strconv.Itoa` produces is not modelled, and export errors are ignored, as in the source.
- `SnakeCase.ConvertToSnakeCase`: lower-cases ASCII letters only. Go's `strings.ToLower` also lower-cases other Unicode letters and can change the byte length of non-ASCII text.
- Go's 64-bit `int` (`RetryCount`, `FileNo`, tallies): modelled as unbounded integers, because the step only copies these values.
- A deadline on polling: this revision has none, so none is modelled.
